/** Which adoptions were shown in their own turn: exactly those of turns in which no
    reject failed half-way. */
module EvolutionShown {
  import opened Wrappers
  import opened EvolutionModel
  import opened EvolutionMachine
  import opened EvolutionProofs

  /** The adopted text was shown in the adopting turn, unless before that a reject of
      the turn had gone astray: then it was not. */
  predicate TookExact(log: seq<Event>, trace: seq<Mark>, t: nat)
    requires t < |trace| && trace[t].Took?
  {
    && trace[t].at < |log| && log[trace[t].at].Adopt?
    && (Shown(log[trace[t].at].born, trace[t].no) in trace[..t] <==> Stray(trace[t].no) !in trace[..t])
  }

  ghost predicate Exact(log: seq<Event>, trace: seq<Mark>) {
    forall t: nat {:trigger TookExact(log, trace, t)} | t < |trace| && trace[t].Took? :: TookExact(log, trace, t)
  }

  /** Only texts in the log were shown, and turn numbers are fresh. */
  ghost predicate Dated(log: seq<Event>, trace: seq<Mark>) {
    && (forall b: nat, n: nat | Shown(b, n) in trace :: b < |log|)
    && (forall n: nat | Stray(n) in trace :: n < |trace|)
  }

  predicate Unshown(trace: seq<Mark>, slot: Option<Slot>, no: nat) {
    slot.Some? ==>
      && Shown(slot.value.born, no) !in trace
      && (slot.value.fallback.Some? ==> Shown(slot.value.fallback.value.born, no) !in trace)
  }

  /** Behind a stray reject the turn has seen nothing of what is pending. */
  ghost predicate Blind(s: State) {
    s.turn.Some? ==>
      && s.turn.value.no < |s.trace|
      && (Stray(s.turn.value.no) in s.trace ==>
            s.turn.value.phase.Live? && Unshown(s.trace, s.disk.slot, s.turn.value.no))
  }

  ghost predicate ShownInv(s: State) {
    Exact(s.disk.log, s.trace) && Dated(s.disk.log, s.trace) && Blind(s)
  }

  // ---- steps that show and adopt nothing ----

  /** A text pending before, or announced only now. */
  predicate Known(s: State, born: nat) {
    || born >= |s.disk.log|
    || (s.disk.slot.Some? && (born == s.disk.slot.value.born
                              || (s.disk.slot.value.fallback.Some? && born == s.disk.slot.value.fallback.value.born)))
  }

  predicate Silent(m: Mark) { m.Began? || m.Judged? }

  /** The log grew, the trace by nothing shown, adopted or astray; the turn is the
      same or over; and behind a stray reject only known texts are pending. */
  ghost predicate Unnoticed(s: State, s2: State) {
    && s.disk.log <= s2.disk.log && s.trace <= s2.trace
    && (forall t | |s.trace| <= t < |s2.trace| :: Silent(s2.trace[t]))
    && (s2.turn.Some? ==>
          && s.turn.Some? && s2.turn.value.no == s.turn.value.no
          && (s.turn.value.phase.Live? ==> s2.turn.value.phase.Live?)
          && (Stray(s.turn.value.no) in s.trace && s2.disk.slot.Some? ==>
                && Known(s, s2.disk.slot.value.born)
                && (s2.disk.slot.value.fallback.Some? ==> Known(s, s2.disk.slot.value.fallback.value.born))))
  }

  lemma LoudKept(s: State, s2: State, m: Mark)
    requires s.trace <= s2.trace && forall t | |s.trace| <= t < |s2.trace| :: Silent(s2.trace[t])
    requires !Silent(m)
    ensures m in s2.trace <==> m in s.trace
  {
    if m in s2.trace {
      var t :| 0 <= t < |s2.trace| && s2.trace[t] == m;
      assert t < |s.trace|;
    }
  }

  lemma ExactKept(l: seq<Event>, l2: seq<Event>, tr: seq<Mark>, tr2: seq<Mark>)
    requires Exact(l, tr) && l <= l2 && tr <= tr2 && forall t | |tr| <= t < |tr2| :: !tr2[t].Took?
    ensures Exact(l2, tr2)
  {
    forall t: nat | t < |tr2| && tr2[t].Took? ensures TookExact(l2, tr2, t) {
      assert TookExact(l, tr, t);
      assert tr2[..t] == tr[..t];
    }
  }

  lemma UnnoticedKeeps(s: State, s2: State)
    requires ShownInv(s) && Unnoticed(s, s2)
    ensures ShownInv(s2)
  {
    ExactKept(s.disk.log, s2.disk.log, s.trace, s2.trace);
    forall b: nat, n: nat | Shown(b, n) in s2.trace ensures b < |s2.disk.log| { LoudKept(s, s2, Shown(b, n)); }
    forall n: nat | Stray(n) in s2.trace ensures n < |s2.trace| { LoudKept(s, s2, Stray(n)); }
    if s2.turn.Some? {
      var no := s2.turn.value.no;
      LoudKept(s, s2, Stray(no));
      if Stray(no) in s2.trace && s2.disk.slot.Some? {
        LoudKept(s, s2, Shown(s2.disk.slot.value.born, no));
        if s2.disk.slot.value.fallback.Some? { LoudKept(s, s2, Shown(s2.disk.slot.value.fallback.value.born, no)); }
      }
    }
  }

  // ---- the steps ----

  lemma ShownTripwire(r: Rules, s: State, now: real, f: Fault)
    requires ShownInv(s) && s.turn.Some? && s.turn.value.phase.Opened?
    ensures ShownInv(NextTripwire(r, s, now, f))
  {
    var ws := TripwirePlan(r, s.disk, now);
    LogGrows(s.disk, ws, Done(f, ws));
    UnnoticedKeeps(s, NextTripwire(r, s, now, f));
  }

  lemma {:induction false} LogGrows(d: Disk, ws: seq<Write>, k: nat)
    requires k <= |ws|
    ensures d.log <= Exec(d, ws, k).log
  {
    if k > 0 { LogGrows(d, ws, k - 1); }
  }

  lemma ShownSurface(c: Cfg, r: Rules, s: State, now: real, f: Fault)
    requires Inv(c, r, s) && ShownInv(s) && s.turn.Some? && s.turn.value.phase.Wired?
    ensures ShownInv(NextSurface(c, s, now, f))
  {
    var ws := SurfacePlan(c, s.disk, now);
    var s2 := NextSurface(c, s, now, f);
    LogGrows(s.disk, ws, Done(f, ws));
    if s2.trace == s.trace {
      UnnoticedKeeps(s, s2);
    } else {
      ExactKept(s.disk.log, s2.disk.log, s.trace, s2.trace);
      assert s2.trace == s.trace + [Shown(s.disk.slot.value.born, s.turn.value.no)];
    }
  }

  lemma ShownRevise(c: Cfg, r: Rules, s: State, adopt: bool, text: Text, fileOk: bool, f: Fault)
    requires Inv(c, r, s) && ShownInv(s) && s.turn.Some? && s.turn.value.phase.Live?
    ensures ShownInv(NextRevise(c, r, s, adopt, text, fileOk, f))
  {
    var v := ReviseCase(r, s.disk, s.turn.value.latched, s.turn.value.surfaced, adopt, text);
    var ws := RevisePlan(s.disk, v, fileOk);
    var k := Done(f, ws);
    var s2 := NextRevise(c, r, s, adopt, text, fileOk, f);
    LogGrows(s.disk, ws, k);
    ExecSteps(s.disk, ws);
    if v.Adopts? && k > 0 {
      ShownAdopts(c, r, s, s2, ws, k);
    } else if v.Rejects? && !Completes(f, ws) && k >= 2 {
      SlotCleared(s.disk, ws, k);
      ShownStrays(s, s2);
    } else {
      assert s2.trace == s.trace;
      ReviseSlot(s, v, fileOk, k);
      UnnoticedKeeps(s, s2);
    }
  }

  lemma ShownStrays(s: State, s2: State)
    requires ShownInv(s) && s.turn.Some? && s.turn.value.phase.Live? && s.disk.log <= s2.disk.log && s2.disk.slot.None?
    requires s2.trace == s.trace + [Stray(s.turn.value.no)]
    requires s2.turn.Some? ==> s2.turn.value.no == s.turn.value.no && s2.turn.value.phase.Live?
    ensures ShownInv(s2)
  {
    ExactKept(s.disk.log, s2.disk.log, s.trace, s2.trace);
  }

  /** What a decision leaves pending was pending, or is its own new line. */
  lemma ReviseSlot(s: State, v: Revision, fileOk: bool, k: nat)
    requires !v.Refuses? ==> s.disk.slot.Some?
    requires k <= |RevisePlan(s.disk, v, fileOk)|
    ensures var d := Exec(s.disk, RevisePlan(s.disk, v, fileOk), k);
            d.slot.Some? ==> Known(s, d.slot.value.born)
                             && (d.slot.value.fallback.Some? ==> Known(s, d.slot.value.fallback.value.born))
  {
    ExecSteps(s.disk, RevisePlan(s.disk, v, fileOk));
    if k >= 2 && v.Rejects? { SlotCleared(s.disk, RevisePlan(s.disk, v, fileOk), k); }
  }

  lemma ShownAdopts(c: Cfg, r: Rules, s: State, s2: State, ws: seq<Write>, k: nat)
    requires Inv(c, r, s) && ShownInv(s) && s.turn.Some? && s.turn.value.phase.Live?
    requires s.disk.slot.Some? && s.disk.slot.value.status == AwaitingDoll && s.turn.value.surfaced && !s.turn.value.latched
    requires 0 < k <= |ws| && ws[0] == Append(Adopt(s.disk.slot.value.candidate, Sanctioned(s.disk.log), s.disk.slot.value.born))
    requires forall j | 0 <= j < |ws| :: !ws[j].PutSlot?
    requires s2.disk == Exec(s.disk, ws, k) && s2.trace == s.trace + [Took(|s.disk.log|, s.turn.value.no)]
    requires s2.turn.Some? ==> s2.turn.value.no == s.turn.value.no && s2.turn.value.phase.Live?
    ensures ShownInv(s2)
  {
    var n := |s.trace|;
    ExecSteps(s.disk, ws);
    FirstLine(s.disk, ws, k);
    forall t: nat | t < |s2.trace| && s2.trace[t].Took? ensures TookExact(s2.disk.log, s2.trace, t) {
      if t < n {
        assert TookExact(s.disk.log, s.trace, t);
        assert s2.trace[..t] == s.trace[..t];
      } else {
        assert s2.trace[..n] == s.trace;
      }
    }
    SlotKept(s.disk, ws, k);
  }

  lemma {:induction false} FirstLine(d: Disk, ws: seq<Write>, k: nat)
    requires 0 < k <= |ws| && ws[0].Append?
    ensures d.log + [ws[0].e] <= Exec(d, ws, k).log
  {
    if k == 1 { assert Exec(d, ws, 1) == Apply(Exec(d, ws, 0), ws[0]); } else { FirstLine(d, ws, k - 1); }
  }

  lemma {:induction false} SlotKept(d: Disk, ws: seq<Write>, k: nat)
    requires k <= |ws| && forall j | 0 <= j < |ws| :: !ws[j].PutSlot?
    ensures Exec(d, ws, k).slot == d.slot || Exec(d, ws, k).slot.None?
  {
    if k > 0 { SlotKept(d, ws, k - 1); }
  }

  lemma ShownJudge(c: Cfg, r: Rules, s: State, v: Verdict, now: real, f: Fault)
    requires Inv(c, r, s) && ShownInv(s) && s.trig.Judging?
    ensures ShownInv(NextJudge(s, v, now, f))
  {
    var ws := JudgePlan(s.disk, s.trig.slot, s.trig.was, v, now);
    var k := Done(f, ws);
    LogGrows(s.disk, ws, k);
    JudgeSlot(s, v, now, k);
    UnnoticedKeeps(s, NextJudge(s, v, now, f));
  }

  lemma JudgeSlot(s: State, v: Verdict, now: real, k: nat)
    requires s.trig.Judging? && s.disk.slot == Some(s.trig.slot)
    requires s.trig.slot.kind.Counter? ==> s.trig.slot.fallback.Some?
    requires k <= |JudgePlan(s.disk, s.trig.slot, s.trig.was, v, now)|
    ensures var d := Exec(s.disk, JudgePlan(s.disk, s.trig.slot, s.trig.was, v, now), k);
            d.slot.Some? ==> Known(s, d.slot.value.born)
                             && (d.slot.value.fallback.Some? ==> Known(s, d.slot.value.fallback.value.born))
  {
    var ws := JudgePlan(s.disk, s.trig.slot, s.trig.was, v, now);
    ExecSteps(s.disk, ws);
    if k >= 2 && !ws[1].PutSlot? { SlotCleared(s.disk, ws, k); }
  }

  lemma ShownKeep(s: State, p: Result, now: real, f: Fault)
    requires ShownInv(s) && s.trig.Keeping?
    ensures ShownInv(NextKeep(s, p, now, f))
  {
    var ws := KeepPlan(s.disk, p, s.trig.hwm, now);
    LogGrows(s.disk, ws, Done(f, ws));
    ExecSteps(s.disk, ws);
    UnnoticedKeeps(s, NextKeep(s, p, now, f));
  }

  lemma StepKeepsShown(c: Cfg, r: Rules, s: State, l: Label)
    requires Inv(c, r, s) && ShownInv(s) && Enabled(s, l)
    ensures ShownInv(Next(c, r, s, l))
  {
    match l
    case RunTripwire(now, f) => ShownTripwire(r, s, now, f);
    case RunSurface(now, f) => ShownSurface(c, r, s, now, f);
    case Revise(a, t, o, f) => ShownRevise(c, r, s, a, t, o, f);
    case JudgeEnd(v, now, f) => ShownJudge(c, r, s, v, now, f);
    case KeepEnd(a, b, v, now, f) => ShownKeep(s, PassResult(r, a, b, v), now, f);
    case BeginTurn => ExactKept(s.disk.log, s.disk.log, s.trace, Next(c, r, s, l).trace);
    case _ => UnnoticedKeeps(s, Next(c, r, s, l));
  }

  lemma {:induction false} RunKeepsShown(c: Cfg, r: Rules, s: State, ls: seq<Label>)
    requires Inv(c, r, s) && ShownInv(s) && Legal(c, r, s, ls)
    ensures ShownInv(After(c, r, s, ls))
    decreases |ls|
  {
    if ls != [] {
      StepKeepsInv(c, r, s, ls[0]);
      StepKeepsShown(c, r, s, ls[0]);
      RunKeepsShown(c, r, Next(c, r, s, ls[0]), ls[1..]);
    }
  }
}
