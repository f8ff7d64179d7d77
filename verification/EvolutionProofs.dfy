/** What every run of the self-revision protocol keeps, crashes and I/O errors
    at any write included. */
module EvolutionProofs {
  import opened Wrappers
  import opened EvolutionModel
  import opened EvolutionMachine

  // ---- the log ----

  /** Line `e` announced the text `t`. */
  predicate BirthLine(e: Event, t: Text) {
    e == Candidate(t) || e == ExternalEdit(Some(t)) || (e.CounterLine? && e.rewrite == t)
  }

  predicate Born(r: Rules, log: seq<Event>, born: nat, t: Text) {
    born < |log| && BirthLine(log[born], t) && Mechanical(r, t)
  }

  /** Adopt line `i`: its text was announced before and passes the mechanical
      checks, its `old_text` is the text it replaces, and it moves away from it. */
  predicate GoodAdopt(r: Rules, log: seq<Event>, i: nat)
    requires i < |log| && log[i].Adopt?
  {
    var e := log[i];
    && e.born < i
    && Born(r, log[..i], e.born, e.text)
    && e.oldText == Sanctioned(log[..i])
    && (e.oldText.Some? ==> !Echo(r, e.text, e.oldText.value))
  }

  predicate AdoptOf(log: seq<Event>, i: nat, born: nat) {
    i < |log| && log[i].Adopt? && log[i].born == born
  }

  ghost predicate LogOk(r: Rules, log: seq<Event>) {
    && (forall i: nat {:trigger GoodAdopt(r, log, i)} | i < |log| && log[i].Adopt? :: GoodAdopt(r, log, i))
    && (forall i: nat, j: nat, b: nat | AdoptOf(log, i, b) && AdoptOf(log, j, b) :: i == j)
  }

  /** If the announcement `born` was adopted at all, it is the text in force. */
  ghost predicate OnlyNewest(log: seq<Event>, born: nat) {
    forall i: nat | AdoptOf(log, i, born) :: i == LastAdopt(log)
  }

  lemma LastAdoptAppend(log: seq<Event>, e: Event)
    ensures LastAdopt(log + [e]) == if e.Adopt? then |log| else LastAdopt(log)
    ensures Sanctioned(log + [e]) == if e.Adopt? then Some(e.text) else Sanctioned(log)
  {
    assert (log + [e])[..|log|] == log;
  }

  lemma GoodAdoptAppend(r: Rules, log: seq<Event>, e: Event, i: nat)
    requires i < |log| && log[i].Adopt?
    ensures GoodAdopt(r, log + [e], i) <==> GoodAdopt(r, log, i)
  {
    assert (log + [e])[..i] == log[..i];
  }

  /** A line that is not an adoption keeps the log good. */
  lemma AppendPlain(r: Rules, log: seq<Event>, e: Event)
    requires LogOk(r, log) && !e.Adopt?
    ensures LogOk(r, log + [e]) && Sanctioned(log + [e]) == Sanctioned(log)
    ensures forall b: nat :: OnlyNewest(log, b) ==> OnlyNewest(log + [e], b)
    ensures forall b: nat, t :: Born(r, log, b, t) ==> Born(r, log + [e], b, t)
  {
    LastAdoptAppend(log, e);
    forall i: nat | i < |log + [e]| && (log + [e])[i].Adopt? ensures GoodAdopt(r, log + [e], i) {
      GoodAdoptAppend(r, log, e, i);
    }
    forall i: nat, b: nat | AdoptOf(log + [e], i, b) ensures AdoptOf(log, i, b) {}
  }

  /** So does adopting an announced text that was not adopted before. */
  lemma AppendAdopt(r: Rules, log: seq<Event>, t: Text, born: nat)
    requires LogOk(r, log) && Born(r, log, born, t)
    requires forall i: nat :: !AdoptOf(log, i, born)
    requires Sanctioned(log).Some? ==> !Echo(r, t, Sanctioned(log).value)
    ensures var l := log + [Adopt(t, Sanctioned(log), born)];
            LogOk(r, l) && OnlyNewest(l, born) && Sanctioned(l) == Some(t)
  {
    var e := Adopt(t, Sanctioned(log), born);
    var l := log + [e];
    LastAdoptAppend(log, e);
    assert l[..|log|] == log;
    forall i: nat | i < |l| && l[i].Adopt? ensures GoodAdopt(r, l, i) {
      if i < |log| { GoodAdoptAppend(r, log, e, i); }
    }
    forall i: nat, b: nat | AdoptOf(l, i, b) && i < |log| ensures AdoptOf(log, i, b) {}
  }

  /** A line's own index was never adopted before it was written. */
  lemma FreshBirth(r: Rules, log: seq<Event>)
    requires LogOk(r, log)
    ensures forall i: nat, b: nat | AdoptOf(log, i, b) :: b < i
  {
    forall i: nat, b: nat | AdoptOf(log, i, b) ensures b < i {
      assert GoodAdopt(r, log, i);
    }
  }

  // ---- slots ----

  ghost predicate SlotOk(r: Rules, log: seq<Event>, trace: seq<Mark>, mind: Mind, s: Slot) {
    && Born(r, log, s.born, s.candidate)
    && OnlyNewest(log, s.born)
    && (s.status.AwaitingDoll? ==> Judged(s.born) in trace)
    && (s.status.AwaitingSkeptic? ==>
          && s.verdictErrors < VERDICT_ERRORS_BOUND
          && !s.kind.Keeper?
          && (s.kind.Counter? ==> s.fallback.Some?)
          && (forall i: nat :: !AdoptOf(log, i, s.born))
          && (s.fallback.Some? ==> OnlyNewest(log, s.fallback.value.born)))
    && (s.fallback.Some? ==>
          && Born(r, log, s.fallback.value.born, s.fallback.value.candidate)
          && Judged(s.fallback.value.born) in trace)
    && s.counterRound <= COUNTER_ROUND_CAP
    && (s.hwmBefore.Some? ==> s.hwmBefore.value <= mind.hwm)
  }

  ghost predicate DiskOk(r: Rules, d: Disk, trace: seq<Mark>, mind: Mind) {
    && LogOk(r, d.log)
    && (d.slot.Some? ==> SlotOk(r, d.log, trace, mind, d.slot.value))
  }

  // ---- the history ----

  /** The adoption behind mark `t` followed a skeptic's PASS and, unless a reject
      went astray in the same turn, was shown in that turn. */
  predicate GoodTook(log: seq<Event>, trace: seq<Mark>, t: nat)
    requires t < |trace| && trace[t].Took?
  {
    && trace[t].at < |log|
    && log[trace[t].at].Adopt?
    && Judged(log[trace[t].at].born) in trace[..t]
    && (Shown(log[trace[t].at].born, trace[t].no) in trace[..t] || Stray(trace[t].no) in trace[..t])
  }

  ghost predicate Recorded(trace: seq<Mark>, i: nat) { exists no :: Took(i, no) in trace }

  ghost predicate TraceOk(log: seq<Event>, trace: seq<Mark>) {
    && (forall t: nat {:trigger GoodTook(log, trace, t)} | t < |trace| && trace[t].Took? :: GoodTook(log, trace, t))
    && (forall i: nat {:trigger Recorded(trace, i)} | i < |log| && log[i].Adopt? :: Recorded(trace, i))
  }

  // ---- the memory ----

  ghost predicate TurnOk(s: State) {
    s.turn.Some? && s.turn.value.surfaced && !s.turn.value.latched
    && Stray(s.turn.value.no) !in s.trace ==>
      && s.disk.slot.Some?
      && s.disk.slot.value.status == AwaitingDoll
      && Shown(s.disk.slot.value.born, s.turn.value.no) in s.trace
  }

  ghost predicate TrigOk(s: State) {
    match s.trig
    case Idle => true
    case Judging(slot, was) =>
      s.disk.slot == Some(slot) && slot.status == AwaitingSkeptic && was == Sanctioned(s.disk.log)
    case Keeping(h, off) =>
      && s.mind.hwm == h <= off <= |s.disk.log|
      && (s.disk.slot.Some? ==> s.disk.slot.value.hwmBefore.None?)
    case Booking(_, off) => s.mind.hwm <= off <= |s.disk.log|
  }

  predicate CfgOk(c: Cfg) { 0.0 <= c.base <= c.cap }

  ghost predicate Inv(c: Cfg, r: Rules, s: State) {
    && DiskOk(r, s.disk, s.trace, s.mind)
    && TraceOk(s.disk.log, s.trace)
    && TurnOk(s)
    && TrigOk(s)
    && s.mind.hwm <= s.saved.hwm <= |s.disk.log|
  }

  // ---- one step ----

  /** The log only grew, by no adoption, and the trace only grew, by no `Took`. */
  ghost predicate Plain(l: seq<Event>, l2: seq<Event>, tr: seq<Mark>, tr2: seq<Mark>) {
    && l <= l2 && tr <= tr2
    && (forall i | |l| <= i < |l2| :: !l2[i].Adopt?)
    && (forall t | |tr| <= t < |tr2| :: !tr2[t].Took?)
  }

  lemma TracePlain(l: seq<Event>, l2: seq<Event>, tr: seq<Mark>, tr2: seq<Mark>)
    requires TraceOk(l, tr) && Plain(l, l2, tr, tr2)
    ensures TraceOk(l2, tr2)
  {
    forall t: nat | t < |tr2| && tr2[t].Took? ensures GoodTook(l2, tr2, t) {
      assert GoodTook(l, tr, t);
      assert tr2[..t] == tr[..t];
    }
    forall i: nat | i < |l2| && l2[i].Adopt? ensures Recorded(tr2, i) {
      assert Recorded(tr, i);
      var no :| Took(i, no) in tr;
      assert Took(i, no) in tr2;
    }
  }

  lemma AppendKeepsDisk(r: Rules, d: Disk, tr: seq<Mark>, m: Mind, e: Event)
    requires DiskOk(r, d, tr, m) && !e.Adopt?
    ensures DiskOk(r, Apply(d, Append(e)), tr, m)
    ensures Sanctioned(d.log + [e]) == Sanctioned(d.log)
  {
    AppendPlain(r, d.log, e);
    forall i: nat, b: nat | AdoptOf(d.log + [e], i, b) ensures AdoptOf(d.log, i, b) {}
  }

  /** A step that decides nothing: no adoption, the slot stays or a fresh
      external proposal fills the empty one. */
  ghost predicate Quiet(r: Rules, d: Disk, d2: Disk, tr: seq<Mark>, m: Mind) {
    && DiskOk(r, d2, tr, m)
    && Plain(d.log, d2.log, tr, tr)
    && Sanctioned(d2.log) == Sanctioned(d.log)
    && (d2.slot == d.slot
        || (d.slot.None? && d2.slot.Some? && d2.slot.value.status == AwaitingSkeptic
            && d2.slot.value.hwmBefore.None?))
  }

  predicate PlainWrite(w: Write) { (w.Append? && !w.e.Adopt?) || w.PutFile? || w.DelFile? || w.ClearSlot? }

  lemma PlainNext(r: Rules, log: seq<Event>, e: Disk, tr: seq<Mark>, m: Mind, w: Write)
    requires DiskOk(r, e, tr, m) && Plain(log, e.log, tr, tr) && PlainWrite(w)
    ensures var f := Apply(e, w);
            && DiskOk(r, f, tr, m) && Plain(log, f.log, tr, tr) && f.slot == if w.ClearSlot? then None else e.slot
  {
    if w.Append? { AppendKeepsDisk(r, e, tr, m, w.e); }
  }

  lemma PlainOne(r: Rules, d: Disk, e: Disk, tr: seq<Mark>, m: Mind, w: Write)
    requires DiskOk(r, e, tr, m) && Plain(d.log, e.log, tr, tr) && Sanctioned(e.log) == Sanctioned(d.log) && PlainWrite(w)
    ensures var f := Apply(e, w);
            && DiskOk(r, f, tr, m) && Plain(d.log, f.log, tr, tr) && Sanctioned(f.log) == Sanctioned(d.log)
            && f.slot == if w.ClearSlot? then None else e.slot
  {
    if w.Append? { AppendKeepsDisk(r, e, tr, m, w.e); }
  }

  /** Writes that neither adopt nor fill the slot keep the disk good. */
  lemma PlainRun(r: Rules, d: Disk, tr: seq<Mark>, m: Mind, ws: seq<Write>, k: nat)
    requires DiskOk(r, d, tr, m) && k <= |ws|
    requires forall j :: 0 <= j < k ==> PlainWrite(ws[j])
    ensures var e := Exec(d, ws, k);
            && DiskOk(r, e, tr, m) && Plain(d.log, e.log, tr, tr)
            && Sanctioned(e.log) == Sanctioned(d.log)
            && (e.slot == d.slot || e.slot.None?)
            && ((forall j :: 0 <= j < k ==> !ws[j].ClearSlot?) ==> e.slot == d.slot)
  {
    if k > 0 {
      PlainRun(r, d, tr, m, ws, k - 1);
      PlainOne(r, d, Exec(d, ws, k - 1), tr, m, ws[k - 1]);
    }
  }

  /** The external slot of the newest open edit. */
  lemma ExternalSlotOk(r: Rules, log: seq<Event>, tr: seq<Mark>, m: Mind, t: Text, now: real, b: nat)
    requires LogOk(r, log) && b < |log| && log[b] == ExternalEdit(Some(t)) && Mechanical(r, t)
    requires forall j :: b < j < |log| ==> !Terminal(log[j])
    ensures SlotOk(r, log, tr, m, ExternalSlot(t, now, b))
  {
    NeverAdopted(r, log, b);
  }

  lemma TripwireShape(r: Rules, d: Disk, now: real)
    ensures var ws := TripwirePlan(r, d, now);
            forall j :: 0 <= j < |ws| ==>
              if ws[j].PutSlot? then
                && j + 1 == |ws| && d.slot.None? && Mechanical(r, ReadFile(d))
                && ws[j].s.born <= |d.log|
                && ws[j].s == ExternalSlot(ReadFile(d), now, ws[j].s.born)
                && OpenEdit(Exec(d, ws, j).log) == Some(ws[j].s.born)
                && Exec(d, ws, j).log[ws[j].s.born] == ExternalEdit(Some(ReadFile(d)))
              else PlainWrite(ws[j]) && !ws[j].ClearSlot?
  {
    var ws := TripwirePlan(r, d, now);
    ExecSteps(d, ws);
    if Diverges(d).NewEdit? && |ws| == 2 && ws[1].PutSlot? {
      var l := d.log + [ExternalEdit(Some(ReadFile(d)))];
      assert l[|l| - 1] == ExternalEdit(Some(ReadFile(d)));
    }
  }

  lemma TripwireQuiet(r: Rules, d: Disk, tr: seq<Mark>, m: Mind, now: real, k: nat)
    requires DiskOk(r, d, tr, m)
    requires k <= |TripwirePlan(r, d, now)|
    ensures Quiet(r, d, Exec(d, TripwirePlan(r, d, now), k), tr, m)
  {
    if k == 0 || !TripwirePlan(r, d, now)[k - 1].PutSlot? {
      QuietPlain(r, d, tr, m, now, k);
    } else {
      QuietPuts(r, d, tr, m, now, k);
    }
  }

  lemma QuietPlain(r: Rules, d: Disk, tr: seq<Mark>, m: Mind, now: real, k: nat)
    requires DiskOk(r, d, tr, m)
    requires k <= |TripwirePlan(r, d, now)| && (k == 0 || !TripwirePlan(r, d, now)[k - 1].PutSlot?)
    ensures Quiet(r, d, Exec(d, TripwirePlan(r, d, now), k), tr, m)
  {
    TripwireShape(r, d, now);
    PlainRun(r, d, tr, m, TripwirePlan(r, d, now), k);
  }

  lemma QuietPuts(r: Rules, d: Disk, tr: seq<Mark>, m: Mind, now: real, k: nat)
    requires DiskOk(r, d, tr, m)
    requires 0 < k <= |TripwirePlan(r, d, now)| && TripwirePlan(r, d, now)[k - 1].PutSlot?
    ensures Quiet(r, d, Exec(d, TripwirePlan(r, d, now), k), tr, m)
  {
    var ws := TripwirePlan(r, d, now);
    TripwireShape(r, d, now);
    PlainRun(r, d, tr, m, ws, k - 1);
    ExternalSlotOk(r, Exec(d, ws, k - 1).log, tr, m, ReadFile(d), now, ws[k - 1].s.born);
  }

  /** An edit that is still open was not adopted: an adoption would close it. */
  lemma NeverAdopted(r: Rules, log: seq<Event>, b: nat)
    requires LogOk(r, log) && b < |log|
    requires forall j :: b < j < |log| ==> !Terminal(log[j])
    ensures forall i: nat :: !AdoptOf(log, i, b)
  {
    FreshBirth(r, log);
  }

  lemma QuietKeepsInv(c: Cfg, r: Rules, s: State, d2: Disk)
    requires Inv(c, r, s) && Quiet(r, s.disk, d2, s.trace, s.mind)
    ensures Inv(c, r, s.(disk := d2))
  {
    TracePlain(s.disk.log, d2.log, s.trace, s.trace);
  }

  lemma RebootKeepsInv(c: Cfg, r: Rules, s: State)
    requires DiskOk(r, s.disk, s.trace, s.mind) && TraceOk(s.disk.log, s.trace)
    requires s.mind.hwm <= s.saved.hwm <= |s.disk.log|
    ensures Inv(c, r, Reboot(s))
  {
  }

  lemma StepTripwire(c: Cfg, r: Rules, s: State, now: real, f: Fault)
    requires Inv(c, r, s) && s.turn.Some?
    ensures Inv(c, r, NextTripwire(r, s, now, f))
  {
    var ws := TripwirePlan(r, s.disk, now);
    var t := s.(disk := Exec(s.disk, ws, Done(f, ws)));
    TripwireQuiet(r, s.disk, s.trace, s.mind, now, Done(f, ws));
    QuietKeepsInv(c, r, s, t.disk);
    if f.Crashes? { RebootKeepsInv(c, r, t); } else { TurnMovesOn(c, r, t); }
  }

  /** The turn goes on to its next phase, or ends. */
  lemma TurnMovesOn(c: Cfg, r: Rules, s: State)
    requires Inv(c, r, s) && s.turn.Some?
    ensures Inv(c, r, s.(turn := Some(s.turn.value.(phase := Wired)))) && Inv(c, r, s.(turn := None))
  {
  }

  /** A surfacing that shows nothing. */
  lemma SurfaceRetires(c: Cfg, r: Rules, s: State, now: real, f: Fault)
    requires Inv(c, r, s) && s.turn.Some? && s.turn.value.phase.Wired? && !SurfaceCase(c, s.disk, now).Shows?
    ensures Inv(c, r, NextSurface(c, s, now, f))
  {
    var ws := SurfacePlan(c, s.disk, now);
    var s2 := NextSurface(c, s, now, f);
    SurfaceWrites(c, r, s, now, Done(f, ws));
    TracePlain(s.disk.log, s2.disk.log, s.trace, s2.trace);
  }

  /** The writes of an expiry or a retirement. */
  lemma SurfaceWrites(c: Cfg, r: Rules, s: State, now: real, k: nat)
    requires DiskOk(r, s.disk, s.trace, s.mind) && !SurfaceCase(c, s.disk, now).Shows? && k <= |SurfacePlan(c, s.disk, now)|
    ensures var d := Exec(s.disk, SurfacePlan(c, s.disk, now), k);
            && DiskOk(r, d, s.trace, s.mind) && Plain(s.disk.log, d.log, s.trace, s.trace)
            && Sanctioned(d.log) == Sanctioned(s.disk.log) && (d.slot == s.disk.slot || d.slot.None?)
            && (SurfaceCase(c, s.disk, now).Expires? && k >= 2 ==> d.slot.None?)
  {
    var ws := SurfacePlan(c, s.disk, now);
    PlainRun(r, s.disk, s.trace, s.mind, ws, k);
    if k >= 2 { SlotCleared(s.disk, ws, k); }
  }

  /** Behind the write that clears it the slot stays empty. */
  lemma {:induction false} SlotCleared(d: Disk, ws: seq<Write>, k: nat)
    requires 2 <= k <= |ws| && ws[1].ClearSlot? && forall j | 2 <= j < |ws| :: !ws[j].PutSlot?
    ensures Exec(d, ws, k).slot.None?
  {
    if k > 2 { SlotCleared(d, ws, k - 1); }
  }

  lemma SurfaceShows(c: Cfg, r: Rules, s: State, now: real, f: Fault)
    requires Inv(c, r, s) && s.turn.Some? && s.turn.value.phase.Wired? && SurfaceCase(c, s.disk, now).Shows?
    ensures Inv(c, r, NextSurface(c, s, now, f))
  {
    var ws := SurfacePlan(c, s.disk, now);
    var s2 := NextSurface(c, s, now, f);
    ExecSteps(s.disk, ws);
    TracePlain(s.disk.log, s2.disk.log, s.trace, s2.trace);
  }

  lemma StepSurface(c: Cfg, r: Rules, s: State, now: real, f: Fault)
    requires Inv(c, r, s) && s.turn.Some? && s.turn.value.phase.Wired?
    ensures Inv(c, r, NextSurface(c, s, now, f))
  {
    if SurfaceCase(c, s.disk, now).Shows? { SurfaceShows(c, r, s, now, f); } else { SurfaceRetires(c, r, s, now, f); }
  }

  lemma RejectWrites(r: Rules, s: State, fileOk: bool, k: nat)
    requires DiskOk(r, s.disk, s.trace, s.mind) && s.disk.slot.Some? && k <= |RevisePlan(s.disk, Rejects, fileOk)|
    ensures var d := Exec(s.disk, RevisePlan(s.disk, Rejects, fileOk), k);
            && DiskOk(r, d, s.trace, s.mind) && Plain(s.disk.log, d.log, s.trace, s.trace)
            && Sanctioned(d.log) == Sanctioned(s.disk.log)
            && d.slot == if k < 2 then s.disk.slot else None
  {
    var ws := RevisePlan(s.disk, Rejects, fileOk);
    PlainRun(r, s.disk, s.trace, s.mind, ws, k);
    ExecSteps(s.disk, ws);
  }

  lemma ReviseRejects(c: Cfg, r: Rules, s: State, text: Text, fileOk: bool, f: Fault)
    requires Inv(c, r, s) && s.turn.Some?
    requires ReviseCase(r, s.disk, s.turn.value.latched, s.turn.value.surfaced, false, text).Rejects?
    ensures Inv(c, r, NextRevise(c, r, s, false, text, fileOk, f))
  {
    var ws := RevisePlan(s.disk, Rejects, fileOk);
    RejectWrites(r, s, fileOk, Done(f, ws));
    if Done(f, ws) >= 2 && !Completes(f, ws) { RejectStrays(c, r, s, text, fileOk, f); } else { RejectCounts(c, r, s, text, fileOk, f); }
  }

  /** The reject failed behind clearing the slot. */
  lemma RejectStrays(c: Cfg, r: Rules, s: State, text: Text, fileOk: bool, f: Fault)
    requires Inv(c, r, s) && s.turn.Some?
    requires ReviseCase(r, s.disk, s.turn.value.latched, s.turn.value.surfaced, false, text).Rejects?
    requires var ws := RevisePlan(s.disk, Rejects, fileOk); Done(f, ws) >= 2 && !Completes(f, ws)
    ensures Inv(c, r, NextRevise(c, r, s, false, text, fileOk, f))
  {
    var ws := RevisePlan(s.disk, Rejects, fileOk);
    var s2 := NextRevise(c, r, s, false, text, fileOk, f);
    RejectWrites(r, s, fileOk, Done(f, ws));
    assert s2.trace == s.trace + [Stray(s.turn.value.no)];
    assert s2.trace[|s.trace|] == Stray(s.turn.value.no);
    DiskTrace(r, s2.disk, s.trace, s2.trace, s.mind);
    TracePlain(s.disk.log, s2.disk.log, s.trace, s2.trace);
  }

  /** It ran to its end, or failed before. */
  lemma RejectCounts(c: Cfg, r: Rules, s: State, text: Text, fileOk: bool, f: Fault)
    requires Inv(c, r, s) && s.turn.Some?
    requires ReviseCase(r, s.disk, s.turn.value.latched, s.turn.value.surfaced, false, text).Rejects?
    requires var ws := RevisePlan(s.disk, Rejects, fileOk); Done(f, ws) < 2 || Completes(f, ws)
    ensures Inv(c, r, NextRevise(c, r, s, false, text, fileOk, f))
  {
    var ws := RevisePlan(s.disk, Rejects, fileOk);
    var s2 := NextRevise(c, r, s, false, text, fileOk, f);
    RejectWrites(r, s, fileOk, Done(f, ws));
    assert s2.trace == s.trace;
    TracePlain(s.disk.log, s2.disk.log, s.trace, s2.trace);
  }

  lemma AdoptedIsInForce(r: Rules, log: seq<Event>, born: nat, t: Text)
    requires LogOk(r, log) && Born(r, log, born, t) && OnlyNewest(log, born)
    ensures forall i: nat :: AdoptOf(log, i, born) ==> Sanctioned(log) == Some(t)
  {
    forall i: nat | AdoptOf(log, i, born) ensures Sanctioned(log) == Some(t) {
      assert GoodAdopt(r, log, i);
    }
  }

  /** An adoption's first write: the log line, and with it the mark. */
  lemma AdoptLine(r: Rules, s: State, fileOk: bool)
    requires s.turn.Some? && s.disk.slot.Some? && s.disk.slot.value.status.AwaitingDoll?
    requires DiskOk(r, s.disk, s.trace, s.mind) && TraceOk(s.disk.log, s.trace)
    requires Shown(s.disk.slot.value.born, s.turn.value.no) in s.trace || Stray(s.turn.value.no) in s.trace
    requires Sanctioned(s.disk.log).Some? ==> !Echo(r, s.disk.slot.value.candidate, Sanctioned(s.disk.log).value)
    ensures var d := Apply(s.disk, RevisePlan(s.disk, Adopts, fileOk)[0]);
            && DiskOk(r, d, s.trace, s.mind)
            && TraceOk(d.log, s.trace + [Took(|s.disk.log|, s.turn.value.no)])
  {
    var slot := s.disk.slot.value;
    var l := s.disk.log;
    var e := Adopt(slot.candidate, Sanctioned(l), slot.born);
    AdoptedIsInForce(r, l, slot.born, slot.candidate);
    AppendAdopt(r, l, slot.candidate, slot.born);
    forall i: nat, b: nat | AdoptOf(l + [e], i, b) && b != slot.born ensures AdoptOf(l, i, b) {}
    TookAppend(l, s.trace, e, s.turn.value.no);
  }

  lemma TookAppend(l: seq<Event>, tr: seq<Mark>, e: Event, no: nat)
    requires TraceOk(l, tr) && e.Adopt?
    requires Judged(e.born) in tr && (Shown(e.born, no) in tr || Stray(no) in tr)
    ensures TraceOk(l + [e], tr + [Took(|l|, no)])
  {
    var l2, tr2 := l + [e], tr + [Took(|l|, no)];
    assert tr2[..|tr|] == tr;
    forall t: nat | t < |tr2| && tr2[t].Took? ensures GoodTook(l2, tr2, t) {
      if t < |tr| {
        assert GoodTook(l, tr, t);
        assert tr2[..t] == tr[..t];
      }
    }
    forall i: nat | i < |l2| && l2[i].Adopt? ensures Recorded(tr2, i) {
      if i < |l| {
        assert Recorded(tr, i);
        var q :| Took(i, q) in tr;
        assert Took(i, q) in tr2;
      } else {
        assert tr2[|tr|] == Took(i, no);
      }
    }
  }

  /** The adoption's writes behind its line. */
  lemma AdoptWrites(c: Cfg, r: Rules, s: State, fileOk: bool, k: nat)
    requires Inv(c, r, s) && s.turn.Some? && s.disk.slot.Some? && s.disk.slot.value.status.AwaitingDoll?
    requires Shown(s.disk.slot.value.born, s.turn.value.no) in s.trace || Stray(s.turn.value.no) in s.trace
    requires Sanctioned(s.disk.log).Some? ==> !Echo(r, s.disk.slot.value.candidate, Sanctioned(s.disk.log).value)
    requires 0 < k <= |RevisePlan(s.disk, Adopts, fileOk)|
    ensures var d := Exec(s.disk, RevisePlan(s.disk, Adopts, fileOk), k);
            var tr := s.trace + [Took(|s.disk.log|, s.turn.value.no)];
            && DiskOk(r, d, tr, s.mind) && TraceOk(d.log, tr) && |s.disk.log| <= |d.log|
            && (d.slot == s.disk.slot || d.slot.None?) && (k < 3 ==> d.slot == s.disk.slot)
  {
    var ws := RevisePlan(s.disk, Adopts, fileOk);
    var d1, tr := Apply(s.disk, ws[0]), s.trace + [Took(|s.disk.log|, s.turn.value.no)];
    AdoptLine(r, s, fileOk);
    DiskTrace(r, d1, s.trace, tr, s.mind);
    AfterFirst(r, s.disk, tr, s.mind, ws, k);
    TracePlain(d1.log, Exec(s.disk, ws, k).log, tr, tr);
  }

  lemma ReviseAdopts(c: Cfg, r: Rules, s: State, text: Text, fileOk: bool, f: Fault)
    requires Inv(c, r, s) && s.turn.Some?
    requires ReviseCase(r, s.disk, s.turn.value.latched, s.turn.value.surfaced, true, text).Adopts?
    ensures Inv(c, r, NextRevise(c, r, s, true, text, fileOk, f))
  {
    var ws := RevisePlan(s.disk, Adopts, fileOk);
    var s2 := NextRevise(c, r, s, true, text, fileOk, f);
    if Done(f, ws) == 0 {
      assert s2.trace == s.trace;
    } else {
      AdoptWrites(c, r, s, fileOk, Done(f, ws));
      assert s2.trace == s.trace + [Took(|s.disk.log|, s.turn.value.no)];
    }
  }

  lemma DiskTrace(r: Rules, d: Disk, tr: seq<Mark>, tr2: seq<Mark>, m: Mind)
    requires DiskOk(r, d, tr, m) && tr <= tr2
    ensures DiskOk(r, d, tr2, m)
  {
  }

  /** The writes after an adopt line keep the disk good. */
  lemma AfterFirst(r: Rules, d: Disk, tr: seq<Mark>, m: Mind, ws: seq<Write>, k: nat)
    requires 1 <= k <= |ws| && DiskOk(r, Apply(d, ws[0]), tr, m)
    requires forall j :: 1 <= j < k ==> PlainWrite(ws[j])
    ensures var (d1, e) := (Apply(d, ws[0]), Exec(d, ws, k));
            && DiskOk(r, e, tr, m) && Plain(d1.log, e.log, tr, tr)
            && (e.slot == d1.slot || e.slot.None?)
            && ((forall j :: 1 <= j < k ==> !ws[j].ClearSlot?) ==> e.slot == d1.slot)
  {
    if k == 1 {
      ExecSteps(d, ws);
    } else {
      AfterFirst(r, d, tr, m, ws, k - 1);
      PlainNext(r, Apply(d, ws[0]).log, Exec(d, ws, k - 1), tr, m, ws[k - 1]);
    }
  }

  lemma CounterWrites(r: Rules, s: State, t: Text, k: nat)
    requires DiskOk(r, s.disk, s.trace, s.mind) && s.disk.slot.Some? && s.disk.slot.value.status.AwaitingDoll?
    requires s.disk.slot.value.counterRound < COUNTER_ROUND_CAP && Mechanical(r, t)
    requires k <= |RevisePlan(s.disk, Counters(t), true)|
    ensures var d := Exec(s.disk, RevisePlan(s.disk, Counters(t), true), k);
            && DiskOk(r, d, s.trace, s.mind) && Plain(s.disk.log, d.log, s.trace, s.trace)
            && Sanctioned(d.log) == Sanctioned(s.disk.log)
            && (k < 2 ==> d.slot == s.disk.slot)
            && (k == 2 ==> d.slot.Some? && d.slot.value.status.AwaitingSkeptic?
                           && d.slot.value.hwmBefore == s.disk.slot.value.hwmBefore)
  {
    var ws := RevisePlan(s.disk, Counters(t), true);
    if k < 2 {
      PlainRun(r, s.disk, s.trace, s.mind, ws, k);
    } else {
      ExecSteps(s.disk, ws);
      CounterSlotOk(r, s.disk, s.trace, s.mind, t, ws[0].e);
    }
  }

  lemma ReviseCounters(c: Cfg, r: Rules, s: State, text: Text, fileOk: bool, f: Fault)
    requires Inv(c, r, s) && s.turn.Some?
    requires ReviseCase(r, s.disk, s.turn.value.latched, s.turn.value.surfaced, true, text).Counters?
    ensures Inv(c, r, NextRevise(c, r, s, true, text, fileOk, f))
  {
    var v := ReviseCase(r, s.disk, s.turn.value.latched, s.turn.value.surfaced, true, text);
    var ws := RevisePlan(s.disk, v, fileOk);
    var s2 := NextRevise(c, r, s, true, text, fileOk, f);
    assert s2.trace == s.trace;
    CounterWrites(r, s, v.proposed, Done(f, ws));
    TracePlain(s.disk.log, s2.disk.log, s.trace, s2.trace);
  }

  lemma CounterSlotOk(r: Rules, d: Disk, tr: seq<Mark>, m: Mind, t: Text, e: Event)
    requires DiskOk(r, d, tr, m) && d.slot.Some? && d.slot.value.status.AwaitingDoll?
    requires d.slot.value.counterRound < COUNTER_ROUND_CAP
    requires e.CounterLine? && e.rewrite == t && Mechanical(r, t)
    ensures DiskOk(r, Disk(d.log + [e], d.file, Some(ToCounter(d.slot.value, t, |d.log|))), tr, m)
    ensures Sanctioned(d.log + [e]) == Sanctioned(d.log)
  {
    AppendKeepsDisk(r, d, tr, m, e);
    NeverAdopted2(r, d.log, e);
  }

  lemma NeverAdopted2(r: Rules, log: seq<Event>, e: Event)
    requires LogOk(r, log) && !e.Adopt?
    ensures forall i: nat :: !AdoptOf(log + [e], i, |log|)
  {
    FreshBirth(r, log);
    forall i: nat ensures !AdoptOf(log + [e], i, |log|) {
      assert AdoptOf(log + [e], i, |log|) ==> AdoptOf(log, i, |log|);
    }
  }

  lemma StepRevise(c: Cfg, r: Rules, s: State, adopt: bool, text: Text, fileOk: bool, f: Fault)
    requires Inv(c, r, s) && s.turn.Some?
    ensures Inv(c, r, NextRevise(c, r, s, adopt, text, fileOk, f))
  {
    match ReviseCase(r, s.disk, s.turn.value.latched, s.turn.value.surfaced, adopt, text)
    case Refuses =>
      assert NextRevise(c, r, s, adopt, text, fileOk, f).trace == s.trace;
    case Rejects => ReviseRejects(c, r, s, text, fileOk, f);
    case Adopts => ReviseAdopts(c, r, s, text, fileOk, f);
    case Counters(_) => ReviseCounters(c, r, s, text, fileOk, f);
  }

  /** The slot a landed verdict writes back. */
  lemma JudgedSlotOk(r: Rules, d: Disk, tr: seq<Mark>, m: Mind, v: Verdict, now: real)
    requires DiskOk(r, d, tr, m) && d.slot.Some? && d.slot.value.status.AwaitingSkeptic?
    requires v.Passed? ==> Judged(d.slot.value.born) in tr
    ensures var s := d.slot.value;
            match v
            case Passed => SlotOk(r, d.log, tr, m, s.(status := AwaitingDoll))
            case Killed(reason) => s.kind.Counter? ==> SlotOk(r, d.log, tr, m, RevertToFallback(s, reason))
            case Failed => !StrikesOut(s) ==> SlotOk(r, d.log, tr, m, Strike(s, now))
  {
  }

  function JudgeMarks(s: Slot, v: Verdict): seq<Mark> { if v.Passed? then [Judged(s.born)] else [] }

  /** The verdict's writes, none of which fills the slot. */
  lemma JudgePlain(r: Rules, d: Disk, tr: seq<Mark>, m: Mind, v: Verdict, now: real, k: nat)
    requires DiskOk(r, d, tr, m) && d.slot.Some?
    requires var ws := JudgePlan(d, d.slot.value, Sanctioned(d.log), v, now); k <= |ws| && (k == 0 || !ws[k - 1].PutSlot?)
    ensures var e := Exec(d, JudgePlan(d, d.slot.value, Sanctioned(d.log), v, now), k);
            && DiskOk(r, e, tr, m) && Plain(d.log, e.log, tr, tr) && Sanctioned(e.log) == Sanctioned(d.log)
            && (v.Failed? && StrikesOut(d.slot.value) && k >= 2 ==> e.slot.None?)
  {
    var ws := JudgePlan(d, d.slot.value, Sanctioned(d.log), v, now);
    PlainRun(r, d, tr, m, ws, k);
    ExecSteps(d, ws);
  }

  /** The verdict's writes up to the one that fills the slot. */
  lemma JudgePuts(r: Rules, d: Disk, tr: seq<Mark>, m: Mind, v: Verdict, now: real, k: nat)
    requires DiskOk(r, d, tr, m) && d.slot.Some? && d.slot.value.status.AwaitingSkeptic?
    requires v.Passed? ==> Judged(d.slot.value.born) in tr
    requires var ws := JudgePlan(d, d.slot.value, Sanctioned(d.log), v, now); 0 < k <= |ws| && ws[k - 1].PutSlot?
    ensures var e := Exec(d, JudgePlan(d, d.slot.value, Sanctioned(d.log), v, now), k);
            && DiskOk(r, e, tr, m) && Plain(d.log, e.log, tr, tr) && Sanctioned(e.log) == Sanctioned(d.log)
            && !(v.Failed? && StrikesOut(d.slot.value))
  {
    var ws := JudgePlan(d, d.slot.value, Sanctioned(d.log), v, now);
    PlainRun(r, d, tr, m, ws, k - 1);
    JudgedSlotOk(r, Exec(d, ws, k - 1), tr, m, v, now);
  }

  lemma JudgeWrites(c: Cfg, r: Rules, s: State, v: Verdict, now: real, k: nat)
    requires Inv(c, r, s) && s.trig.Judging? && k <= |JudgePlan(s.disk, s.trig.slot, s.trig.was, v, now)|
    ensures var d := Exec(s.disk, JudgePlan(s.disk, s.trig.slot, s.trig.was, v, now), k);
            var tr := s.trace + JudgeMarks(s.trig.slot, v);
            && DiskOk(r, d, tr, s.mind) && Plain(s.disk.log, d.log, s.trace, tr)
            && Sanctioned(d.log) == Sanctioned(s.disk.log)
            && (v.Failed? && StrikesOut(s.trig.slot) && k >= 2 ==> d.slot.None?)
  {
    var tr := s.trace + JudgeMarks(s.trig.slot, v);
    DiskTrace(r, s.disk, s.trace, tr, s.mind);
    if k == 0 || !JudgePlan(s.disk, s.trig.slot, s.trig.was, v, now)[k - 1].PutSlot? {
      JudgePlain(r, s.disk, tr, s.mind, v, now, k);
    } else {
      if v.Passed? { assert tr[|s.trace|] == Judged(s.trig.slot.born); }
      JudgePuts(r, s.disk, tr, s.mind, v, now, k);
    }
  }

  lemma StepJudge(c: Cfg, r: Rules, s: State, v: Verdict, now: real, f: Fault)
    requires Inv(c, r, s) && s.trig.Judging?
    ensures Inv(c, r, NextJudge(s, v, now, f))
  {
    var ws := JudgePlan(s.disk, s.trig.slot, s.trig.was, v, now);
    var s2 := NextJudge(s, v, now, f);
    JudgeWrites(c, r, s, v, now, Done(f, ws));
    assert s2.trace == s.trace + JudgeMarks(s.trig.slot, v);
    TracePlain(s.disk.log, s2.disk.log, s.trace, s2.trace);
  }

  function KeepMarks(s: State, p: Result, k: nat): seq<Mark> {
    if p.PassCandidate? && s.disk.slot.None? && k > 0 then [Judged(|s.disk.log|)] else []
  }

  /** The pass's writes: a line, and behind a candidate's its slot. */
  lemma KeepWrites(c: Cfg, r: Rules, s: State, p: Result, now: real, k: nat)
    requires Inv(c, r, s) && s.trig.Keeping? && (p.PassCandidate? ==> Mechanical(r, p.text))
    requires k <= |KeepPlan(s.disk, p, s.trig.hwm, now)|
    ensures var d := Exec(s.disk, KeepPlan(s.disk, p, s.trig.hwm, now), k);
            var tr := s.trace + KeepMarks(s, p, k);
            && DiskOk(r, d, tr, s.mind) && Plain(s.disk.log, d.log, s.trace, tr)
            && (d.slot == s.disk.slot || (s.disk.slot.None? && k == 2))
  {
    var ws := KeepPlan(s.disk, p, s.trig.hwm, now);
    ExecSteps(s.disk, ws);
    if k >= 1 {
      AppendKeepsDisk(r, s.disk, s.trace, s.mind, ws[0].e);
      NeverAdopted2(r, s.disk.log, ws[0].e);
      DiskTrace(r, Apply(s.disk, ws[0]), s.trace, s.trace + KeepMarks(s, p, k), s.mind);
    }
    if k == 2 { KeepSlotOk(r, s, p, now); }
  }

  lemma KeepSlotOk(r: Rules, s: State, p: Result, now: real)
    requires p.PassCandidate? && Mechanical(r, p.text) && s.disk.slot.None? && s.trig.Keeping? && s.mind.hwm == s.trig.hwm
    requires LogOk(r, s.disk.log + [Candidate(p.text)]) && forall i: nat :: !AdoptOf(s.disk.log + [Candidate(p.text)], i, |s.disk.log|)
    ensures SlotOk(r, s.disk.log + [Candidate(p.text)], s.trace + [Judged(|s.disk.log|)], s.mind,
                   KeeperSlot(p.text, p.why, s.trig.hwm, now, |s.disk.log|))
  {
    assert (s.trace + [Judged(|s.disk.log|)])[|s.trace|] == Judged(|s.disk.log|);
  }

  lemma StepKeep(c: Cfg, r: Rules, s: State, p: Result, now: real, f: Fault)
    requires Inv(c, r, s) && s.trig.Keeping? && (p.PassCandidate? ==> Mechanical(r, p.text))
    ensures Inv(c, r, NextKeep(s, p, now, f))
  {
    var ws := KeepPlan(s.disk, p, s.trig.hwm, now);
    var s2 := NextKeep(s, p, now, f);
    KeepWrites(c, r, s, p, now, Done(f, ws));
    assert s2.trace == s.trace + KeepMarks(s, p, Done(f, ws));
    TracePlain(s.disk.log, s2.disk.log, s.trace, s2.trace);
  }

  lemma StepKeepsInv(c: Cfg, r: Rules, s: State, l: Label)
    requires Inv(c, r, s) && Enabled(s, l)
    ensures Inv(c, r, Next(c, r, s, l))
  {
    var s2 := Next(c, r, s, l);
    match l
    case RunTripwire(now, f) => StepTripwire(c, r, s, now, f);
    case RunSurface(now, f) => StepSurface(c, r, s, now, f);
    case Revise(a, t, o, f) => StepRevise(c, r, s, a, t, o, f);
    case JudgeEnd(v, now, f) => StepJudge(c, r, s, v, now, f);
    case KeepEnd(a, b, v, now, f) => StepKeep(c, r, s, PassResult(r, a, b, v), now, f);
    case Crash => RebootKeepsInv(c, r, s);
    case Pin =>
      AppendKeepsDisk(r, s.disk, s.trace, s.mind, PinEvent);
      QuietKeepsInv(c, r, s, s2.disk);
    case _ => StepsAside(c, r, s, l);
  }

  /** Steps that write neither the log nor the slot. */
  predicate Aside(l: Label) {
    || l.Edit? || l.BeginTurn? || l.SkipSurface? || l.EndTurn? || l.AbortTurn? || l.JudgeBegin? || l.KeepBegin?
    || l.KeepBook? || l.CancelTask? || l.Save?
  }

  lemma StepsAside(c: Cfg, r: Rules, s: State, l: Label)
    requires Inv(c, r, s) && Enabled(s, l) && Aside(l)
    ensures Inv(c, r, Next(c, r, s, l))
  {
    var s2 := Next(c, r, s, l);
    DiskTrace(r, s.disk, s.trace, s2.trace, s.mind);
    TracePlain(s.disk.log, s2.disk.log, s.trace, s2.trace);
  }

  lemma {:induction false} RunKeepsInv(c: Cfg, r: Rules, s: State, ls: seq<Label>)
    requires Inv(c, r, s) && Legal(c, r, s, ls)
    ensures Inv(c, r, After(c, r, s, ls))
    decreases |ls|
  {
    if ls != [] {
      StepKeepsInv(c, r, s, ls[0]);
      RunKeepsInv(c, r, Next(c, r, s, ls[0]), ls[1..]);
    }
  }
}
