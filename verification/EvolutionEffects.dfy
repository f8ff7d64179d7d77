/** What every decision leaves on disk and in the mind when nothing cuts it short,
    in the terms of the states before and behind it. */
module EvolutionEffects {
  import opened Wrappers
  import opened EvolutionModel
  import opened EvolutionMachine
  import opened EvolutionProofs
  import opened EvolutionTheorems

  /** Nothing cuts a step of `n` writes short. */
  predicate Uncut(f: Fault, n: nat) { f.Clean? || (f.Raises? && f.k >= n) }

  /** The slot is gone, with one more line, and the file reads as the text in force. */
  predicate Withdrawn(d: Disk, d2: Disk, e: Event) {
    && d2.log == d.log + [e] && d2.slot.None?
    && Sanctioned(d2.log) == Sanctioned(d.log) && ReadFile(d2) == Sanctioned(d.log).GetOr("")
  }

  /** The proposal is withdrawn; of the rest only the turn and the mind change. */
  predicate Withdrew(s: State, s2: State, e: Event, turn: Option<Turn>, mind: Mind) {
    Withdrawn(s.disk, s2.disk, e) && s2 == s.(disk := s2.disk, turn := turn, mind := mind)
  }

  lemma WithdrewBy(s: State, s2: State, ws: seq<Write>, e: Event, turn: Option<Turn>, mind: Mind)
    requires s2 == s.(disk := Exec(s.disk, ws, |ws|), turn := turn, mind := mind) && Withdrawn(s.disk, Exec(s.disk, ws, |ws|), e)
    ensures Withdrew(s, s2, e, turn, mind)
  {
  }

  /** A line, the slot, and the file unless it reads as it should. */
  function WithdrawalWrites(d: Disk): nat { if ReadFile(d) == Sanctioned(d.log).GetOr("") then 2 else 3 }

  lemma Withdraws(d: Disk, e: Event, ws: seq<Write>, f: Fault)
    requires ws == [Append(e), ClearSlot] + Restore(d, Sanctioned(d.log)) && !e.Adopt? && Uncut(f, WithdrawalWrites(d))
    ensures Completes(f, ws) && Done(f, ws) == |ws| && Withdrawn(d, Exec(d, ws, |ws|), e)
  {
    LastAdoptAppend(d.log, e);
    ExpiryWrites(d, e, Sanctioned(d.log));
    RestoreReads(d, Disk(d.log + [e], d.file, None), Sanctioned(d.log));
  }

  /** One line, then the slot. */
  lemma LineThenSlot(d: Disk, e: Event, p: Slot)
    ensures Exec(d, [Append(e), PutSlot(p)], 2) == Disk(d.log + [e], d.file, Some(p))
  {
    ExecSteps(d, [Append(e), PutSlot(p)]);
  }

  // ---- the tripwire ----

  /** The file still reads as the newest adoption found it, or is not there behind the
      first one. */
  predicate Unwritten(d: Disk) {
    && Sanctioned(d.log).Some?
    && if AdoptOld(d.log).Some? then ReadFile(d) == AdoptOld(d.log).value else ReadFile(d) == ""
  }

  /** A file in step is left alone. One an adoption did not reach is repaired. Any
      other is an outside edit, logged when it is not the open one; a text that fails
      the checks is undone, any other is proposed unless something is pending. */
  lemma TripwireLeaves(r: Rules, d: Disk, now: real)
    ensures var file := ReadFile(d); var inForce := Sanctioned(d.log).GetOr(""); var ok := Mechanical(r, file);
            var known := OpenEditText(d.log) == Some(file);
            var e := Tripwire(r, d, now);
            && (file == inForce ==> e == d)
            && (file != inForce && Unwritten(d) ==> e == Disk(d.log + [Repair], Sanctioned(d.log), d.slot))
            && (file != inForce && !Unwritten(d) ==>
                  && e.log == d.log + (if known then [] else [ExternalEdit(if ok then Some(file) else None)])
                  && (if ok || (known && d.slot.Some?) then e.file == d.file else e.file == Sanctioned(d.log))
                  && e.slot == if d.slot.Some? || !ok then d.slot
                               else Some(Slot(External, AwaitingSkeptic, file, now, None, None, 0, 0, 0, None, None, None,
                                              if known then OpenEdit(d.log).value else |d.log|)))
  {
    TripwireEffect(r, d, now);
    assert d.log + [] == d.log;
  }

  // ---- the skeptic's verdict ----

  /** The offered proposal behind the rewrite under review. */
  function Offered(p: Slot, reason: Text): Slot
    requires p.fallback.Some?
  {
    var was := p.fallback.value;
    Slot(was.kind, AwaitingDoll, was.candidate, p.createdTs, was.rationale, None,
         p.counterRound, 0, 0, p.hwmBefore, Some(reason), None, was.born)
  }

  /** A killed rewrite: the proposal it rewrote is back on offer, with the reason. */
  lemma KilledCounter(c: Cfg, r: Rules, s: State, reason: Text, now: real, f: Fault)
    requires Inv(c, r, s) && s.trig.Judging? && s.trig.slot.kind.Counter? && Uncut(f, 2)
    ensures s.disk.slot == Some(s.trig.slot) && s.trig.slot.fallback.Some?
    ensures Next(c, r, s, JudgeEnd(Killed(reason), now, f))
            == s.(disk := Disk(s.disk.log + [Kill(s.trig.slot.candidate)], s.disk.file, Some(Offered(s.trig.slot, reason))), trig := Idle)
  {
    LineThenSlot(s.disk, Kill(s.trig.slot.candidate), Offered(s.trig.slot, reason));
    assert s.trace + [] == s.trace;
  }

  /** A killed outside edit is withdrawn. */
  lemma KilledEdit(c: Cfg, r: Rules, s: State, reason: Text, now: real, f: Fault)
    requires Inv(c, r, s) && s.trig.Judging? && !s.trig.slot.kind.Counter? && Uncut(f, WithdrawalWrites(s.disk))
    ensures var s2 := Next(c, r, s, JudgeEnd(Killed(reason), now, f));
            && Withdrawn(s.disk, s2.disk, Kill(s.trig.slot.candidate))
            && s2 == s.(disk := s2.disk, trig := Idle)
  {
    Withdraws(s.disk, Kill(s.trig.slot.candidate), JudgePlan(s.disk, s.trig.slot, s.trig.was, Killed(reason), now), f);
    assert s.trace + [] == s.trace;
  }

  /** A passed text is on offer, and nothing else changes. */
  lemma PassedSlot(c: Cfg, r: Rules, s: State, now: real, f: Fault)
    requires Inv(c, r, s) && s.trig.Judging? && Uncut(f, 1)
    ensures Next(c, r, s, JudgeEnd(Passed, now, f))
            == s.(disk := s.disk.(slot := Some(s.trig.slot.(status := AwaitingDoll))), trig := Idle,
                  trace := s.trace + [Judged(s.trig.slot.born)])
  {
    ExecSteps(s.disk, [PutSlot(s.trig.slot.(status := AwaitingDoll))]);
  }

  /** The first two errors are counted. */
  lemma FailedBelow(c: Cfg, r: Rules, s: State, now: real, f: Fault)
    requires Inv(c, r, s) && s.trig.Judging? && s.trig.slot.verdictErrors < 2 && Uncut(f, 2)
    ensures var p := s.trig.slot;
            Next(c, r, s, JudgeEnd(Failed, now, f))
            == s.(disk := Disk(s.disk.log + [Error], s.disk.file,
                               Some(p.(verdictErrors := p.verdictErrors + 1, lastErrorTs := Some(now)))),
                  trig := Idle)
  {
    var p := s.trig.slot;
    LineThenSlot(s.disk, Error, p.(verdictErrors := p.verdictErrors + 1, lastErrorTs := Some(now)));
    assert s.trace + [] == s.trace;
  }

  /** The third withdraws the text and gives its evidence back, on disk too. */
  lemma FailedOut(c: Cfg, r: Rules, s: State, now: real, f: Fault)
    requires Inv(c, r, s) && s.trig.Judging? && s.trig.slot.verdictErrors >= 2 && Uncut(f, WithdrawalWrites(s.disk))
    ensures var p := s.trig.slot; var s2 := Next(c, r, s, JudgeEnd(Failed, now, f));
            var m := s.mind.(hwm := p.hwmBefore.GetOr(s.mind.hwm));
            && Withdrawn(s.disk, s2.disk, Expire(p.candidate, p.hwmBefore))
            && s2 == s.(disk := s2.disk, trig := Idle, mind := m, saved := m)
  {
    Withdraws(s.disk, Expire(s.trig.slot.candidate, s.trig.slot.hwmBefore),
              JudgePlan(s.disk, s.trig.slot, s.trig.was, Failed, now), f);
    assert s.trace + [] == s.trace;
  }

  // ---- a rewrite and its verdict ----

  /** Under review is the rewrite of the proposal `p`. */
  predicate Rewrites(d: Disk, p: Slot) {
    && d.slot.Some? && d.slot.value.status.AwaitingSkeptic? && d.slot.value.kind.Counter?
    && d.slot.value.fallback == Some(Fallback(p.candidate, p.rationale, p.kind, p.born))
    && d.slot.value.createdTs == p.createdTs && d.slot.value.hwmBefore == p.hwmBefore
    && d.slot.value.counterRound == p.counterRound + 1
  }

  /** The step brings no verdict: it is none, or it errs below the bound. */
  predicate Undecided(s: State, l: Label)
    requires Enabled(s, l)
  {
    l.JudgeEnd? ==> l.verdict.Failed? && s.trig.slot.verdictErrors < 2
  }

  predicate AllUndecided(c: Cfg, r: Rules, s: State, ls: seq<Label>)
    requires Legal(c, r, s, ls)
    decreases |ls|
  {
    ls == [] || (Undecided(s, ls[0]) && AllUndecided(c, r, Next(c, r, s, ls[0]), ls[1..]))
  }

  /** Where a decision leaves something under review, it is the rewrite of what was
      on offer, and its line is there. */
  lemma RewriteUnderReview(c: Cfg, r: Rules, s: State, adopt: bool, text: Text, fileOk: bool, f: Fault)
    requires s.turn.Some? && s.disk.slot.Some? && s.disk.slot.value.status.AwaitingDoll?
    requires NextRevise(c, r, s, adopt, text, fileOk, f).disk.slot.Some?
    requires NextRevise(c, r, s, adopt, text, fileOk, f).disk.slot.value.status.AwaitingSkeptic?
    ensures var d := NextRevise(c, r, s, adopt, text, fileOk, f).disk;
            && Rewrites(d, s.disk.slot.value) && d.slot.value.candidate == r.strip(text)
            && d.log == s.disk.log + [CounterLine(r.strip(text), s.disk.slot.value.counterRound + 1)]
  {
    var v := ReviseCase(r, s.disk, s.turn.value.latched, s.turn.value.surfaced, adopt, text);
    var ws := RevisePlan(s.disk, v, fileOk);
    ReviseLeaves(s.disk, v, fileOk, Done(f, ws));
    ExecSteps(s.disk, ws);
  }

  lemma RewriteStays(c: Cfg, r: Rules, s: State, l: Label, p: Slot)
    requires Inv(c, r, s) && Enabled(s, l) && Undecided(s, l) && Rewrites(s.disk, p)
    ensures Rewrites(Next(c, r, s, l).disk, p)
  {
    if l.JudgeEnd? {
      JudgeLeavesOn(s, l.now, Done(l.fault, JudgePlan(s.disk, s.trig.slot, s.trig.was, Failed, l.now)));
    } else {
      SlotOwners(c, r, s, l);
    }
  }

  lemma JudgeLeavesOn(s: State, now: real, k: nat)
    requires s.trig.Judging? && s.disk.slot == Some(s.trig.slot) && s.trig.slot.verdictErrors < 2
    requires k <= |JudgePlan(s.disk, s.trig.slot, s.trig.was, Failed, now)|
    ensures var d := Exec(s.disk, JudgePlan(s.disk, s.trig.slot, s.trig.was, Failed, now), k);
            d.slot == s.disk.slot || d.slot == Some(Strike(s.trig.slot, now))
  {
    ExecSteps(s.disk, JudgePlan(s.disk, s.trig.slot, s.trig.was, Failed, now));
  }

  lemma {:induction false} RewriteStands(c: Cfg, r: Rules, s: State, ls: seq<Label>, p: Slot)
    requires Inv(c, r, s) && Legal(c, r, s, ls) && AllUndecided(c, r, s, ls) && Rewrites(s.disk, p)
    ensures Inv(c, r, After(c, r, s, ls)) && Rewrites(After(c, r, s, ls).disk, p)
    decreases |ls|
  {
    if ls != [] {
      StepKeepsInv(c, r, s, ls[0]);
      RewriteStays(c, r, s, ls[0], p);
      RewriteStands(c, r, Next(c, r, s, ls[0]), ls[1..], p);
    }
  }

  /** She rewrites the proposal `p`; whatever happens until the skeptic's verdict on
      the rewrite, crashes included: when it is a kill, `p` is back on offer, one
      round later, with the skeptic's reason. */
  lemma KilledRewriteComesBack(c: Cfg, r: Rules, s: State, text: Text, fileOk: bool, f: Fault,
                               ls: seq<Label>, reason: Text, now: real, g: Fault)
    requires Inv(c, r, s) && s.disk.slot.Some? && s.disk.slot.value.status.AwaitingDoll?
    requires Enabled(s, Revise(true, text, fileOk, f))
    requires var t := Next(c, r, s, Revise(true, text, fileOk, f));
             && t.disk.slot.Some? && t.disk.slot.value.status.AwaitingSkeptic?
             && Legal(c, r, t, ls) && AllUndecided(c, r, t, ls)
             && Enabled(After(c, r, t, ls), JudgeEnd(Killed(reason), now, g)) && Uncut(g, 2)
    ensures var p := s.disk.slot.value;
            var u := After(c, r, Next(c, r, s, Revise(true, text, fileOk, f)), ls);
            Next(c, r, u, JudgeEnd(Killed(reason), now, g)).disk.slot
            == Some(p.(counterRound := p.counterRound + 1, notice := Some(reason), fallback := None,
                       surfacedCount := 0, verdictErrors := 0, lastErrorTs := None))
  {
    var l := Revise(true, text, fileOk, f);
    StepKeepsInv(c, r, s, l);
    RewriteUnderReview(c, r, s, true, text, fileOk, f);
    KilledBehind(c, r, Next(c, r, s, l), ls, s.disk.slot.value, reason, now, g);
    OfferedAgain(s.disk.slot.value, After(c, r, Next(c, r, s, l), ls).disk, reason);
  }

  lemma KilledBehind(c: Cfg, r: Rules, t: State, ls: seq<Label>, p: Slot, reason: Text, now: real, g: Fault)
    requires Inv(c, r, t) && Rewrites(t.disk, p) && Legal(c, r, t, ls) && AllUndecided(c, r, t, ls)
    requires After(c, r, t, ls).trig.Judging? && Uncut(g, 2)
    ensures var u := After(c, r, t, ls);
            && Rewrites(u.disk, p)
            && Next(c, r, u, JudgeEnd(Killed(reason), now, g)).disk.slot == Some(Offered(u.disk.slot.value, reason))
  {
    RewriteStands(c, r, t, ls, p);
    KilledCounter(c, r, After(c, r, t, ls), reason, now, g);
  }

  lemma OfferedAgain(p: Slot, d: Disk, reason: Text)
    requires Rewrites(d, p) && p.status.AwaitingDoll?
    ensures Offered(d.slot.value, reason)
            == p.(counterRound := p.counterRound + 1, notice := Some(reason), fallback := None,
                  surfacedCount := 0, verdictErrors := 0, lastErrorTs := None)
  {
  }

  // ---- her decision ----

  /** She may decide: the proposal on offer was shown this turn, and nothing was
      decided in it. */
  predicate MayDecide(s: State) {
    && s.turn.Some? && s.turn.value.phase.Live? && s.turn.value.surfaced && !s.turn.value.latched
    && s.disk.slot.Some? && s.disk.slot.value.status.AwaitingDoll?
  }

  /** Behind a decision on a proposal that is not an outside edit the interval is `i`. */
  function Paced(s: State, i: real): Mind
    requires s.disk.slot.Some?
  {
    if s.disk.slot.value.kind.External? then s.mind else s.mind.(interval := i)
  }

  function Latched(s: State): Option<Turn>
    requires s.turn.Some?
  {
    Some(s.turn.value.(latched := true))
  }

  /** The interval doubled, up to the cap. */
  function Doubled(c: Cfg, i: real): real { if i + i <= c.cap then i + i else c.cap }

  lemma RejectPaces(c: Cfg, s: State)
    requires s.disk.slot.Some?
    ensures Decided(c, s.mind, s.disk.slot.value.kind, Rejects) == Paced(s, Doubled(c, s.mind.interval))
  {
  }

  lemma RejectCase(r: Rules, s: State, text: Text)
    requires MayDecide(s)
    ensures ReviseCase(r, s.disk, s.turn.value.latched, s.turn.value.surfaced, false, text) == Rejects
  {
  }

  /** Rejecting withdraws the proposal and doubles the interval. */
  lemma Rejected(c: Cfg, r: Rules, s: State, text: Text, fileOk: bool, f: Fault)
    requires MayDecide(s) && Uncut(f, WithdrawalWrites(s.disk))
    ensures var s2 := Next(c, r, s, Revise(false, text, fileOk, f));
            Withdrew(s, s2, Reject(s.disk.slot.value.candidate), Latched(s), Paced(s, Doubled(c, s.mind.interval)))
  {
    RejectedFrom(c, r, s, text, fileOk, f, RevisePlan(s.disk, Rejects, fileOk));
  }

  lemma RejectPlan(s: State, fileOk: bool)
    requires s.disk.slot.Some?
    ensures RevisePlan(s.disk, Rejects, fileOk)
            == [Append(Reject(s.disk.slot.value.candidate)), ClearSlot] + Restore(s.disk, Sanctioned(s.disk.log))
  {
  }

  lemma RejectedFrom(c: Cfg, r: Rules, s: State, text: Text, fileOk: bool, f: Fault, ws: seq<Write>)
    requires MayDecide(s) && ws == RevisePlan(s.disk, Rejects, fileOk) && Uncut(f, WithdrawalWrites(s.disk))
    ensures var s2 := NextRevise(c, r, s, false, text, fileOk, f);
            Withdrew(s, s2, Reject(s.disk.slot.value.candidate), Latched(s), Paced(s, Doubled(c, s.mind.interval)))
  {
    RejectCase(r, s, text);
    RejectPlan(s, fileOk);
    Withdraws(s.disk, Reject(s.disk.slot.value.candidate), ws, f);
    RejectStep(c, r, s, text, fileOk, f, ws);
    RejectPaces(c, s);
    WithdrewBy(s, NextRevise(c, r, s, false, text, fileOk, f), ws, Reject(s.disk.slot.value.candidate), Latched(s),
               Decided(c, s.mind, s.disk.slot.value.kind, Rejects));
  }

  lemma RejectStep(c: Cfg, r: Rules, s: State, text: Text, fileOk: bool, f: Fault, ws: seq<Write>)
    requires MayDecide(s) && ws == RevisePlan(s.disk, Rejects, fileOk) && Completes(f, ws) && Done(f, ws) == |ws|
    requires ReviseCase(r, s.disk, s.turn.value.latched, s.turn.value.surfaced, false, text) == Rejects
    ensures NextRevise(c, r, s, false, text, fileOk, f)
            == s.(disk := Exec(s.disk, ws, |ws|), turn := Latched(s), mind := Decided(c, s.mind, s.disk.slot.value.kind, Rejects))
  {
    assert s.trace + ([] + []) == s.trace;
  }

  /** She adopts the proposal itself: her text is empty or an echo of it. */
  predicate SameText(r: Rules, s: State, text: Text)
    requires s.disk.slot.Some?
  {
    r.strip(text) == "" || Echo(r, r.strip(text), s.disk.slot.value.candidate)
  }

  predicate EchoesSelf(r: Rules, s: State, t: Text) { Sanctioned(s.disk.log).Some? && Echo(r, t, Sanctioned(s.disk.log).value) }

  /** Adopting: the line with the text it replaces, the file unless it could not be
      written twice, no slot, and the base interval. */
  lemma Adopted(c: Cfg, r: Rules, s: State, text: Text, fileOk: bool, f: Fault)
    requires MayDecide(s) && SameText(r, s, text) && !EchoesSelf(r, s, s.disk.slot.value.candidate) && Uncut(f, 3)
    ensures var p := s.disk.slot.value;
            var line := Adopt(p.candidate, Sanctioned(s.disk.log), p.born);
            Next(c, r, s, Revise(true, text, fileOk, f))
            == s.(disk := if fileOk then Disk(s.disk.log + [line], Some(p.candidate), None)
                          else Disk(s.disk.log + [line, Error], s.disk.file, None),
                  turn := Latched(s), mind := Paced(s, c.base),
                  trace := s.trace + [Took(|s.disk.log|, s.turn.value.no)])
  {
    var p := s.disk.slot.value;
    var line := Adopt(p.candidate, Sanctioned(s.disk.log), p.born);
    ExecSteps(s.disk, RevisePlan(s.disk, Adopts, fileOk));
    assert s.disk.log + [line] + [Error] == s.disk.log + [line, Error];
    assert [Took(|s.disk.log|, s.turn.value.no)] + [] == [Took(|s.disk.log|, s.turn.value.no)];
  }

  /** What a rewrite must be. */
  predicate NewText(r: Rules, s: State, text: Text)
    requires s.disk.slot.Some?
  {
    && !SameText(r, s, text) && !EchoesSelf(r, s, r.strip(text))
    && s.disk.slot.value.counterRound < COUNTER_ROUND_CAP && Mechanical(r, r.strip(text))
  }

  /** Rewriting: the line, and the rewrite under review with the proposal behind it. */
  lemma Countered(c: Cfg, r: Rules, s: State, text: Text, fileOk: bool, f: Fault)
    requires MayDecide(s) && NewText(r, s, text) && Uncut(f, 2)
    ensures var p := s.disk.slot.value; var t := r.strip(text);
            Next(c, r, s, Revise(true, text, fileOk, f))
            == s.(disk := Disk(s.disk.log + [CounterLine(t, p.counterRound + 1)], s.disk.file,
                               Some(Slot(Counter, AwaitingSkeptic, t, p.createdTs, None,
                                         Some(Fallback(p.candidate, p.rationale, p.kind, p.born)),
                                         p.counterRound + 1, 0, 0, p.hwmBefore, None, None, |s.disk.log|))),
                  turn := Latched(s))
  {
    var p := s.disk.slot.value;
    ExecSteps(s.disk, RevisePlan(s.disk, Counters(r.strip(text)), fileOk));
    assert s.trace + ([] + []) == s.trace;
  }

  /** Anything else is refused: nothing changes, and she may decide again. */
  lemma Refused(c: Cfg, r: Rules, s: State, adopt: bool, text: Text, fileOk: bool, f: Fault)
    requires Enabled(s, Revise(adopt, text, fileOk, f)) && !f.Crashes?
    requires MayDecide(s) ==> adopt && !NewText(r, s, text) && (SameText(r, s, text) ==> EchoesSelf(r, s, s.disk.slot.value.candidate))
    ensures Next(c, r, s, Revise(adopt, text, fileOk, f)) == s
  {
    assert s.trace + ([] + []) == s.trace;
  }

  // ---- showing her the proposal ----

  /** The turn with or without a proposal shown. */
  function Live2(s: State, shown: bool): Option<Turn>
    requires s.turn.Some?
  {
    Some(s.turn.value.(phase := Live, surfaced := shown))
  }

  /** What is on offer and not in force yet. */
  predicate OnOffer(d: Disk) {
    d.slot.Some? && d.slot.value.status.AwaitingDoll? && Sanctioned(d.log) != Some(d.slot.value.candidate)
  }

  /** It was shown often enough and is old enough, in days. */
  predicate Overdue(c: Cfg, p: Slot, now: real) {
    p.surfacedCount >= c.maxSurfacings && now - p.createdTs >= 86400.0 * c.minAgeDays
  }

  /** Without a proposal, and while one is under review, nothing is shown. */
  lemma NothingToShow(c: Cfg, r: Rules, s: State, now: real, f: Fault)
    requires Enabled(s, RunSurface(now, f)) && Uncut(f, 0) && (s.disk.slot.Some? ==> s.disk.slot.value.status.AwaitingSkeptic?)
    ensures Next(c, r, s, RunSurface(now, f)) == s.(turn := Live2(s, false))
  {
  }

  /** A proposal that is in force already is retired. */
  lemma Retired(c: Cfg, r: Rules, s: State, now: real, f: Fault)
    requires Enabled(s, RunSurface(now, f)) && Uncut(f, 2)
    requires s.disk.slot.Some? && s.disk.slot.value.status.AwaitingDoll? && !OnOffer(s.disk)
    ensures Next(c, r, s, RunSurface(now, f))
            == s.(disk := Disk(s.disk.log + [Repair], s.disk.file, None), turn := Live2(s, false))
  {
    ExecSteps(s.disk, SurfacePlan(c, s.disk, now));
  }

  lemma ExpireCase(c: Cfg, s: State, now: real)
    requires OnOffer(s.disk)
    ensures SurfaceCase(c, s.disk, now) == if Overdue(c, s.disk.slot.value, now) then Expires else Shows
  {
  }

  /** One that is overdue is withdrawn and gives its evidence back. */
  lemma Expired(c: Cfg, r: Rules, s: State, now: real, f: Fault)
    requires Enabled(s, RunSurface(now, f)) && Uncut(f, WithdrawalWrites(s.disk))
    requires OnOffer(s.disk) && Overdue(c, s.disk.slot.value, now)
    ensures var s2 := Next(c, r, s, RunSurface(now, f)); var p := s.disk.slot.value;
            Withdrew(s, s2, Expire(p.candidate, p.hwmBefore), Live2(s, false), s.mind.(hwm := p.hwmBefore.GetOr(s.mind.hwm)))
  {
    var p, ws := s.disk.slot.value, SurfacePlan(c, s.disk, now);
    ExpireCase(c, s, now);
    ExpirePlan(c, s, now);
    Withdraws(s.disk, Expire(p.candidate, p.hwmBefore), ws, f);
    ExpireStep(c, s, now, f, ws);
    WithdrewBy(s, NextSurface(c, s, now, f), ws, Expire(p.candidate, p.hwmBefore), Live2(s, false),
               s.mind.(hwm := p.hwmBefore.GetOr(s.mind.hwm)));
  }

  lemma ExpireStep(c: Cfg, s: State, now: real, f: Fault, ws: seq<Write>)
    requires s.turn.Some? && SurfaceCase(c, s.disk, now).Expires? && ws == SurfacePlan(c, s.disk, now)
    requires Completes(f, ws) && Done(f, ws) == |ws|
    ensures NextSurface(c, s, now, f)
            == s.(disk := Exec(s.disk, ws, |ws|), turn := Live2(s, false),
                  mind := s.mind.(hwm := s.disk.slot.value.hwmBefore.GetOr(s.mind.hwm)))
  {
  }

  lemma ExpirePlan(c: Cfg, s: State, now: real)
    requires SurfaceCase(c, s.disk, now).Expires?
    ensures SurfacePlan(c, s.disk, now)
            == [Append(Expire(s.disk.slot.value.candidate, s.disk.slot.value.hwmBefore)), ClearSlot]
               + Restore(s.disk, Sanctioned(s.disk.log))
  {
  }

  /** Any other is shown, once more and without its notice. */
  lemma ShownAgain(c: Cfg, r: Rules, s: State, now: real, f: Fault)
    requires Enabled(s, RunSurface(now, f)) && Uncut(f, 1)
    requires OnOffer(s.disk) && !Overdue(c, s.disk.slot.value, now)
    ensures var p := s.disk.slot.value;
            Next(c, r, s, RunSurface(now, f))
            == s.(disk := s.disk.(slot := Some(p.(surfacedCount := p.surfacedCount + 1, notice := None))),
                  turn := Live2(s, true), trace := s.trace + [Shown(p.born, s.turn.value.no)])
  {
    ExpireCase(c, s, now);
    ExecSteps(s.disk, SurfacePlan(c, s.disk, now));
  }

  // ---- the keeper's pass ----

  /** A pass and its booking, with nothing in between. */
  function PassBooked(c: Cfg, r: Rules, s: State, a: Report, b: Report, v: Verdict, now: real): State
    requires s.trig.Keeping?
  {
    var t := Next(c, r, s, KeepEnd(a, b, v, now, Clean));
    assert Completes(Clean, KeepPlan(s.disk, PassResult(r, a, b, v), s.trig.hwm, now));
    Next(c, r, t, KeepBook)
  }

  /** The mark where the pass began; the interval doubled up to the cap. */
  function Consumed(c: Cfg, s: State, slower: bool): Mind
    requires s.trig.Keeping?
  {
    Mind(s.trig.off, if slower then Doubled(c, s.mind.interval) else s.mind.interval)
  }

  /** A text that passes the checks and restates nothing is the skeptic's to judge:
      passed it is on offer, unless a slot was born meanwhile; killed it is logged and
      the interval grows; an error is no attempt. */
  lemma ReviewedPass(c: Cfg, r: Rules, s: State, t: Text, why: Option<Text>, b: Report, v: Verdict, now: real)
    requires Inv(c, r, s) && s.trig.Keeping? && Mechanical(r, t) && !r.restates(t)
    ensures var s2 := PassBooked(c, r, s, Proposes(t, why), b, v, now); var d := s.disk;
            && s2.trig.Idle? && s2.saved == s2.mind
            && match v
               case Failed => s2.disk == d.(log := d.log + [Error]) && s2.mind == s.mind
               case Killed(_) => s2.disk == d.(log := d.log + [Kill(t)]) && s2.mind == Consumed(c, s, true)
               case Passed =>
                 if d.slot.Some? then s2.disk == d.(log := d.log + [Kill(t)]) && s2.mind == Consumed(c, s, true)
                 else && s2.disk == Disk(d.log + [Candidate(t)], d.file,
                                         Some(Slot(Keeper, AwaitingDoll, t, now, why, None, 0, 0, 0, Some(s.trig.hwm), None, None, |d.log|)))
                      && s2.mind == Consumed(c, s, false)
  {
    ExecSteps(s.disk, KeepPlan(s.disk, PassResult(r, Proposes(t, why), b, v), s.trig.hwm, now));
  }

  /** A text that restates is given back once: what comes second is judged, and is
      killed when it fails the checks or restates again. */
  lemma RestatedPass(c: Cfg, r: Rules, s: State, t: Text, why: Option<Text>, b: Report, v: Verdict, now: real)
    requires Inv(c, r, s) && s.trig.Keeping? && Mechanical(r, t) && r.restates(t)
    ensures var s2 := PassBooked(c, r, s, Proposes(t, why), b, v, now); var d := s.disk;
            match b
            case Broken => s2.disk == d.(log := d.log + [Kill(t)]) && s2.mind == Consumed(c, s, true)
            case Unchanged => s2.disk == d.(log := d.log + [NoChange]) && s2.mind == Consumed(c, s, true)
            case Proposes(u, why2) =>
              if Mechanical(r, u) && !r.restates(u) then s2 == PassBooked(c, r, s, b, b, v, now)
              else s2.disk == d.(log := d.log + [Kill(u)]) && s2.mind == Consumed(c, s, true)
  {
    ExecSteps(s.disk, KeepPlan(s.disk, PassResult(r, Proposes(t, why), b, v), s.trig.hwm, now));
  }

  /** The other passes: a report that does not parse, none, and a text that fails the
      checks. */
  lemma OtherPass(c: Cfg, r: Rules, s: State, a: Report, b: Report, v: Verdict, now: real)
    requires Inv(c, r, s) && s.trig.Keeping? && (a.Proposes? ==> !Mechanical(r, a.text))
    ensures var s2 := PassBooked(c, r, s, a, b, v, now); var d := s.disk;
            match a
            case Broken => s2.disk == d.(log := d.log + [Error]) && s2.mind == s.mind
            case Unchanged => s2.disk == d.(log := d.log + [NoChange]) && s2.mind == Consumed(c, s, true)
            case Proposes(t, _) => s2.disk == d.(log := d.log + [Kill(t)]) && s2.mind == Consumed(c, s, true)
  {
    ExecSteps(s.disk, KeepPlan(s.disk, PassResult(r, a, b, v), s.trig.hwm, now));
  }
}
