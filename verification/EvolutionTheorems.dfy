/** The promises of the self-revision protocol, over every run from a fresh
    install, every schedule, every crash and every I/O error. */
module EvolutionTheorems {
  import opened Wrappers
  import opened EvolutionModel
  import opened EvolutionMachine
  import opened EvolutionProofs
  import EvolutionShown

  lemma Reachable(c: Cfg, r: Rules, ls: seq<Label>)
    requires Legal(c, r, InitState(c), ls)
    ensures Inv(c, r, After(c, r, InitState(c), ls))
  {
    RunKeepsInv(c, r, InitState(c), ls);
  }

  // ---- who may become her self ----

  /** Position `t` of the trace is the ratification of adopt line `i`: before it a
      skeptic passed the announced text, and the adopting turn showed it, unless a
      reject of that turn had failed half-way before: then it never did. */
  predicate Ratified(log: seq<Event>, trace: seq<Mark>, i: nat, t: nat)
    requires i < |log| && log[i].Adopt?
  {
    && t < |trace| && trace[t].Took? && trace[t].at == i
    && Judged(log[i].born) in trace[..t]
    && (Shown(log[i].born, trace[t].no) in trace[..t] <==> Stray(trace[t].no) !in trace[..t])
  }

  lemma ReachablyShown(c: Cfg, r: Rules, ls: seq<Label>)
    requires Legal(c, r, InitState(c), ls)
    ensures EvolutionShown.ShownInv(After(c, r, InitState(c), ls))
  {
    EvolutionShown.RunKeepsShown(c, r, InitState(c), ls);
  }

  /** Every adopted text was announced by an earlier line, passed the mechanical
      checks and a skeptic, replaces exactly the text in force, and is no echo of it;
      no announcement is ever adopted twice; and it was shown in the adopting turn
      exactly when no reject of that turn had failed half-way. */
  lemma OnlyRatifiedText(c: Cfg, r: Rules, ls: seq<Label>)
    requires Legal(c, r, InitState(c), ls)
    ensures var s := After(c, r, InitState(c), ls); var log := s.disk.log;
            forall i: nat | i < |log| && log[i].Adopt? ::
              && log[i].born < i && BirthLine(log[log[i].born], log[i].text) && Mechanical(r, log[i].text)
              && log[i].oldText == Sanctioned(log[..i])
              && (log[i].oldText.Some? ==> !Echo(r, log[i].text, log[i].oldText.value))
              && (exists t: nat :: Ratified(log, s.trace, i, t))
              && (forall t: nat, no: nat | t < |s.trace| && s.trace[t] == Took(i, no) :: Ratified(log, s.trace, i, t))
              && (forall j: nat | j < |log| && log[j].Adopt? && j != i :: log[j].born != log[i].born)
  {
    Reachable(c, r, ls);
    ReachablyShown(c, r, ls);
    var s := After(c, r, InitState(c), ls);
    var log := s.disk.log;
    forall i: nat | i < |log| && log[i].Adopt?
      ensures && log[i].born < i && BirthLine(log[log[i].born], log[i].text) && Mechanical(r, log[i].text)
              && log[i].oldText == Sanctioned(log[..i])
              && (log[i].oldText.Some? ==> !Echo(r, log[i].text, log[i].oldText.value))
      ensures exists t: nat :: Ratified(log, s.trace, i, t)
      ensures forall t: nat, no: nat | t < |s.trace| && s.trace[t] == Took(i, no) :: Ratified(log, s.trace, i, t)
      ensures forall j: nat | j < |log| && log[j].Adopt? && j != i :: log[j].born != log[i].born
    {
      assert GoodAdopt(r, log, i);
      assert Recorded(s.trace, i);
      forall t: nat, no: nat | t < |s.trace| && s.trace[t] == Took(i, no) ensures Ratified(log, s.trace, i, t) {
        assert GoodTook(log, s.trace, t);
        assert EvolutionShown.TookExact(log, s.trace, t);
      }
      var no :| Took(i, no) in s.trace;
      var t: nat :| t < |s.trace| && s.trace[t] == Took(i, no);
      assert Ratified(log, s.trace, i, t);
      forall j: nat | j < |log| && log[j].Adopt? && log[j].born == log[i].born ensures j == i {
        assert AdoptOf(log, i, log[i].born) && AdoptOf(log, j, log[i].born);
      }
    }
  }

  /** The text on offer always has its line in the log; a counter under review
      always has the proposal to fall back to, with its own line. */
  lemma PendingIsAnnounced(c: Cfg, r: Rules, ls: seq<Label>)
    requires Legal(c, r, InitState(c), ls)
    requires After(c, r, InitState(c), ls).disk.slot.Some?
    ensures var d := After(c, r, InitState(c), ls).disk; var s := d.slot.value;
            && Born(r, d.log, s.born, s.candidate)
            && s.counterRound <= COUNTER_ROUND_CAP
            && (s.status.AwaitingSkeptic? && s.kind.Counter? ==> s.fallback.Some?)
            && (s.fallback.Some? ==> Born(r, d.log, s.fallback.value.born, s.fallback.value.candidate))
  {
    Reachable(c, r, ls);
  }

  // ---- no lost update ----

  /** What the verdict read before it waited for the skeptic still holds when it
      writes back. */
  lemma NoStaleVerdict(c: Cfg, r: Rules, ls: seq<Label>)
    requires Legal(c, r, InitState(c), ls)
    requires After(c, r, InitState(c), ls).trig.Judging?
    ensures var s := After(c, r, InitState(c), ls);
            && s.disk.slot == Some(s.trig.slot)
            && s.trig.slot.status == AwaitingSkeptic
            && Sanctioned(s.disk.log) == s.trig.was
  {
    Reachable(c, r, ls);
  }

  /** A slot under review is written only by the verdict, a slot on offer only by
      the turn; nothing else, a keeper pass included, touches a pending slot. */
  lemma SlotOwners(c: Cfg, r: Rules, s: State, l: Label)
    requires Inv(c, r, s) && Enabled(s, l) && s.disk.slot.Some?
    ensures Next(c, r, s, l).disk.slot != s.disk.slot ==>
              if s.disk.slot.value.status.AwaitingSkeptic? then l.JudgeEnd? else l.RunSurface? || l.Revise?
  {
    match l
    case RunTripwire(now, f) =>
      var ws := TripwirePlan(r, s.disk, now);
      TripwireQuiet(r, s.disk, s.trace, s.mind, now, Done(f, ws));
    case KeepEnd(a, b, v, now, f) =>
      ExecSteps(s.disk, KeepPlan(s.disk, PassResult(r, a, b, v), s.trig.hwm, now));
    case _ =>
  }

  // ---- recovery ----

  function Restored(d: Disk): Option<Text> {
    if ReadFile(d) == Sanctioned(d.log).GetOr("") then d.file else Sanctioned(d.log)
  }

  /** What a tripwire run to its end does, branch by branch. */
  lemma TripwireEffect(r: Rules, d: Disk, now: real)
    ensures var e := Tripwire(r, d, now); var file := ReadFile(d); var ok := Mechanical(r, file);
            match Diverges(d)
            case InSync => e == d
            case CrashRepair => e == Disk(d.log + [Repair], Restored(d), d.slot)
            case AlreadyLogged =>
              if d.slot.Some? then e == d
              else if !ok then e == d.(file := Restored(d))
              else e == d.(slot := Some(ExternalSlot(file, now, OpenEdit(d.log).value)))
            case NewEdit =>
              if !ok then e == Disk(d.log + [ExternalEdit(None)], Restored(d), d.slot)
              else e == Disk(d.log + [ExternalEdit(Some(file))], d.file,
                             if d.slot.Some? then d.slot else Some(ExternalSlot(file, now, |d.log|)))
  {
    ExecSteps(d, TripwirePlan(r, d, now));
  }

  /** How one more line changes what the readers see. */
  lemma ReadersAppend(log: seq<Event>, e: Event)
    ensures var l := log + [e];
            && LastAdopt(l) == (if e.Adopt? then |log| else LastAdopt(log))
            && Sanctioned(l) == (if e.Adopt? then Some(e.text) else Sanctioned(log))
            && AdoptOld(l) == (if e.Adopt? then e.oldText else AdoptOld(log))
            && OpenEdit(l) == (if EditLine(e) then Some(|log|) else if Terminal(e) then None else OpenEdit(log))
            && OpenEditText(l) == (if EditLine(e) then e.edit else if Terminal(e) then None else OpenEditText(log))
  {
    assert (log + [e])[..|log|] == log;
  }

  /** The lines a tripwire may write leave the text in force alone; only a logged
      edit changes which edit is open. */
  lemma TripwireReaders(r: Rules, d: Disk, now: real)
    ensures var e := Tripwire(r, d, now);
            && Sanctioned(e.log) == Sanctioned(d.log) && AdoptOld(e.log) == AdoptOld(d.log)
            && OpenEditText(e.log) == (if Diverges(d).NewEdit? && Mechanical(r, ReadFile(d)) then Some(ReadFile(d))
                                       else OpenEditText(d.log))
  {
    TripwireEffect(r, d, now);
    ReadersAppend(d.log, Repair);
    ReadersAppend(d.log, ExternalEdit(None));
    ReadersAppend(d.log, ExternalEdit(Some(ReadFile(d))));
  }

  /** One tripwire run to its end leaves the file in force, or a proposal pending. */
  lemma TripwireSettles(r: Rules, d: Disk, now: real)
    ensures var e := Tripwire(r, d, now);
            && Sanctioned(e.log) == Sanctioned(d.log)
            && (ReadFile(e) == Sanctioned(e.log).GetOr("") || e.slot.Some?)
            && (d.slot.Some? ==> e.slot == d.slot)
            && (e.slot.Some? && d.slot.None? ==> e.slot.value.candidate == ReadFile(d) == ReadFile(e)
                                                 && Mechanical(r, ReadFile(d)))
  {
    TripwireEffect(r, d, now);
    TripwireReaders(r, d, now);
  }

  /** Running it again writes nothing: an edit is reported once, not every turn. */
  lemma TripwireIdempotent(r: Rules, d: Disk, now: real, later: real)
    ensures TripwirePlan(r, Tripwire(r, d, now), later) == []
  {
    DivergesAfter(r, d, now);
  }

  lemma RestoredInSync(d: Disk, e: Disk)
    requires e.file == Restored(d) && Sanctioned(e.log) == Sanctioned(d.log)
    ensures Diverges(e).InSync?
  {
  }

  /** What the tripwire leaves: nothing to do, or a logged edit with a slot pending. */
  lemma DivergesAfter(r: Rules, d: Disk, now: real)
    ensures var e := Tripwire(r, d, now);
            Diverges(e).InSync? || (Diverges(e).AlreadyLogged? && e.slot.Some?)
  {
    var e := Tripwire(r, d, now);
    TripwireEffect(r, d, now);
    TripwireReaders(r, d, now);
    if Diverges(d).CrashRepair? || (!Diverges(d).InSync? && !Mechanical(r, ReadFile(d)) && e.file == Restored(d)) {
      RestoredInSync(d, e);
    } else {
      assert ReadFile(e) == ReadFile(d);
      assert Diverges(e) == Classify(ReadFile(d), Sanctioned(d.log), AdoptOld(d.log), OpenEditText(e.log));
    }
  }

  /** Cutting it short at any write and running it again ends with the same file,
      the same slot and the same text in force as never having been cut. */
  lemma TripwireCrashTransparent(r: Rules, d: Disk, now: real, k: nat)
    requires k <= |TripwirePlan(r, d, now)|
    ensures var cut := Tripwire(r, Exec(d, TripwirePlan(r, d, now), k), now);
            var whole := Tripwire(r, d, now);
            && cut.file == whole.file && cut.slot == whole.slot
            && Sanctioned(cut.log) == Sanctioned(whole.log)
  {
    var ws := TripwirePlan(r, d, now);
    if k == |ws| {
      WholeAgain(r, d, now);
    } else if k == 1 {
      FirstWrite(r, d, now);
      CutAfterLine(r, d, now, ws[0].e);
    }
  }

  lemma FirstWrite(r: Rules, d: Disk, now: real)
    requires |TripwirePlan(r, d, now)| == 2
    ensures var ws := TripwirePlan(r, d, now);
            ws[0].Append? && Exec(d, ws, 1) == d.(log := d.log + [ws[0].e])
  {
    var ws := TripwirePlan(r, d, now);
    assert Exec(d, ws, 1) == Apply(Exec(d, ws, 0), ws[0]);
    PlanOfTwo(r, d, now);
  }

  /** A tripwire that makes two writes begins with a line. */
  lemma PlanOfTwo(r: Rules, d: Disk, now: real)
    requires |TripwirePlan(r, d, now)| == 2
    ensures TripwirePlan(r, d, now)[0].Append?
  {
  }

  lemma WholeAgain(r: Rules, d: Disk, now: real)
    ensures Tripwire(r, Tripwire(r, d, now), now) == Tripwire(r, d, now)
  {
    TripwireIdempotent(r, d, now, now);
  }

  lemma CutAfterLine(r: Rules, d: Disk, now: real, e: Event)
    requires |TripwirePlan(r, d, now)| == 2 && TripwirePlan(r, d, now)[0] == Append(e)
    ensures var cut := Tripwire(r, d.(log := d.log + [e]), now);
            var whole := Tripwire(r, d, now);
            && cut.file == whole.file && cut.slot == whole.slot
            && Sanctioned(cut.log) == Sanctioned(whole.log)
  {
    var half := d.(log := d.log + [e]);
    ReadersAppend(d.log, e);
    TripwireReaders(r, d, now);
    TripwireReaders(r, half, now);
    HalfEffect(r, d, now, e);
    TripwireEffect(r, d, now);
  }

  lemma HalfEffect(r: Rules, d: Disk, now: real, e: Event)
    requires |TripwirePlan(r, d, now)| == 2 && TripwirePlan(r, d, now)[0] == Append(e)
    ensures var cut := Tripwire(r, d.(log := d.log + [e]), now);
            if EditLine(e) then cut.file == d.file && cut.slot == Some(ExternalSlot(ReadFile(d), now, |d.log|))
            else cut.file == Restored(d) && cut.slot == d.slot
  {
    var half := d.(log := d.log + [e]);
    ReadersAppend(d.log, e);
    TripwireEffect(r, half, now);
    if EditLine(e) {
      assert Diverges(half) == AlreadyLogged;
    } else {
      assert Diverges(half) == Diverges(d);
    }
  }

  /** The next reflection turn after an adoption that a crash cut off behind its
      `k`-th write: tripwire, then surfacing. */
  function NextReflection(c: Cfg, r: Rules, d: Disk, fileOk: bool, k: nat, now: real): Disk
    requires d.slot.Some? && k <= 3
  {
    var t := Tripwire(r, Exec(d, RevisePlan(d, Adopts, fileOk), k), now);
    var ws := SurfacePlan(c, t, now);
    Exec(t, ws, |ws|)
  }

  /** It always retires the adopted slot. It also brings the file to the adopted
      text, unless the crash hit before the file was written and the file held a
      further edit that passes the checks: that one is then proposed, not undone. */
  lemma AdoptCrashHeals(c: Cfg, r: Rules, d: Disk, k: nat, now: real)
    requires d.slot.Some? && d.slot.value.status == AwaitingDoll && 1 <= k <= 2
    ensures var e := NextReflection(c, r, d, true, k, now); var file := ReadFile(d); var text := d.slot.value.candidate;
            && e.slot.None? && Sanctioned(e.log) == Some(text)
            && (ReadFile(e) == text <==>
                  k == 2 || file == text || file == Sanctioned(d.log).GetOr("") || !Mechanical(r, file))
            && (ReadFile(e) != text ==>
                  Tripwire(r, e, now).slot == Some(ExternalSlot(file, now, |d.log| + 1)))
  {
    var line := Adopt(d.slot.value.candidate, Sanctioned(d.log), d.slot.value.born);
    var a := d.(log := d.log + [line]);
    ExecSteps(d, RevisePlan(d, Adopts, true));
    ReadersAppend(d.log, line);
    if k == 1 {
      HealsFromLine(c, r, d, a, now);
    } else {
      HealsFromFile(c, r, a.(file := Some(d.slot.value.candidate)), now);
    }
  }

  function Reflection(c: Cfg, r: Rules, a: Disk, now: real): Disk {
    var t := Tripwire(r, a, now);
    var ws := SurfacePlan(c, t, now);
    Exec(t, ws, |ws|)
  }

  /** Cut behind the file: only the slot is left to retire. */
  lemma HealsFromFile(c: Cfg, r: Rules, a: Disk, now: real)
    requires a.slot.Some? && a.slot.value.status == AwaitingDoll && Sanctioned(a.log) == a.file == Some(a.slot.value.candidate)
    ensures var e := Reflection(c, r, a, now);
            e.slot.None? && Sanctioned(e.log) == Some(a.slot.value.candidate) && ReadFile(e) == a.slot.value.candidate
  {
    TripwireEffect(r, a, now);
    RetireEffect(c, a, now);
  }

  /** Cut behind the adopt line: the file is still the old one. */
  lemma HealsFromLine(c: Cfg, r: Rules, d: Disk, a: Disk, now: real)
    requires d.slot.Some? && d.slot.value.status == AwaitingDoll
    requires a == d.(log := d.log + [Adopt(d.slot.value.candidate, Sanctioned(d.log), d.slot.value.born)])
    ensures var e := Reflection(c, r, a, now); var file := ReadFile(d); var text := d.slot.value.candidate;
            && e.slot.None? && Sanctioned(e.log) == Some(text)
            && (ReadFile(e) == text <==> file == text || file == Sanctioned(d.log).GetOr("") || !Mechanical(r, file))
            && (ReadFile(e) != text ==> Tripwire(r, e, now).slot == Some(ExternalSlot(file, now, |d.log| + 1)))
  {
    var line := a.log[|d.log|];
    ReadersAppend(d.log, line);
    AdoptedDiverges(r, d, a);
    TripwireReaders(r, a, now);
    TripwireEffect(r, a, now);
    RetireEffect(c, Tripwire(r, a, now), now);
    if Diverges(a).NewEdit? && Mechanical(r, ReadFile(d)) { EditSurvives(c, r, a, now); }
  }

  /** How the old file looks behind the adopt line: in step, a crash to repair, or a
      further edit; never one already logged, since the line closes them. */
  lemma AdoptedDiverges(r: Rules, d: Disk, a: Disk)
    requires d.slot.Some? && a == d.(log := d.log + [Adopt(d.slot.value.candidate, Sanctioned(d.log), d.slot.value.born)])
    ensures Sanctioned(a.log) == Some(d.slot.value.candidate) && OpenEditText(a.log).None?
    ensures Diverges(a) == if ReadFile(d) == d.slot.value.candidate then InSync
                           else if ReadFile(d) == Sanctioned(d.log).GetOr("") then CrashRepair
                           else NewEdit
  {
    ReadersAppend(d.log, a.log[|d.log|]);
  }

  /** A further edit that passes the checks is logged, outlives the retired slot, and
      is proposed by the next tripwire. */
  lemma EditSurvives(c: Cfg, r: Rules, a: Disk, now: real)
    requires Diverges(a).NewEdit? && Mechanical(r, ReadFile(a)) && a.slot.Some? && a.slot.value.status == AwaitingDoll
    requires Sanctioned(a.log) == Some(a.slot.value.candidate)
    ensures var e := Reflection(c, r, a, now);
            ReadFile(e) == ReadFile(a) && Tripwire(r, e, now).slot == Some(ExternalSlot(ReadFile(a), now, |a.log|))
  {
    var t := Disk(a.log + [ExternalEdit(Some(ReadFile(a)))], a.file, a.slot);
    var e := Disk(t.log + [Repair], a.file, None);
    TripwireEffect(r, a, now);
    LoggedAndRetired(a.log, ReadFile(a));
    RetireEffect(c, t, now);
    ProposedAgain(r, a, e, now);
  }

  /** The edit's line is still open behind the repair's. */
  lemma LoggedAndRetired(log: seq<Event>, file: Text)
    ensures var l := log + [ExternalEdit(Some(file))]; var l2 := l + [Repair];
            && Sanctioned(l) == Sanctioned(l2) == Sanctioned(log) && AdoptOld(l2) == AdoptOld(log)
            && OpenEdit(l2) == Some(|log|) && OpenEditText(l2) == Some(file)
  {
    var edit := ExternalEdit(Some(file));
    ReadersAppend(log, edit);
    ReadersAppend(log + [edit], Repair);
  }

  lemma ProposedAgain(r: Rules, a: Disk, e: Disk, now: real)
    requires Diverges(a).NewEdit? && Mechanical(r, ReadFile(a)) && e.file == a.file && e.slot.None?
    requires Sanctioned(e.log) == Sanctioned(a.log) && AdoptOld(e.log) == AdoptOld(a.log)
    requires OpenEdit(e.log) == Some(|a.log|) && OpenEditText(e.log) == Some(ReadFile(a))
    ensures Tripwire(r, e, now).slot == Some(ExternalSlot(ReadFile(a), now, |a.log|))
  {
    assert Diverges(e).AlreadyLogged?;
    TripwireEffect(r, e, now);
  }

  lemma RetireEffect(c: Cfg, d: Disk, now: real)
    requires SurfaceCase(c, d, now).Retires?
    ensures var ws := SurfacePlan(c, d, now);
            Exec(d, ws, |ws|) == Disk(d.log + [Repair], d.file, None) && Sanctioned(d.log + [Repair]) == Sanctioned(d.log)
  {
    ExecSteps(d, SurfacePlan(c, d, now));
    ReadersAppend(d.log, Repair);
  }

  // ---- a proposal's life is bounded ----

  function Shows0(c: Cfg): nat { if c.maxSurfacings < 0 then 0 else c.maxSurfacings }

  /** Verdicts and surfacings one round may take. */
  function Width(c: Cfg): nat { VERDICT_ERRORS_BOUND + Shows0(c) + 1 }

  /** The later rounds' verdicts and surfacings. */
  function Rounds(c: Cfg, round: nat): nat {
    (if round >= COUNTER_ROUND_CAP then 0 else COUNTER_ROUND_CAP - round) * Width(c)
  }

  function Rank(c: Cfg, s: Slot): nat {
    var strikes := if s.verdictErrors >= VERDICT_ERRORS_BOUND then 0 else VERDICT_ERRORS_BOUND - s.verdictErrors;
    var shows := if s.surfacedCount >= Shows0(c) then 0 else Shows0(c) - s.surfacedCount;
    Rounds(c, s.counterRound) + if s.status.AwaitingSkeptic? then strikes + Shows0(c) + 1 else shows + 1
  }

  /** A verdict or a surfacing that ran to its end. */
  predicate Counted(c: Cfg, s: State, l: Label)
    requires Enabled(s, l)
  {
    || (l.JudgeEnd? && Completes(l.fault, JudgePlan(s.disk, s.trig.slot, s.trig.was, l.verdict, l.now)))
    || (l.RunSurface? && !SurfaceCase(c, s.disk, l.now).Nothing? && Completes(l.fault, SurfacePlan(c, s.disk, l.now)))
  }

  /** A slot is pending before each of the steps `ls`, and old enough to expire
      whenever it is surfaced. */
  predicate StaysPending(c: Cfg, r: Rules, s: State, ls: seq<Label>)
    requires Legal(c, r, s, ls)
    decreases |ls|
  {
    ls == [] ||
    (&& s.disk.slot.Some?
     && (ls[0].RunSurface? ==> OldEnough(c, s.disk.slot.value, ls[0].now))
     && StaysPending(c, r, Next(c, r, s, ls[0]), ls[1..]))
  }

  function CountSteps(c: Cfg, r: Rules, s: State, ls: seq<Label>): nat
    requires Legal(c, r, s, ls)
    decreases |ls|
  {
    if ls == [] then 0
    else (if Counted(c, s, ls[0]) then 1 else 0) + CountSteps(c, r, Next(c, r, s, ls[0]), ls[1..])
  }

  /** What the verdict's writes leave pending is the slot, unless the last of them is
      there. */
  lemma JudgeLeaves(s: State, v: Verdict, now: real, k: nat)
    requires s.trig.Judging? && s.disk.slot == Some(s.trig.slot)
    requires k <= |JudgePlan(s.disk, s.trig.slot, s.trig.was, v, now)|
    ensures var ws := JudgePlan(s.disk, s.trig.slot, s.trig.was, v, now); var d := Exec(s.disk, ws, k);
            d.slot.Some? ==>
              || (d.slot == s.disk.slot && k < |ws|)
              || (v.Failed? && !StrikesOut(s.trig.slot) && d.slot == Some(Strike(s.trig.slot, now)))
              || (v.Passed? && d.slot == Some(s.trig.slot.(status := AwaitingDoll)))
              || (v.Killed? && s.trig.slot.kind.Counter? && d.slot == Some(RevertToFallback(s.trig.slot, v.reason)))
  {
    var ws := JudgePlan(s.disk, s.trig.slot, s.trig.was, v, now);
    ExecSteps(s.disk, ws);
  }

  lemma JudgeMoves(c: Cfg, r: Rules, s: State, v: Verdict, now: real, f: Fault)
    requires Inv(c, r, s) && s.trig.Judging?
    ensures var s2 := NextJudge(s, v, now, f);
            var n := if Completes(f, JudgePlan(s.disk, s.trig.slot, s.trig.was, v, now)) then 1 else 0;
            s2.disk.slot.Some? ==>
              && s2.disk.slot.value.createdTs == s.disk.slot.value.createdTs
              && Rank(c, s2.disk.slot.value) + n <= Rank(c, s.disk.slot.value)
  {
    var ws := JudgePlan(s.disk, s.trig.slot, s.trig.was, v, now);
    JudgeLeaves(s, v, now, Done(f, ws));
    JudgeRanks(c, s.trig.slot, v, now);
  }

  /** Each slot a verdict may write ranks lower than the one under review. */
  lemma JudgeRanks(c: Cfg, s: Slot, v: Verdict, now: real)
    requires s.status.AwaitingSkeptic? && s.verdictErrors < VERDICT_ERRORS_BOUND
    ensures Rank(c, Strike(s, now)) < Rank(c, s) || StrikesOut(s)
    ensures Rank(c, s.(status := AwaitingDoll)) < Rank(c, s)
    ensures v.Killed? ==> Rank(c, RevertToFallback(s, v.reason)) < Rank(c, s)
  {
  }

  lemma SurfaceMoves(c: Cfg, s: State, now: real, f: Fault)
    requires s.turn.Some? && s.disk.slot.Some? && OldEnough(c, s.disk.slot.value, now)
    ensures var s2 := NextSurface(c, s, now, f);
            var n := if !SurfaceCase(c, s.disk, now).Nothing? && Completes(f, SurfacePlan(c, s.disk, now)) then 1 else 0;
            s2.disk.slot.Some? ==>
              && s2.disk.slot.value.createdTs == s.disk.slot.value.createdTs
              && Rank(c, s2.disk.slot.value) + n <= Rank(c, s.disk.slot.value)
  {
    ExecSteps(s.disk, SurfacePlan(c, s.disk, now));
  }

  /** What a decision leaves pending is the slot, or its rewrite. */
  lemma ReviseLeaves(d: Disk, v: Revision, o: bool, k: nat)
    requires d.slot.Some? && k <= |RevisePlan(d, v, o)|
    ensures var e := Exec(d, RevisePlan(d, v, o), k);
            e.slot.Some? ==> e.slot == d.slot || (v.Counters? && e.slot == Some(ToCounter(d.slot.value, v.proposed, |d.log|)))
  {
    var ws := RevisePlan(d, v, o);
    ExecSteps(d, ws);
    if k >= 2 && v.Rejects? { SlotCleared(d, ws, k); }
  }

  lemma ReviseMoves(c: Cfg, r: Rules, s: State, a: bool, t: Text, o: bool, f: Fault)
    requires s.turn.Some? && s.disk.slot.Some?
    ensures var s2 := NextRevise(c, r, s, a, t, o, f);
            s2.disk.slot.Some? ==>
              && s2.disk.slot.value.createdTs == s.disk.slot.value.createdTs
              && Rank(c, s2.disk.slot.value) <= Rank(c, s.disk.slot.value)
  {
    var v := ReviseCase(r, s.disk, s.turn.value.latched, s.turn.value.surfaced, a, t);
    ReviseLeaves(s.disk, v, o, Done(f, RevisePlan(s.disk, v, o)));
    if v.Counters? { CounterRanks(c, s.disk.slot.value, v.proposed, |s.disk.log|); }
  }

  lemma CounterRanks(c: Cfg, s: Slot, t: Text, born: nat)
    requires s.counterRound < COUNTER_ROUND_CAP && s.status.AwaitingDoll?
    ensures Rank(c, ToCounter(s, t, born)) <= Rank(c, s)
  {
    NextRound(c, s.counterRound);
  }

  lemma NextRound(c: Cfg, round: nat)
    requires round < COUNTER_ROUND_CAP
    ensures Rounds(c, round + 1) + Width(c) == Rounds(c, round)
  {
    var n := COUNTER_ROUND_CAP - round;
    assert (n - 1) * Width(c) + Width(c) == n * Width(c);
  }

  lemma RankFalls(c: Cfg, r: Rules, s: State, l: Label)
    requires Inv(c, r, s) && Enabled(s, l) && s.disk.slot.Some?
    requires l.RunSurface? ==> OldEnough(c, s.disk.slot.value, l.now)
    requires Next(c, r, s, l).disk.slot.Some?
    ensures Rank(c, Next(c, r, s, l).disk.slot.value) + (if Counted(c, s, l) then 1 else 0)
            <= Rank(c, s.disk.slot.value)
    ensures Next(c, r, s, l).disk.slot.value.createdTs == s.disk.slot.value.createdTs
  {
    SlotOwners(c, r, s, l);
    match l
    case JudgeEnd(v, now, f) => JudgeMoves(c, r, s, v, now, f);
    case RunSurface(now, f) => SurfaceMoves(c, s, now, f);
    case Revise(a, t, o, f) => ReviseMoves(c, r, s, a, t, o, f);
    case _ =>
  }

  /** From any reachable state: an old enough proposal, through counters, reverts
      and errors, sees at most three rounds of verdicts and surfacings. */
  lemma {:induction false} BoundedLife(c: Cfg, r: Rules, s: State, ls: seq<Label>)
    requires Inv(c, r, s) && Legal(c, r, s, ls) && StaysPending(c, r, s, ls)
    requires s.disk.slot.Some?
    ensures CountSteps(c, r, s, ls) <= Rank(c, s.disk.slot.value)
    ensures Rank(c, s.disk.slot.value) <= 3 * (VERDICT_ERRORS_BOUND + Shows0(c) + 1)
    decreases |ls|
  {
    RankBound(c, s.disk.slot.value);
    if ls != [] {
      var s2 := Next(c, r, s, ls[0]);
      StepKeepsInv(c, r, s, ls[0]);
      if s2.disk.slot.Some? {
        RankFalls(c, r, s, ls[0]);
        BoundedLife(c, r, s2, ls[1..]);
      } else {
        assert ls[1..] == [];
      }
    }
  }

  lemma RankBound(c: Cfg, s: Slot)
    ensures 1 <= Rank(c, s) <= 3 * Width(c)
  {
    assert 0 <= Rounds(c, s.counterRound) <= 2 * Width(c);
  }

  // ---- evidence ----

  /** The evidence mark stays between the mark a pending slot would return it to
      and the end of the log, crashes included. */
  lemma MarkBounds(c: Cfg, r: Rules, ls: seq<Label>)
    requires Legal(c, r, InitState(c), ls)
    ensures var s := After(c, r, InitState(c), ls);
            && s.mind.hwm <= |s.disk.log|
            && (s.disk.slot.Some? && s.disk.slot.value.hwmBefore.Some? ==> s.disk.slot.value.hwmBefore.value <= s.mind.hwm)
            && (s.trig.Keeping? ==> s.trig.hwm == s.mind.hwm <= s.trig.off <= |s.disk.log|)
  {
    Reachable(c, r, ls);
  }

  predicate Restarts(l: Label) {
    || l.Crash?
    || ((l.RunTripwire? || l.RunSurface? || l.Revise? || l.JudgeEnd? || l.KeepEnd?) && l.fault.Crashes?)
  }

  /** While the process lives the mark moves forward only when a pass is booked
      with a verdict, up to where the log ended when that pass began, and moves
      back only when a slot expires, to where that slot's pass found it. */
  lemma MarkMoves(c: Cfg, r: Rules, s: State, l: Label)
    requires Inv(c, r, s) && Enabled(s, l) && !Restarts(l)
    ensures var (m, m2) := (s.mind.hwm, Next(c, r, s, l).mind.hwm);
            && (m2 > m ==> l.KeepBook? && !s.trig.outcome.OutError? && m2 == s.trig.off)
            && (m2 < m ==> (l.RunSurface? || l.JudgeEnd?) && s.disk.slot.Some?
                           && s.disk.slot.value.hwmBefore == Some(m2)
                           && Next(c, r, s, l).disk.slot.None?)
  {
    match l
    case JudgeEnd(v, now, f) => ExecSteps(s.disk, JudgePlan(s.disk, s.trig.slot, s.trig.was, v, now));
    case RunSurface(now, f) => ExecSteps(s.disk, SurfacePlan(c, s.disk, now));
    case _ =>
  }

  /** The slot expired: its line, the cleared slot, the mark where its pass found it,
      and the file in step. */
  predicate GivenBack(s: State, s2: State) {
    && s.disk.slot.Some? && s2.disk.slot.None?
    && s2.disk.log == s.disk.log + [Expire(s.disk.slot.value.candidate, s.disk.slot.value.hwmBefore)]
    && s2.mind.hwm == s.disk.slot.value.hwmBefore.GetOr(s.mind.hwm)
    && ReadFile(s2.disk) == Sanctioned(s2.disk.log).GetOr("")
  }

  /** Both expiries give the evidence back: the age bound and the error bound. */
  lemma ExpiryGivesBack(c: Cfg, r: Rules, s: State, l: Label)
    requires Inv(c, r, s) && Enabled(s, l) && Counted(c, s, l) && s.disk.slot.Some?
    requires l.RunSurface? ==> SurfaceCase(c, s.disk, l.now).Expires?
    requires l.JudgeEnd? ==> l.verdict.Failed? && StrikesOut(s.trig.slot)
    ensures GivenBack(s, Next(c, r, s, l))
  {
    match l
    case JudgeEnd(v, now, f) => StrikeGivesBack(c, r, s, v, now, f);
    case RunSurface(now, f) => AgeGivesBack(c, s, now, f);
  }

  lemma ExpiryRestores(d: Disk, e: Event, was: Option<Text>)
    requires !e.Adopt? && was == Sanctioned(d.log)
    ensures var ws := [Append(e), ClearSlot] + Restore(d, was); var f := Exec(d, ws, |ws|);
            && f.slot.None? && f.log == d.log + [e] && ReadFile(f) == Sanctioned(f.log).GetOr("")
  {
    LastAdoptAppend(d.log, e);
    ExpiryWrites(d, e, was);
    RestoreReads(d, Disk(d.log + [e], d.file, None), was);
  }

  /** The disk `f` behind restoring the file of `d`. */
  function Behind(d: Disk, f: Disk, was: Option<Text>): Disk {
    if Restore(d, was) == [] then f else Apply(f, Restore(d, was)[0])
  }

  lemma ExpiryWrites(d: Disk, e: Event, was: Option<Text>)
    ensures var ws := [Append(e), ClearSlot] + Restore(d, was);
            Exec(d, ws, |ws|) == Behind(d, Disk(d.log + [e], d.file, None), was)
  {
    var ws := [Append(e), ClearSlot] + Restore(d, was);
    assert ws[0] == Append(e) && ws[1] == ClearSlot && (|ws| == 3 ==> ws[2] == Restore(d, was)[0]);
    assert Exec(d, ws, 1) == Apply(Exec(d, ws, 0), ws[0]);
    assert Exec(d, ws, 2) == Apply(Exec(d, ws, 1), ws[1]);
    if |ws| == 3 { assert Exec(d, ws, 3) == Apply(Exec(d, ws, 2), ws[2]); }
  }

  lemma RestoreReads(d: Disk, f: Disk, was: Option<Text>)
    requires f.file == d.file
    ensures var g := Behind(d, f, was);
            ReadFile(g) == was.GetOr("") && g.log == f.log && g.slot == f.slot
  {
  }

  lemma StrikeGivesBack(c: Cfg, r: Rules, s: State, v: Verdict, now: real, f: Fault)
    requires Inv(c, r, s) && s.trig.Judging? && v.Failed? && StrikesOut(s.trig.slot) && s.disk.slot.Some?
    requires Completes(f, JudgePlan(s.disk, s.trig.slot, s.trig.was, v, now)) && !f.Crashes?
    ensures GivenBack(s, NextJudge(s, v, now, f))
  {
    var slot := s.trig.slot;
    ExpiryRestores(s.disk, Expire(slot.candidate, slot.hwmBefore), s.trig.was);
  }

  lemma AgeGivesBack(c: Cfg, s: State, now: real, f: Fault)
    requires s.turn.Some? && SurfaceCase(c, s.disk, now).Expires?
    requires Completes(f, SurfacePlan(c, s.disk, now)) && !f.Crashes?
    ensures GivenBack(s, NextSurface(c, s, now, f))
  {
    var slot := s.disk.slot.value;
    ExpiryRestores(s.disk, Expire(slot.candidate, slot.hwmBefore), Sanctioned(s.disk.log));
  }

  ghost predicate IntervalOk(c: Cfg, s: State) {
    c.base <= s.mind.interval <= c.cap && c.base <= s.saved.interval <= c.cap
  }

  lemma {:induction false} IntervalRun(c: Cfg, r: Rules, s: State, ls: seq<Label>)
    requires CfgOk(c) && IntervalOk(c, s) && Legal(c, r, s, ls)
    ensures IntervalOk(c, After(c, r, s, ls))
    decreases |ls|
  {
    if ls != [] { IntervalRun(c, r, Next(c, r, s, ls[0]), ls[1..]); }
  }

  /** The pass interval stays within `[base, cap]` in every run exactly when the
      configured bounds are ordered and not negative (nothing checks them). */
  lemma IntervalBounds(c: Cfg, r: Rules)
    ensures (forall ls | Legal(c, r, InitState(c), ls) ::
               c.base <= After(c, r, InitState(c), ls).mind.interval <= c.cap)
            <==> CfgOk(c)
  {
    if CfgOk(c) {
      forall ls | Legal(c, r, InitState(c), ls)
        ensures c.base <= After(c, r, InitState(c), ls).mind.interval <= c.cap
      {
        IntervalRun(c, r, InitState(c), ls);
      }
    } else {
      var s0 := InitState(c);
      var l1 := KeepEnd(Unchanged, Broken, Failed, 0.0, Clean);
      var s1 := Next(c, r, s0, KeepBegin);
      var s2 := Next(c, r, s1, l1);
      var s3 := Next(c, r, s2, KeepBook);
      assert s3.mind.interval == Min(c.base * 2.0, c.cap);
      assert Legal(c, r, s3, []);
      assert [KeepBook][1..] == [] && Legal(c, r, s2, [KeepBook]) && After(c, r, s2, [KeepBook]) == s3;
      assert [l1, KeepBook][1..] == [KeepBook] && Legal(c, r, s1, [l1, KeepBook]);
      var ls := [KeepBegin, l1, KeepBook];
      assert ls[1..] == [l1, KeepBook] && Legal(c, r, s0, ls);
      assert After(c, r, s0, ls) == s3;
      assert Legal(c, r, s0, []) && After(c, r, s0, []).mind.interval == c.base;
    }
  }
}
