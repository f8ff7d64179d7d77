/** The self-revision code in its own form: methods that read and write the log,
    the file, the slot and the mind state one after another. `budget` is how many
    more durable writes go through before one fails or the process dies; a method
    that runs into it stops there and returns `ok == false`. Every method is shown
    to do a prefix of the writes of its plan in EvolutionModel, the ones the state
    machine runs. */
module EvolutionDaemon {
  import opened Wrappers
  import opened EvolutionModel
  import opened EvolutionMachine

  /** `self_history.latest_adopt`: the backward scan. */
  method LatestAdopt(log: seq<Event>) returns (i: int)
    ensures i == LastAdopt(log)
  {
    i := |log| - 1;
    while i >= 0 && !log[i].Adopt?
      invariant -1 <= i < |log|
      invariant forall j :: i < j < |log| ==> !log[j].Adopt?
    {
      i := i - 1;
    }
  }

  /** `self_history.latest_external_edit_text`: the backward scan with its flag. */
  method LatestOpenEdit(log: seq<Event>) returns (o: Option<nat>)
    ensures o == OpenEdit(log)
  {
    var terminalAfter := false;
    var i := |log|;
    assert log[..i] == log;
    while i > 0
      invariant 0 <= i <= |log|
      invariant OpenEdit(log) == if terminalAfter then None else OpenEdit(log[..i])
    {
      var e := log[i - 1];
      assert log[..i][..i - 1] == log[..i - 1];
      if EditLine(e) {
        return if terminalAfter then None else Some(i - 1);
      }
      if Terminal(e) { terminalAfter := true; }
      i := i - 1;
    }
    o := None;
  }

  class Daemon {
    const c: Cfg
    const r: Rules
    var log: seq<Event>
    var file: Option<Text>
    var slot: Option<Slot>
    var mind: Mind
    var saved: Mind
    var surfaced: bool
    var latched: bool
    var budget: nat

    ghost function D(): Disk
      reads this
    {
      Disk(log, file, slot)
    }

    constructor (c: Cfg, r: Rules, budget: nat)
      ensures this.c == c && this.r == r && this.budget == budget
      ensures D() == InitState(c).disk && mind == saved == InitState(c).mind
      ensures !surfaced && !latched
    {
      this.c, this.r, this.budget := c, r, budget;
      log, file, slot := [], None, None;
      mind, saved := Mind(0, c.base), Mind(0, c.base);
      surfaced, latched := false, false;
    }

    /** The plan `ws` ran as far as the budget `b` went. */
    ghost predicate Ran(d: Disk, ws: seq<Write>, b: nat, ok: bool)
      reads this
    {
      && ok == (b >= |ws|)
      && D() == Exec(d, ws, if ok then |ws| else b)
      && budget == if ok then b - |ws| else 0
    }

    /** `log_or_raise`, `save_slot`, `clear_slot`, and the file writes. */
    method Commit(w: Write) returns (ok: bool)
      modifies this`log, this`file, this`slot, this`budget
      ensures ok == (old(budget) > 0)
      ensures D() == if ok then Apply(old(D()), w) else old(D())
      ensures budget == if ok then old(budget) - 1 else 0
    {
      if budget == 0 { return false; }
      budget := budget - 1;
      match w {
        case Append(e) => log := log + [e];
        case PutFile(t) => file := Some(t);
        case DelFile => file := None;
        case PutSlot(s) => slot := Some(s);
        case ClearSlot => slot := None;
      }
      return true;
    }

    method RestoreFile(sanctioned: Option<Text>) returns (ok: bool)
      modifies this`log, this`file, this`slot, this`budget
      ensures Ran(old(D()), Restore(old(D()), sanctioned), old(budget), ok)
    {
      ghost var d := D();
      ExecSteps(d, Restore(d, sanctioned));
      if file.GetOr("") == sanctioned.GetOr("") { return true; }
      if sanctioned.None? {
        ok := Commit(DelFile);
      } else {
        ok := Commit(PutFile(sanctioned.value));
      }
    }

    /** One line, then the file back. */
    method LogThenRestore(e: Event, sanctioned: Option<Text>) returns (ok: bool)
      modifies this`log, this`file, this`slot, this`budget
      ensures Ran(old(D()), [Append(e)] + Restore(old(D()), sanctioned), old(budget), ok)
    {
      ghost var d := D();
      ghost var ws := [Append(e)] + Restore(d, sanctioned);
      ExecSteps(d, ws);
      ok := Commit(Append(e));
      if !ok { return; }
      ExecSteps(D(), Restore(D(), sanctioned));
      ok := RestoreFile(sanctioned);
    }

    method LogClearRestore(e: Event, sanctioned: Option<Text>) returns (ok: bool)
      modifies this`log, this`file, this`slot, this`budget
      ensures Ran(old(D()), [Append(e), ClearSlot] + Restore(old(D()), sanctioned), old(budget), ok)
    {
      ghost var d := D();
      ghost var ws := [Append(e), ClearSlot] + Restore(d, sanctioned);
      ExecSteps(d, ws);
      ok := Commit(Append(e));
      if !ok { return; }
      ok := Commit(ClearSlot);
      if !ok { return; }
      ExecSteps(D(), Restore(D(), sanctioned));
      ok := RestoreFile(sanctioned);
    }

    method ProcessTripwire(now: real) returns (ok: bool)
      modifies this`log, this`file, this`slot, this`budget
      ensures Ran(old(D()), TripwirePlan(r, old(D()), now), old(budget), ok)
    {
      ghost var d := D();
      ExecSteps(d, TripwirePlan(r, d, now));
      var text := file.GetOr("");
      var a := LatestAdopt(log);
      var sanctioned: Option<Text> := if a < 0 then None else Some(log[a].text);
      var adoptOld: Option<Text> := if a < 0 then None else log[a].oldText;
      var edit := LatestOpenEdit(log);
      var lastEdit: Option<Text> := if edit.None? then None else log[edit.value].edit;
      match Classify(text, sanctioned, adoptOld, lastEdit) {
        case InSync => return true;
        case AlreadyLogged =>
          ok := true;
          if slot.None? {
            if !Mechanical(r, text) {
              ok := RestoreFile(sanctioned);
            } else {
              ok := Commit(PutSlot(ExternalSlot(text, now, edit.value)));
            }
          }
        case CrashRepair =>
          ok := LogThenRestore(Repair, sanctioned);
        case NewEdit =>
          if !Mechanical(r, text) {
            ok := LogThenRestore(ExternalEdit(None), sanctioned);
            return;
          }
          ok := Commit(Append(ExternalEdit(Some(text))));
          if ok && slot.None? {
            ok := Commit(PutSlot(ExternalSlot(text, now, |log| - 1)));
          }
      }
    }

    method SurfaceOrExpire(now: real) returns (ok: bool, shown: bool)
      modifies this`log, this`file, this`slot, this`budget, this`mind
      ensures Ran(old(D()), SurfacePlan(c, old(D()), now), old(budget), ok)
      ensures shown <==> ok && SurfaceCase(c, old(D()), now).Shows?
      ensures mind == if ok && SurfaceCase(c, old(D()), now).Expires? then GiveBack(old(mind), old(slot).value)
                      else old(mind)
    {
      ghost var d := D();
      ExecSteps(d, SurfacePlan(c, d, now));
      if slot.None? || slot.value.status != AwaitingDoll { return true, false; }
      var s := slot.value;
      var a := LatestAdopt(log);
      var sanctioned: Option<Text> := if a < 0 then None else Some(log[a].text);
      if sanctioned == Some(s.candidate) {
        ok := Commit(Append(Repair));
        if ok { ok := Commit(ClearSlot); }
        return ok, false;
      }
      if s.surfacedCount >= c.maxSurfacings && OldEnough(c, s, now) {
        ok := LogClearRestore(Expire(s.candidate, s.hwmBefore), sanctioned);
        if ok && s.hwmBefore.Some? { mind := mind.(hwm := s.hwmBefore.value); }
        return ok, false;
      }
      ok := Commit(PutSlot(s.(surfacedCount := s.surfacedCount + 1, notice := None)));
      return ok, ok;
    }

    /** `_atomic_write_text` tried twice; `fails` attempts go wrong. */
    method WriteTwice(t: Text, fails: nat) returns (ok: bool, written: bool)
      modifies this`log, this`file, this`slot, this`budget
      ensures written == (fails < 2)
      ensures written ==> ok == (old(budget) > 0)
      ensures written ==> D() == (if ok then Apply(old(D()), PutFile(t)) else old(D()))
      ensures written ==> budget == if ok then old(budget) - 1 else 0
      ensures !written ==> ok && D() == old(D()) && budget == old(budget)
    {
      var attempt := 0;
      while attempt < 2
        invariant attempt <= 2 && attempt <= fails
        invariant D() == old(D()) && budget == old(budget)
      {
        if attempt >= fails {
          ok := Commit(PutFile(t));
          return ok, true;
        }
        attempt := attempt + 1;
      }
      return true, false;
    }

    /** `_anchor_evolution_decision`. */
    method Anchor(k: Kind, adopt: bool)
      modifies this`mind
      ensures mind == Decided(c, old(mind), k, if adopt then Adopts else Rejects)
    {
      if k.External? { return; }
      if adopt {
        mind := mind.(interval := c.base);
      } else {
        var doubled := mind.interval * 2.0;
        mind := mind.(interval := if doubled <= c.cap then doubled else c.cap);
      }
    }

    /** `SelfRevision.run`. */
    method SelfRevision(adopt: bool, text: Text, fails: nat) returns (ok: bool)
      modifies this
      ensures var v := ReviseCase(r, old(D()), old(latched), old(surfaced), adopt, text);
              && Ran(old(D()), RevisePlan(old(D()), v, fails < 2), old(budget), ok)
              && latched == (old(latched) || (ok && !v.Refuses?))
              && mind == (if ok && !v.Refuses? then Decided(c, old(mind), old(slot).value.kind, v) else old(mind))
              && surfaced == old(surfaced) && saved == old(saved)
    {
      ghost var d := D();
      ghost var v := ReviseCase(r, d, latched, surfaced, adopt, text);
      ExecSteps(d, RevisePlan(d, v, fails < 2));
      if latched || slot.None? || slot.value.status != AwaitingDoll || !surfaced { return true; }
      var s := slot.value;
      var a := LatestAdopt(log);
      var sanctioned: Option<Text> := if a < 0 then None else Some(log[a].text);
      if !adopt {
        ok := LogClearRestore(Reject(s.candidate), sanctioned);
        if ok {
          Anchor(s.kind, false);
          latched := true;
        }
        return;
      }
      var proposed := r.strip(text);
      if proposed == "" || Echo(r, proposed, s.candidate) {
        if sanctioned.Some? && Echo(r, s.candidate, sanctioned.value) { return true; }
        ok := WriteAdoption(s, sanctioned, fails);
        if ok {
          Anchor(s.kind, true);
          latched := true;
        }
        return;
      }
      if sanctioned.Some? && Echo(r, proposed, sanctioned.value) { return true; }
      if s.counterRound >= COUNTER_ROUND_CAP { return true; }
      if !Mechanical(r, proposed) { return true; }
      ok := WriteCounter(s, proposed);
      if ok { latched := true; }
    }

    method WriteAdoption(s: Slot, sanctioned: Option<Text>, fails: nat) returns (ok: bool)
      requires slot == Some(s) && sanctioned == Sanctioned(log)
      modifies this`log, this`file, this`slot, this`budget
      ensures Ran(old(D()), RevisePlan(old(D()), Adopts, fails < 2), old(budget), ok)
    {
      ExecSteps(D(), RevisePlan(D(), Adopts, fails < 2));
      ok := Commit(Append(Adopt(s.candidate, sanctioned, s.born)));
      if !ok { return; }
      var written;
      ok, written := WriteTwice(s.candidate, fails);
      if !ok { return; }
      if !written {
        ok := Commit(Append(Error));
        if !ok { return; }
      }
      ok := Commit(ClearSlot);
    }

    method WriteCounter(s: Slot, proposed: Text) returns (ok: bool)
      requires slot == Some(s)
      modifies this`log, this`file, this`slot, this`budget
      ensures Ran(old(D()), RevisePlan(old(D()), Counters(proposed), true), old(budget), ok)
    {
      ExecSteps(D(), RevisePlan(D(), Counters(proposed), true));
      var counter := ToCounter(s, proposed, |log|);
      ok := Commit(Append(CounterLine(proposed, counter.counterRound)));
      if !ok { return; }
      ok := Commit(PutSlot(counter));
    }

    /** `_reverdict_once` after the await, on what it read before. */
    method Reverdict(s: Slot, was: Option<Text>, v: Verdict, now: real) returns (ok: bool)
      modifies this`log, this`file, this`slot, this`budget, this`mind, this`saved
      ensures Ran(old(D()), JudgePlan(old(D()), s, was, v, now), old(budget), ok)
      ensures if ok && v.Failed? && StrikesOut(s) then mind == saved == GiveBack(old(mind), s)
              else mind == old(mind) && saved == old(saved)
    {
      ghost var d := D();
      ExecSteps(d, JudgePlan(d, s, was, v, now));
      if v.Failed? {
        var errors := s.verdictErrors + 1;
        var struck := s.(verdictErrors := errors, lastErrorTs := Some(now));
        if errors >= VERDICT_ERRORS_BOUND {
          ok := LogClearRestore(Expire(s.candidate, s.hwmBefore), was);
          if !ok { return; }
          if s.hwmBefore.Some? { mind := mind.(hwm := s.hwmBefore.value); }
          saved := mind;
        } else {
          ok := Commit(Append(Error));
          if ok { ok := Commit(PutSlot(struck)); }
        }
        return;
      }
      if v.Passed? {
        ok := Commit(PutSlot(s.(status := AwaitingDoll)));
        return;
      }
      if s.kind.Counter? {
        ok := Commit(Append(Kill(s.candidate)));
        if ok { ok := Commit(PutSlot(RevertToFallback(s, v.reason))); }
      } else {
        ok := LogClearRestore(Kill(s.candidate), was);
      }
    }

    /** `run_evolution_pass`, on the replies its model calls returned. */
    method EvolutionPass(first: Report, second: Report, review: Verdict, hwm: nat, now: real)
      returns (ok: bool, outcome: Outcome)
      modifies this`log, this`file, this`slot, this`budget
      ensures var p := PassResult(r, first, second, review);
              && Ran(old(D()), KeepPlan(old(D()), p, hwm, now), old(budget), ok)
              && (ok ==> outcome == KeepOutcome(old(D()), p))
    {
      ghost var d := D();
      ExecSteps(d, KeepPlan(d, PassResult(r, first, second, review), hwm, now));
      outcome := OutError;
      if first.Broken? {
        ok := Commit(Append(Error));
        return;
      }
      if first.Unchanged? {
        ok := Commit(Append(NoChange));
        return ok, OutNoChange;
      }
      var text, why := first.text, first.why;
      if !Mechanical(r, text) {
        ok := Commit(Append(Kill(text)));
        return ok, OutKill;
      }
      if r.restates(text) {
        if second.Broken? {
          ok := Commit(Append(Kill(text)));
          return ok, OutKill;
        }
        if second.Unchanged? {
          ok := Commit(Append(NoChange));
          return ok, OutNoChange;
        }
        text, why := second.text, second.why;
        if !Mechanical(r, text) || r.restates(text) {
          ok := Commit(Append(Kill(text)));
          return ok, OutKill;
        }
      }
      if review.Failed? {
        ok := Commit(Append(Error));
        return;
      }
      if !review.Passed? || slot.Some? {
        ok := Commit(Append(Kill(text)));
        return ok, OutKill;
      }
      ok := Commit(Append(Candidate(text)));
      if !ok { return; }
      ok := Commit(PutSlot(KeeperSlot(text, why, hwm, now, |log| - 1)));
      return ok, OutCandidate;
    }

    /** `_apply_mode_a_bookkeeping` and the save behind it. */
    method Bookkeep(outcome: Outcome, off: nat)
      modifies this`mind, this`saved
      ensures mind == saved == Book(c, old(mind), outcome, off)
    {
      if outcome == OutNoChange || outcome == OutKill {
        var doubled := mind.interval * 2.0;
        mind := Mind(off, if doubled <= c.cap then doubled else c.cap);
      } else if outcome == OutCandidate {
        mind := mind.(hwm := off);
      }
      saved := mind;
    }
  }
}
