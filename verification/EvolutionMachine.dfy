/** The self-revision protocol as a state machine. A step runs one await-free
    segment of the daemon; between two steps anything else may happen: turns, the
    skeptic's verdict, a keeper pass, an outside edit of the file, another task
    saving the mind state, a crash. The gates that only delay a step (idle time,
    intervals, cooldowns, material, when a turn is a reflection) are dropped, so a
    schedule of these segments is a run here whether or not its gates were open.

    `trace` is a history variable: what happened that the log does not record. */
module EvolutionMachine {
  import opened Wrappers
  import opened EvolutionModel

  datatype Phase = Opened | Wired | Live
  datatype Turn = Turn(no: nat, phase: Phase, surfaced: bool, latched: bool)

  /** What EvolutionTrigger's task is doing across its awaits. */
  datatype Trigger =
    | Idle
    | Judging(slot: Slot, was: Option<Text>)
    | Keeping(hwm: nat, off: nat)
    | Booking(outcome: Outcome, off: nat)

  datatype Mark =
    | Began(no: nat)
    | Shown(born: nat, no: nat)     // rendered into turn `no`
    | Judged(born: nat)             // a skeptic PASS
    | Took(at: nat, no: nat)        // adopted by log line `at`, in turn `no`
    | Stray(no: nat)                // turn `no`: a reject failed after it cleared the slot

  datatype State = State(disk: Disk, mind: Mind, saved: Mind, turn: Option<Turn>,
                         trig: Trigger, trace: seq<Mark>)

  /** `Crashes(k)` kills the process after `k` writes, `Raises(k)` makes write `k`
      raise an OSError. */
  datatype Fault = Clean | Crashes(k: nat) | Raises(k: nat)

  datatype Label =
    | Edit(to: Option<Text>)
    | Pin
    | BeginTurn
    | RunTripwire(now: real, fault: Fault)
    | RunSurface(now: real, fault: Fault)
    | SkipSurface
    | Revise(adopt: bool, text: Text, fileOk: bool, fault: Fault)
    | EndTurn
    | AbortTurn
    | JudgeBegin
    | JudgeEnd(verdict: Verdict, now: real, fault: Fault)
    | KeepBegin
    | KeepEnd(first: Report, second: Report, review: Verdict, now: real, fault: Fault)
    | KeepBook
    | CancelTask
    | Save                              // another task saves the mind state
    | Crash

  function Done(f: Fault, ws: seq<Write>): (k: nat)
    ensures k <= |ws|
  {
    if f.Clean? || f.k > |ws| then |ws| else f.k
  }

  predicate Completes(f: Fault, ws: seq<Write>) { f.Clean? || (f.Raises? && f.k >= |ws|) }

  function Reboot(s: State): State {
    State(s.disk, s.saved, s.saved, None, Idle, s.trace)
  }

  function InitState(c: Cfg): State {
    State(Disk([], None, None), Mind(0, c.base), Mind(0, c.base), None, Idle, [])
  }

  predicate Enabled(s: State, l: Label) {
    match l
    case Edit(_) => true
    case Pin => true
    case BeginTurn => s.turn.None?
    case RunTripwire(_, _) => s.turn.Some? && s.turn.value.phase.Opened?
    case RunSurface(_, _) => s.turn.Some? && s.turn.value.phase.Wired?
    case SkipSurface => s.turn.Some? && s.turn.value.phase.Wired?
    case Revise(_, _, _, _) => s.turn.Some? && s.turn.value.phase.Live?
    case EndTurn => s.turn.Some?
    case AbortTurn => s.turn.Some?
    case JudgeBegin => s.trig.Idle? && s.disk.slot.Some? && s.disk.slot.value.status == AwaitingSkeptic
    case JudgeEnd(_, _, _) => s.trig.Judging?
    case KeepBegin => s.trig.Idle? && s.disk.slot.None?
    case KeepEnd(_, _, _, _, _) => s.trig.Keeping?
    case KeepBook => s.trig.Booking?
    case CancelTask => s.trig.Judging? || s.trig.Keeping?
    case Save => true
    case Crash => true
  }

  function Next(c: Cfg, r: Rules, s: State, l: Label): State
    requires Enabled(s, l)
  {
    match l
    case Edit(to) => s.(disk := s.disk.(file := to))
    case Pin => s.(disk := Apply(s.disk, Append(PinEvent)))
    case BeginTurn =>
      s.(turn := Some(Turn(|s.trace|, Opened, false, false)), trace := s.trace + [Began(|s.trace|)])
    case RunTripwire(now, f) => NextTripwire(r, s, now, f)
    case RunSurface(now, f) => NextSurface(c, s, now, f)
    case SkipSurface => s.(turn := Some(s.turn.value.(phase := Live)))
    case Revise(adopt, text, fileOk, f) => NextRevise(c, r, s, adopt, text, fileOk, f)
    case EndTurn => s.(turn := None, saved := s.mind)
    case AbortTurn => s.(turn := None)
    case JudgeBegin => s.(trig := Judging(s.disk.slot.value, Sanctioned(s.disk.log)))
    case JudgeEnd(v, now, f) => NextJudge(s, v, now, f)
    case KeepBegin => s.(trig := Keeping(s.mind.hwm, |s.disk.log|))
    case KeepEnd(a, b, v, now, f) => NextKeep(s, PassResult(r, a, b, v), now, f)
    case KeepBook =>
      var m := Book(c, s.mind, s.trig.outcome, s.trig.off);
      s.(mind := m, saved := m, trig := Idle)
    case CancelTask => s.(trig := Idle)
    case Save => s.(saved := s.mind)
    case Crash => Reboot(s)
  }

  /** An exception out of the tripwire aborts the turn. */
  function NextTripwire(r: Rules, s: State, now: real, f: Fault): State
    requires s.turn.Some?
  {
    var ws := TripwirePlan(r, s.disk, now);
    var t := s.(disk := Exec(s.disk, ws, Done(f, ws)));
    if f.Crashes? then Reboot(t)
    else if Completes(f, ws) then t.(turn := Some(t.turn.value.(phase := Wired)))
    else t.(turn := None)
  }

  function NextSurface(c: Cfg, s: State, now: real, f: Fault): State
    requires s.turn.Some?
  {
    var what := SurfaceCase(c, s.disk, now);
    var ws := SurfacePlan(c, s.disk, now);
    var t := s.(disk := Exec(s.disk, ws, Done(f, ws)));
    if f.Crashes? then Reboot(t)
    else if !Completes(f, ws) then t.(turn := None)
    else
      var turn := t.turn.value.(phase := Live, surfaced := what.Shows?);
      match what
      case Shows => t.(turn := Some(turn), trace := t.trace + [Shown(s.disk.slot.value.born, turn.no)])
      case Expires => t.(turn := Some(turn), mind := GiveBack(t.mind, s.disk.slot.value))
      case _ => t.(turn := Some(turn))
  }

  /** An exception out of the tool is caught by the dispatcher: the turn goes on,
      the latch and the bookkeeping behind the failing write are not reached. */
  function NextRevise(c: Cfg, r: Rules, s: State, adopt: bool, text: Text, fileOk: bool, f: Fault): State
    requires s.turn.Some?
  {
    var turn := s.turn.value;
    var v := ReviseCase(r, s.disk, turn.latched, turn.surfaced, adopt, text);
    var ws := RevisePlan(s.disk, v, fileOk);
    var k := Done(f, ws);
    var marks :=
      (if v.Adopts? && k > 0 then [Took(|s.disk.log|, turn.no)] else [])
      + (if v.Rejects? && !Completes(f, ws) && k >= 2 then [Stray(turn.no)] else []);
    var t := s.(disk := Exec(s.disk, ws, k), trace := s.trace + marks);
    if f.Crashes? then Reboot(t)
    else if v.Refuses? || !Completes(f, ws) then t
    else t.(turn := Some(turn.(latched := true)),
            mind := Decided(c, t.mind, s.disk.slot.value.kind, v))
  }

  /** Writes back the slot that was read before the await. */
  function NextJudge(s: State, v: Verdict, now: real, f: Fault): State
    requires s.trig.Judging?
  {
    var slot := s.trig.slot;
    var ws := JudgePlan(s.disk, slot, s.trig.was, v, now);
    var marks := if v.Passed? then [Judged(slot.born)] else [];
    var t := s.(disk := Exec(s.disk, ws, Done(f, ws)), trace := s.trace + marks);
    if f.Crashes? then Reboot(t)
    else if Completes(f, ws) && v.Failed? && StrikesOut(slot) then
      var m := GiveBack(t.mind, slot);
      t.(trig := Idle, mind := m, saved := m)
    else t.(trig := Idle)
  }

  function NextKeep(s: State, p: Result, now: real, f: Fault): State
    requires s.trig.Keeping?
  {
    var ws := KeepPlan(s.disk, p, s.trig.hwm, now);
    var k := Done(f, ws);
    var born := p.PassCandidate? && s.disk.slot.None? && k > 0;
    var t := s.(disk := Exec(s.disk, ws, k),
                trace := s.trace + if born then [Judged(|s.disk.log|)] else []);
    if f.Crashes? then Reboot(t)
    else if Completes(f, ws) then t.(trig := Booking(KeepOutcome(s.disk, p), s.trig.off))
    else t.(trig := Idle)
  }

  // ---- runs ----

  predicate Legal(c: Cfg, r: Rules, s: State, ls: seq<Label>)
    decreases |ls|
  {
    ls == [] || (Enabled(s, ls[0]) && Legal(c, r, Next(c, r, s, ls[0]), ls[1..]))
  }

  function After(c: Cfg, r: Rules, s: State, ls: seq<Label>): State
    requires Legal(c, r, s, ls)
    decreases |ls|
  {
    if ls == [] then s else After(c, r, Next(c, r, s, ls[0]), ls[1..])
  }
}
