/** Watching one long-lived service: restart with backoff, giving up, and a stop that
    races the loop at every await point. */
module Supervisor {
  import opened Wrappers

  const MAX_CONSECUTIVE := 5
  const BACKOFF_MAX := 60

  /** Killed: sent SIGKILL, not reaped yet. */
  datatype Proc = Alive | Killed | Dead(rc: int)

  datatype Phase = Idle | Running | Restarting | GaveUp | Stopped

  /** Where the supervise loop awaits. */
  datatype Pc =
    | Top                   // not run yet, or back at its head
    | Exec                  // the exec call
    | Reap(aborted: nat)    // the end of a process killed right behind its fork
    | Wait(p: nat)          // the end of the process
    | Sleep(delay: nat)
    | Over

  /** Where the stop awaits. */
  datatype Stop = NotCalled | Grace(p: nat) | KillWait(p: nat) | Gather | LateWait(p: nat) | Returned

  datatype State = State(
    procs: seq<Proc>,            // every process ever forked
    proc: Option<nat>,
    stopping: bool,
    failures: nat,
    phase: Phase,
    pc: Pc,
    stop: Stop,
    cancel: bool,                // the loop's task is cancelled
    attempts: nat,               // exec calls
    crashes: seq<bool>,          // each crash: was the uptime healthy
    delays: seq<nat>,
    gaveUps: nat,                // calls of on_gave_up
    lost: Option<nat>)           // history: an aborted fork whose reap was cancelled

  const Init := State([], None, false, 0, Idle, Top, NotCalled, false, 0, [], [], 0, None)

  datatype Step =
    | Exits(p: nat, rc: int)
    | Begin | ExecOk | ExecFails(healthy: bool) | Reaped | Waited(healthy: bool) | Slept | Cancelled
    | StopCall | GraceOver | GraceTimeout | KillOver | Gathered | LateOver

  function Pow2(n: nat): nat { if n == 0 then 1 else 2 * Pow2(n - 1) }

  function Min(a: nat, b: nat): nat { if a <= b then a else b }

  predicate IsDead(s: State, p: nat) { p < |s.procs| && s.procs[p].Dead? }

  /** SIGKILL: a process that is gone stays gone. */
  function Kill(s: State, p: nat): State {
    if p < |s.procs| && s.procs[p].Alive? then s.(procs := s.procs[p := Killed]) else s
  }

  // ---- the loop ----

  /** Behind a failed exec (no `rc`) or the end of the process. */
  function AfterRun(s: State, rc: Option<int>, healthy: bool): State {
    if s.stopping || rc == Some(0) then s.(pc := Over)
    else
      var failures := (if healthy then 0 else s.failures) + 1;
      var t := s.(failures := failures, crashes := s.crashes + [healthy]);
      if failures > MAX_CONSECUTIVE then t.(phase := GaveUp, gaveUps := s.gaveUps + 1, pc := Over)
      else
        var delay := Min(Pow2(failures - 1), BACKOFF_MAX);
        t.(phase := Restarting, pc := Sleep(delay), delays := s.delays + [delay])
  }

  function Forked(s: State): State {
    var p := |s.procs|;
    if s.stopping then s.(procs := s.procs + [Killed], pc := Reap(p))
    else s.(procs := s.procs + [Alive], proc := Some(p), phase := Running, pc := Wait(p))
  }

  function Head(s: State): State {
    if s.stopping then s.(pc := Over) else s.(pc := Exec, attempts := s.attempts + 1)
  }

  // ---- the stop ----

  function StopBegin(s: State): State {
    var t := s.(stopping := true);
    if t.proc.Some? && !IsDead(t, t.proc.value) then t.(stop := Grace(t.proc.value)) else StopCancel(t)
  }

  function StopCancel(s: State): State {
    if s.pc.Over? then StopLate(s) else s.(cancel := true, stop := Gather)
  }

  function StopLate(s: State): State {
    if s.proc.Some? && !IsDead(s, s.proc.value) then Kill(s, s.proc.value).(stop := LateWait(s.proc.value))
    else s.(stop := Returned, phase := Stopped)
  }

  // ---- steps ----

  predicate Enabled(s: State, l: Step) {
    match l
    case Exits(p, _) => p < |s.procs| && !s.procs[p].Dead?
    case Begin => s.pc.Top? && !s.cancel
    case ExecOk => s.pc.Exec?
    case ExecFails(_) => s.pc.Exec?
    case Reaped => s.pc.Reap? && IsDead(s, s.pc.aborted)
    case Waited(_) => s.pc.Wait? && IsDead(s, s.pc.p)
    case Slept => s.pc.Sleep?
    case Cancelled => s.cancel && !s.pc.Over?
    case StopCall => s.stop.NotCalled?
    case GraceOver => s.stop.Grace? && IsDead(s, s.stop.p)
    case GraceTimeout => s.stop.Grace?
    case KillOver => s.stop.KillWait? && IsDead(s, s.stop.p)
    case Gathered => s.stop.Gather? && s.pc.Over?
    case LateOver => s.stop.LateWait? && IsDead(s, s.stop.p)
  }

  function Next(s: State, l: Step): State
    requires Enabled(s, l)
  {
    match l
    case Exits(p, rc) => s.(procs := s.procs[p := Dead(rc)])
    case Begin => Head(s)
    case ExecOk => Forked(s)
    case ExecFails(healthy) => AfterRun(s, None, healthy)
    case Reaped => s.(pc := Over)
    case Waited(healthy) => AfterRun(s, Some(s.procs[s.pc.p].rc), healthy)
    case Slept => Head(s)
    case Cancelled => s.(pc := Over, lost := if s.pc.Reap? then Some(s.pc.aborted) else s.lost)
    case StopCall => StopBegin(s)
    case GraceOver => StopCancel(s)
    case GraceTimeout => Kill(s, s.stop.p).(stop := KillWait(s.stop.p))
    case KillOver => StopCancel(s)
    case Gathered => StopLate(s)
    case LateOver => s.(stop := Returned, phase := Stopped)
  }

  predicate Legal(steps: seq<Step>)
    decreases |steps|, 0
  {
    steps == [] || (Legal(steps[..|steps| - 1]) && Enabled(After(steps[..|steps| - 1]), steps[|steps| - 1]))
  }

  function After(steps: seq<Step>): State
    requires Legal(steps)
    decreases |steps|, 1
  {
    if steps == [] then Init else Next(After(steps[..|steps| - 1]), steps[|steps| - 1])
  }

  // ---- crash streaks ----

  /** Crashes since the last one behind a healthy uptime, that one included. */
  function Streak(crashes: seq<bool>): nat {
    if crashes == [] then 0
    else if crashes[|crashes| - 1] then 1
    else Streak(crashes[..|crashes| - 1]) + 1
  }

  function Healthy(crashes: seq<bool>): nat {
    if crashes == [] then 0 else Healthy(crashes[..|crashes| - 1]) + if crashes[|crashes| - 1] then 1 else 0
  }

  // ---- the invariant ----

  ghost predicate ProcsOk(s: State) {
    && (s.proc.Some? ==> s.proc.value < |s.procs|)
    && (s.pc.Wait? ==> s.proc == Some(s.pc.p))
    && (s.pc.Reap? ==> s.pc.aborted < |s.procs| && !s.procs[s.pc.aborted].Alive? && s.lost.None?)
    && (s.lost.Some? ==> s.pc.Over? && s.lost.value < |s.procs| && !s.procs[s.lost.value].Alive?)
    && (forall p | 0 <= p < |s.procs| && !s.procs[p].Dead? :: Accounted(s, p))
  }

  /** A process that is not gone: the one the loop waits for, or left to the stop; or
      an aborted fork, being reaped or not to be. */
  predicate Accounted(s: State, p: nat) {
    || (s.proc == Some(p) && (s.pc.Wait? || (s.pc.Over? && (s.stop.Gather? || s.stop.LateWait?))))
    || (s.pc.Reap? && s.pc.aborted == p)
    || s.lost == Some(p)
  }

  ghost predicate StopOk(s: State) {
    && (s.stop.NotCalled? <==> !s.stopping)
    && (s.cancel ==> s.stop.Gather? || s.stop.LateWait? || s.stop.Returned?)
    && (s.stop.Gather? ==> s.cancel)
    && (s.stop.LateWait? || s.stop.Returned? ==> s.pc.Over?)
    && (s.stop.LateWait? ==> s.proc == Some(s.stop.p) && s.stop.p < |s.procs| && !s.procs[s.stop.p].Alive?)
    && (s.stop.Returned? ==> s.phase.Stopped? && (s.proc.Some? ==> IsDead(s, s.proc.value)))
  }

  /** Crashes come at most five to a streak, and one more. */
  ghost predicate Paced(crashes: seq<bool>) { |crashes| <= Streak(crashes) + MAX_CONSECUTIVE * Healthy(crashes) }

  ghost predicate CountOk(s: State) { Counted(s.failures, s.gaveUps, s.pc, s.attempts, s.crashes, s.delays) }

  ghost predicate Counted(failures: nat, gaveUps: nat, pc: Pc, attempts: nat, crashes: seq<bool>, delays: seq<nat>) {
    && failures == Streak(crashes) <= MAX_CONSECUTIVE + 1
    && gaveUps == (if failures == MAX_CONSECUTIVE + 1 then 1 else 0)
    && (gaveUps == 1 ==> pc.Over?)
    && attempts <= |crashes| + (if pc.Top? || pc.Sleep? || gaveUps == 1 then 0 else 1)
    && (pc.Sleep? ==> 0 < failures <= MAX_CONSECUTIVE && delays != [] && pc.delay == delays[|delays| - 1] == Pow2(failures - 1))
    && (forall d | d in delays :: Doubling(d))
  }

  /** A restart delay, in seconds: the cap of 60 is never reached. */
  predicate Doubling(d: nat) { d == 1 || d == 2 || d == 4 || d == 8 || d == 16 }

  ghost predicate Inv(s: State) { ProcsOk(s) && StopOk(s) && CountOk(s) && Paced(s.crashes) && ForksOk(s) }

  /** At most one process an exec call. */
  ghost predicate ForksOk(s: State) { |s.procs| + (if s.pc.Exec? then 1 else 0) <= s.attempts }

  lemma Doubles(f: nat)
    requires 1 <= f <= MAX_CONSECUTIVE
    ensures Doubling(Pow2(f - 1)) && Min(Pow2(f - 1), BACKOFF_MAX) == Pow2(f - 1)
  {
    assert Pow2(0) == 1 && Pow2(1) == 2 && Pow2(2) == 4 && Pow2(3) == 8 && Pow2(4) == 16;
  }

  /** The crash count, from one crash to the next. */
  lemma OneMoreCrash(crashes: seq<bool>, healthy: bool)
    ensures Streak(crashes + [healthy]) == (if healthy then 0 else Streak(crashes)) + 1
    ensures Streak(crashes) <= MAX_CONSECUTIVE && Paced(crashes) ==> Paced(crashes + [healthy])
  {
    assert (crashes + [healthy])[..|crashes|] == crashes;
  }

  lemma CrashCounted(s: State, rc: Option<int>, healthy: bool)
    requires CountOk(s) && Paced(s.crashes) && (s.pc.Exec? || s.pc.Wait?)
    ensures CountOk(AfterRun(s, rc, healthy)) && Paced(AfterRun(s, rc, healthy).crashes)
  {
    OneMoreCrash(s.crashes, healthy);
    var f := (if healthy then 0 else s.failures) + 1;
    if f <= MAX_CONSECUTIVE {
      Doubles(f);
      CountedSleep(s, f, healthy);
    }
  }

  lemma CountedSleep(s: State, f: nat, healthy: bool)
    requires CountOk(s) && s.gaveUps == 0 && 0 < f <= MAX_CONSECUTIVE && f == Streak(s.crashes + [healthy]) && Doubling(Pow2(f - 1))
    ensures Counted(f, 0, Sleep(Pow2(f - 1)), s.attempts, s.crashes + [healthy], s.delays + [Pow2(f - 1)])
  {
  }

  predicate Runs(l: Step) { l.ExecFails? || l.Waited? }

  /** Only the end of a run touches the counts. */
  lemma OtherSteps(s: State, l: Step)
    requires Inv(s) && Enabled(s, l) && !Runs(l)
    ensures var t := Next(s, l);
            && t.crashes == s.crashes && t.failures == s.failures && t.gaveUps == s.gaveUps && t.delays == s.delays
            && (if t.pc.Exec? && !s.pc.Exec? then t.attempts == s.attempts + 1 && (s.pc.Top? || s.pc.Sleep?)
                else t.attempts == s.attempts && (t.pc.Over? || s.pc == t.pc || s.pc.Exec?))
  {
  }

  lemma CountKept(s: State, l: Step)
    requires Inv(s) && Enabled(s, l)
    ensures CountOk(Next(s, l)) && Paced(Next(s, l).crashes)
  {
    match l {
      case ExecFails(healthy) => CrashCounted(s, None, healthy);
      case Waited(healthy) => CrashCounted(s, Some(s.procs[s.pc.p].rc), healthy);
      case _ => OtherSteps(s, l);
    }
  }

  predicate OfStop(l: Step) { l.StopCall? || l.GraceOver? || l.GraceTimeout? || l.KillOver? || l.Gathered? || l.LateOver? }

  lemma ProcsKeptByStop(s: State, l: Step)
    requires ProcsOk(s) && StopOk(s) && Enabled(s, l) && OfStop(l)
    ensures ProcsOk(Next(s, l))
  {
  }

  lemma ProcsKeptByLoop(s: State, l: Step)
    requires ProcsOk(s) && StopOk(s) && Enabled(s, l) && !OfStop(l)
    ensures ProcsOk(Next(s, l))
  {
  }

  lemma ProcsKept(s: State, l: Step)
    requires ProcsOk(s) && StopOk(s) && Enabled(s, l)
    ensures ProcsOk(Next(s, l))
  {
    if OfStop(l) { ProcsKeptByStop(s, l); } else { ProcsKeptByLoop(s, l); }
  }

  lemma StopKept(s: State, l: Step)
    requires ProcsOk(s) && StopOk(s) && Enabled(s, l)
    ensures StopOk(Next(s, l))
  {
  }

  lemma ForksKept(s: State, l: Step)
    requires ForksOk(s) && Enabled(s, l)
    ensures ForksOk(Next(s, l))
  {
  }

  lemma StepKeepsInv(s: State, l: Step)
    requires Inv(s) && Enabled(s, l)
    ensures Inv(Next(s, l))
  {
    ProcsKept(s, l);
    StopKept(s, l);
    CountKept(s, l);
    ForksKept(s, l);
  }

  lemma {:induction false} Reachable(steps: seq<Step>)
    requires Legal(steps)
    ensures Inv(After(steps))
  {
    if steps != [] {
      Reachable(steps[..|steps| - 1]);
      StepKeepsInv(After(steps[..|steps| - 1]), steps[|steps| - 1]);
    }
  }

  // ---- theorems ----

  /** What follows the end of a process or a failed exec: nothing behind a stop or a
      clean exit, a restart behind the first five crashes of a streak, and giving up
      behind the sixth. */
  lemma RestartsExactly(steps: seq<Step>, l: Step)
    requires Legal(steps) && Enabled(After(steps), l) && (l.Waited? || l.ExecFails?)
    ensures var s := After(steps); var t := Next(s, l);
            var clean := l.Waited? && s.procs[s.pc.p] == Dead(0);
            var crashes := s.crashes + [l.healthy];
            if s.stopping || clean then t == s.(pc := Over)
            else && t.crashes == crashes
                 && if Streak(crashes) > 5 then t.pc.Over? && t.phase.GaveUp? && t.gaveUps == s.gaveUps + 1 && t.delays == s.delays
                    else t.pc.Sleep? && t.phase.Restarting? && t.gaveUps == s.gaveUps && t.delays == s.delays + [t.pc.delay]
  {
    Reachable(steps);
    OneMoreCrash(After(steps).crashes, l.healthy);
  }

  /** However the stop and the loop interleave: when the stop has returned, the loop
      is over and every process the service ever forked is gone, but for an aborted
      fork whose reap the stop itself cancelled: it was sent SIGKILL, and nothing waits
      for it. */
  lemma GoneAfterStop(steps: seq<Step>)
    requires Legal(steps) && After(steps).stop.Returned?
    ensures var s := After(steps);
            && s.pc.Over?
            && (forall p | 0 <= p < |s.procs| :: s.procs[p].Dead? || (s.procs[p].Killed? && s.lost == Some(p)))
            && ((forall p | 0 <= p < |s.procs| :: s.procs[p].Dead?) <==> s.lost.None? || IsDead(s, s.lost.value))
  {
    Reachable(steps);
    var s := After(steps);
    forall p | 0 <= p < |s.procs| ensures s.procs[p].Dead? || (s.procs[p].Killed? && s.lost == Some(p)) {
      if !s.procs[p].Dead? { assert Accounted(s, p); }
    }
  }

  /** The cancelled reap: the fork comes through behind the stop's call, is killed, and
      the stop cancels the wait for it. */
  const ABORTED := [Begin, StopCall, ExecOk, Cancelled, Gathered]

  lemma ReapCancelled()
    ensures Legal(ABORTED)
    ensures var s := After(ABORTED); s.stop.Returned? && s.procs == [Killed] && s.lost == Some(0)
  {
    var a, b, c, d := [Begin], [Begin, StopCall], [Begin, StopCall, ExecOk], [Begin, StopCall, ExecOk, Cancelled];
    assert a[..0] == [] && b[..1] == a && c[..2] == b && d[..3] == c && ABORTED[..4] == d;
    assert Legal(a) && After(a) == Next(Init, Begin);
    assert Legal(b) && After(b) == Next(After(a), StopCall);
    assert Legal(c) && After(c) == Next(After(b), ExecOk);
    assert Legal(d) && After(d) == Next(After(c), Cancelled);
  }

  /** Only a cancelled reap loses a process. */
  lemma LostMeans(s: State, l: Step)
    requires Inv(s) && Enabled(s, l)
    ensures Next(s, l).lost == if l.Cancelled? && s.pc.Reap? then Some(s.pc.aborted) else s.lost
  {
  }

  /** At most one process is alive at any time, and it is the one that is known. */
  lemma OneAlive(steps: seq<Step>, p: nat, q: nat)
    requires Legal(steps) && p < |After(steps).procs| && q < |After(steps).procs|
    requires After(steps).procs[p].Alive? && After(steps).procs[q].Alive?
    ensures p == q && After(steps).proc == Some(p)
  {
    Reachable(steps);
    assert Accounted(After(steps), p) && Accounted(After(steps), q);
  }

  lemma OverStays(s: State, l: Step)
    requires Enabled(s, l) && s.pc.Over?
    ensures var t := Next(s, l);
            t.pc.Over? && |t.procs| == |s.procs| && t.attempts == s.attempts && t.gaveUps == s.gaveUps
  {
  }

  /** A loop that is over forks nothing more, whatever follows. */
  lemma {:induction false} OverForGood(steps: seq<Step>, more: seq<Step>)
    requires Legal(steps) && Legal(steps + more) && After(steps).pc.Over?
    ensures After(steps + more).pc.Over? && |After(steps + more).procs| == |After(steps).procs|
    ensures After(steps + more).attempts == After(steps).attempts && After(steps + more).gaveUps == After(steps).gaveUps
  {
    if more == [] {
      assert steps + more == steps;
    } else {
      var init := more[..|more| - 1];
      assert (steps + more)[..|steps + more| - 1] == steps + init;
      OverForGood(steps, init);
      OverStays(After(steps + init), more[|more| - 1]);
    }
  }

  /** With `h` crashes behind a healthy uptime the service is started, and forks, at most
      6 + 5h times; it gives up once, exactly at six crashes in a row of which none but the
      first came behind a healthy uptime, and nothing is started after that; every
      delay is the doubling of the streak, and below the cap. */
  lemma RestartBound(steps: seq<Step>)
    requires Legal(steps)
    ensures var s := After(steps);
            && |s.procs| <= s.attempts <= 6 + 5 * Healthy(s.crashes)
            && (s.gaveUps == 1 <==> Streak(s.crashes) == 6) && s.gaveUps <= 1
            && (s.gaveUps == 1 ==> s.pc.Over?)
            && (s.pc.Sleep? ==> 1 <= Streak(s.crashes) <= 5 && s.pc.delay == Pow2(Streak(s.crashes) - 1) <= 16)
            && (forall d | d in s.delays :: Doubling(d))
  {
    Reachable(steps);
    var s := After(steps);
    if s.pc.Sleep? { assert s.delays[|s.delays| - 1] in s.delays; }
  }

  // ---- the stop returns ----

  /** The next step of a stop under way: its own, the loop's cancellation, or the exit
      of the process it waits for. */
  function Serving(s: State): Step {
    match s.stop
    case Grace(p) => GraceTimeout
    case KillWait(p) => if IsDead(s, p) then KillOver else Exits(p, -9)
    case Gather => if s.pc.Over? then Gathered else Cancelled
    case LateWait(p) => if IsDead(s, p) then LateOver else Exits(p, -9)
    case _ => StopCall
  }

  /** How many of them are left at most. */
  function Left(s: State): nat {
    match s.stop
    case NotCalled => 8
    case Grace(_) => 7
    case KillWait(p) => if IsDead(s, p) then 5 else 6
    case Gather => if s.pc.Over? then 3 else 4
    case LateWait(p) => if IsDead(s, p) then 1 else 2
    case Returned => 0
  }

  ghost predicate Targeted(s: State) {
    && (s.proc.Some? ==> s.proc.value < |s.procs|)
    && (s.stop.Grace? || s.stop.KillWait? || s.stop.LateWait? ==> s.stop.p < |s.procs|)
  }

  lemma TargetKept(s: State, l: Step)
    requires Targeted(s) && Enabled(s, l)
    ensures Targeted(Next(s, l))
  {
  }

  /** The process the stop waits for was forked. */
  lemma {:induction false} StopTarget(steps: seq<Step>)
    requires Legal(steps)
    ensures Targeted(After(steps))
  {
    if steps != [] {
      StopTarget(steps[..|steps| - 1]);
      TargetKept(After(steps[..|steps| - 1]), steps[|steps| - 1]);
    }
  }

  /** The serving step is open, and one less is left. */
  lemma ServingHelps(s: State)
    requires StopOk(s) && Targeted(s) && s.stopping && !s.stop.Returned?
    ensures Enabled(s, Serving(s)) && Left(Next(s, Serving(s))) < Left(s) && Next(s, Serving(s)).stopping
  {
  }

  /** No other step sets the stop back. */
  lemma NeverBack(s: State, l: Step)
    requires Inv(s) && Targeted(s) && Enabled(s, l) && !s.stop.NotCalled?
    ensures Left(Next(s, l)) <= Left(s) && !Next(s, l).stop.NotCalled?
  {
  }

  /** `n` serving steps, or up to the return. */
  function Served(s: State, n: nat): State
    decreases n
  {
    if n == 0 || s.stop.Returned? || !Enabled(s, Serving(s)) then s else Served(Next(s, Serving(s)), n - 1)
  }

  lemma {:induction false} ServedReturns(s: State)
    requires Inv(s) && Targeted(s) && s.stopping
    ensures Served(s, Left(s)).stop.Returned?
    decreases Left(s)
  {
    if !s.stop.Returned? {
      var t := Next(s, Serving(s));
      ServingHelps(s);
      StepKeepsInv(s, Serving(s));
      TargetKept(s, Serving(s));
      ServedReturns(t);
      ServedMore(t, Left(t), Left(s) - 1);
    }
  }

  lemma {:induction false} ServedMore(s: State, n: nat, m: nat)
    requires n <= m && Served(s, n).stop.Returned?
    ensures Served(s, m).stop.Returned?
    decreases n
  {
    if n > 0 && !s.stop.Returned? && Enabled(s, Serving(s)) { ServedMore(Next(s, Serving(s)), n - 1, m - 1); }
  }

  /** From every reachable state with a stop under way, at most seven serving steps
      bring it to its return; no step of anything else, taken in between, makes it
      more. */
  lemma StopReturns(steps: seq<Step>, l: Step)
    requires Legal(steps) && After(steps).stopping
    ensures Left(After(steps)) <= 7 && Served(After(steps), Left(After(steps))).stop.Returned?
    ensures Enabled(After(steps), l) ==> Left(Next(After(steps), l)) <= Left(After(steps))
  {
    Reachable(steps);
    StopTarget(steps);
    ServedReturns(After(steps));
    if Enabled(After(steps), l) { NeverBack(After(steps), l); }
  }

  // ---- the service's record ----

  class ServiceState {
    var proc: Option<nat>
    var stopping: bool
    var failures: nat
    var phase: Phase
    var delays: seq<nat>
    var gaveUps: nat

    constructor ()
      ensures Is(Init)
    {
      proc, stopping, failures, phase, delays, gaveUps := None, false, 0, Idle, [], 0;
    }

    /** The record is the machine's state. */
    ghost predicate Is(s: State)
      reads this
    {
      && proc == s.proc && stopping == s.stopping && failures == s.failures && phase == s.phase
      && delays == s.delays && gaveUps == s.gaveUps
    }

    /** `_supervise` behind the exec or the wait: the delay before the next start, or
        None when the loop is over. */
    method Crashed(rc: Option<int>, healthy: bool, ghost s: State) returns (delay: Option<nat>)
      requires Is(s)
      modifies this
      ensures Is(AfterRun(s, rc, healthy))
      ensures match AfterRun(s, rc, healthy).pc
              case Sleep(d) => delay == Some(d)
              case Over => delay == None
              case _ => false
    {
      if stopping { return None; }
      if rc == Some(0) { return None; }
      if healthy { failures := 0; }
      failures := failures + 1;
      if failures > MAX_CONSECUTIVE {
        phase := GaveUp;
        gaveUps := gaveUps + 1;
        return None;
      }
      phase := Restarting;
      var d := Min(Pow2(failures - 1), BACKOFF_MAX);
      delays := delays + [d];
      return Some(d);
    }

    /** `_spawn` behind the exec; false: the new process is to be killed and reaped. */
    method Spawned(p: nat, ghost s: State) returns (kept: bool)
      requires Is(s) && p == |s.procs|
      modifies this
      ensures Is(Forked(s)) && (kept <==> Forked(s).pc == Wait(p))
    {
      if stopping { return false; }
      proc, phase := Some(p), Running;
      return true;
    }
  }
}
