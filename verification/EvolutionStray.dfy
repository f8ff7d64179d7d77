/** The turns in which an adoption was not shown are real: a run of the daemon, with
    the trigger's own gates, that ends in one. */
module EvolutionStray {
  import opened Wrappers
  import opened EvolutionModel
  import opened EvolutionMachine

  const DAY := 86400.0
  const ERROR_COOLDOWN := 3600.0

  datatype Gates = Gates(idle: real, minPins: nat, minDiaryDays: nat)

  /** The trigger's clocks; `now`: the last step. */
  datatype Clock = Clock(now: real, user: real, iter: real, attempt: real, error: real, skeptic: Option<real>, began: real)

  /** A step at its time, and what else the gates read then. */
  datatype Timed = Timed(l: Label, at: real, consolidating: bool, diaryDays: nat)

  function Max(a: real, b: real): real { if a >= b then a else b }

  /** `count_new_pin_events`. */
  function Pins(log: seq<Event>, from: nat): nat {
    if |log| <= from then 0
    else Pins(log[..|log| - 1], from) + if log[|log| - 1].PinEvent? then 1 else 0
  }

  /** `_should_reverdict`. */
  predicate ModeB(g: Gates, s: State, w: Clock, t: Timed) {
    && t.at - Max(w.user, w.iter) >= g.idle && !t.consolidating
    && s.disk.slot.Some? && s.disk.slot.value.status.AwaitingSkeptic?
    && (s.disk.slot.value.lastErrorTs.Some? ==> t.at - s.disk.slot.value.lastErrorTs.value >= ERROR_COOLDOWN)
    && (w.skeptic.Some? ==> t.at - w.skeptic.value >= ERROR_COOLDOWN)
  }

  /** `_should_run_mode_a`. */
  predicate ModeA(g: Gates, s: State, w: Clock, t: Timed) {
    && t.at - Max(w.user, w.iter) >= g.idle
    && t.at - w.attempt >= s.mind.interval * DAY
    && (Pins(s.disk.log, s.mind.hwm) >= g.minPins || t.diaryDays >= g.minDiaryDays)
    && !t.consolidating && s.disk.slot.None? && t.at - w.error >= ERROR_COOLDOWN
  }

  /** The step may happen now: enabled, in time, behind its gate, and the process
      survives it. A pass works with the time it began. */
  predicate Open(g: Gates, s: State, w: Clock, t: Timed) {
    && Enabled(s, t.l) && w.now <= t.at
    && match t.l
       case KeepBegin => !ModeB(g, s, w, t) && ModeA(g, s, w, t)
       case JudgeBegin => ModeB(g, s, w, t)
       case RunTripwire(now, f) => now == t.at && !f.Crashes?
       case RunSurface(now, f) => now == t.at && !f.Crashes?
       case JudgeEnd(_, now, f) => now == t.at && !f.Crashes?
       case KeepEnd(_, _, _, now, f) => now == w.began && !f.Crashes?
       case Revise(_, _, _, f) => !f.Crashes?
       case Crash => false
       case _ => true
  }

  /** The clocks behind the step. */
  function Tick(c: Cfg, r: Rules, s: State, w: Clock, t: Timed): Clock
    requires Enabled(s, t.l)
  {
    var v := w.(now := t.at);
    match t.l
    case EndTurn => v.(iter := t.at)
    case KeepBegin => v.(began := t.at)
    case KeepEnd(a, b, verdict, now, f) =>
      if Completes(f, KeepPlan(s.disk, PassResult(r, a, b, verdict), s.trig.hwm, now)) then v else v.(error := t.at)
    case KeepBook => if s.trig.outcome.OutError? then v.(error := w.began) else v.(attempt := w.began)
    case RunSurface(now, f) =>
      if SurfaceCase(c, s.disk, now).Expires? && Completes(f, SurfacePlan(c, s.disk, now)) then v.(attempt := t.at) else v
    case JudgeEnd(verdict, now, f) =>
      if !verdict.Failed? then v.(skeptic := None)
      else if StrikesOut(s.trig.slot) && Completes(f, JudgePlan(s.disk, s.trig.slot, s.trig.was, verdict, now))
      then v.(skeptic := Some(t.at), attempt := t.at)
      else v.(skeptic := Some(t.at))
    case Revise(adopt, text, fileOk, f) =>
      var case_ := ReviseCase(r, s.disk, s.turn.value.latched, s.turn.value.surfaced, adopt, text);
      if (case_.Adopts? || case_.Rejects?) && Completes(f, RevisePlan(s.disk, case_, fileOk)) then v.(attempt := t.at) else v
    case _ => v
  }

  /** The daemon at a moment: its state and its clocks. */
  datatype Moment = Moment(s: State, w: Clock)

  function Boot(c: Cfg): Moment { Moment(InitState(c), Clock(0.0, 0.0, 0.0, 0.0, 0.0, None, 0.0)) }

  /** A run in which every step was open. */
  predicate Gated(c: Cfg, r: Rules, g: Gates, ts: seq<Timed>)
    decreases |ts|, 0
  {
    ts == [] ||
    (Gated(c, r, g, ts[..|ts| - 1])
     && var m := At(c, r, g, ts[..|ts| - 1]); Open(g, m.s, m.w, ts[|ts| - 1]))
  }

  function At(c: Cfg, r: Rules, g: Gates, ts: seq<Timed>): Moment
    requires Gated(c, r, g, ts)
    decreases |ts|, 1
  {
    if ts == [] then Boot(c)
    else
      var m, t := At(c, r, g, ts[..|ts| - 1]), ts[|ts| - 1];
      Moment(Next(c, r, m.s, t.l), Tick(c, r, m.s, m.w, t))
  }

  function Labels(ts: seq<Timed>): seq<Label> {
    if ts == [] then [] else Labels(ts[..|ts| - 1]) + [ts[|ts| - 1].l]
  }

  /** A gated run is a run. */
  lemma {:induction false} GatedLegal(c: Cfg, r: Rules, g: Gates, ts: seq<Timed>)
    requires Gated(c, r, g, ts)
    ensures Legal(c, r, InitState(c), Labels(ts)) && After(c, r, InitState(c), Labels(ts)) == At(c, r, g, ts).s
  {
    if ts != [] {
      GatedLegal(c, r, g, ts[..|ts| - 1]);
      Extend(c, r, InitState(c), Labels(ts[..|ts| - 1]), ts[|ts| - 1].l);
    }
  }

  lemma Extend(c: Cfg, r: Rules, s: State, ls: seq<Label>, l: Label)
    requires Legal(c, r, s, ls) && Enabled(After(c, r, s, ls), l)
    ensures Legal(c, r, s, ls + [l])
    ensures After(c, r, s, ls + [l]) == Next(c, r, After(c, r, s, ls), l)
    decreases |ls|
  {
    if ls == [] {
      assert ([] + [l])[1..] == [] && Legal(c, r, Next(c, r, s, l), []);
    } else {
      Extend(c, r, Next(c, r, s, ls[0]), ls[1..], l);
      assert (ls + [l])[1..] == ls[1..] + [l];
    }
  }

  /** The run `ts` leads to the moment `m`. */
  ghost predicate Leads(c: Cfg, r: Rules, g: Gates, ts: seq<Timed>, m: Moment) {
    Gated(c, r, g, ts) && At(c, r, g, ts) == m
  }

  lemma Then(c: Cfg, r: Rules, g: Gates, ts: seq<Timed>, m: Moment, t: Timed, m2: Moment)
    requires Leads(c, r, g, ts, m) && Open(g, m.s, m.w, t)
    requires m2 == Moment(Next(c, r, m.s, t.l), Tick(c, r, m.s, m.w, t))
    ensures Leads(c, r, g, ts + [t], m2)
  {
    assert (ts + [t])[..|ts|] == ts;
  }

  // ---- pins ----

  function PinLines(n: nat): (r: seq<Event>)
    ensures |r| == n && forall e | e in r :: e.PinEvent?
  {
    if n == 0 then [] else PinLines(n - 1) + [PinEvent]
  }

  lemma {:induction false} PinsMore(log: seq<Event>, n: nat, from: nat)
    requires from <= |log|
    ensures Pins(log + PinLines(n), from) == Pins(log, from) + n
  {
    if n == 0 {
      assert log + PinLines(0) == log;
    } else {
      var l := log + PinLines(n);
      assert l[..|l| - 1] == log + PinLines(n - 1);
      PinsMore(log, n - 1, from);
    }
  }

  lemma PinsOne(log: seq<Event>, e: Event, from: nat)
    requires from <= |log|
    ensures Pins(log + [e], from) == Pins(log, from) + if e.PinEvent? then 1 else 0
  {
    assert (log + [e])[..|log|] == log;
  }

  function Step(l: Label, at: real): Timed { Timed(l, at, false, 0) }

  function Pinning(n: nat, at: real): seq<Timed> {
    if n == 0 then [] else Pinning(n - 1, at) + [Step(Pin, at)]
  }

  function Pinned(m: Moment, n: nat, at: real): Moment {
    if n == 0 then m else Moment(m.s.(disk := m.s.disk.(log := m.s.disk.log + PinLines(n))), m.w.(now := at))
  }

  lemma {:induction false} PinRun(c: Cfg, r: Rules, g: Gates, ts: seq<Timed>, m: Moment, n: nat, at: real)
    requires Leads(c, r, g, ts, m) && m.w.now <= at
    ensures Leads(c, r, g, ts + Pinning(n, at), Pinned(m, n, at))
  {
    if n == 0 {
      assert ts + [] == ts;
    } else {
      PinRun(c, r, g, ts, m, n - 1, at);
      var before := Pinned(m, n - 1, at);
      assert m.s.disk.log + PinLines(n) == before.s.disk.log + [PinEvent] by {
        if n == 1 { assert PinLines(0) == []; }
      }
      Then(c, r, g, ts + Pinning(n - 1, at), before, Step(Pin, at), Pinned(m, n, at));
      assert ts + Pinning(n - 1, at) + [Step(Pin, at)] == ts + Pinning(n, at);
    }
  }

  // ---- the run ----

  predicate Takes(r: Rules, t: Text) { Mechanical(r, t) && !r.restates(t) }

  /** `a` is offered at `t1`; at `t2` a turn shows it while the file is edited to `x`;
      its reject clears the slot and fails at restoring the file; a second pass lands
      within the same turn and offers `b`, which that turn adopts. */
  datatype Story = Story(n: nat, a: Text, b: Text, x: Text, t1: real, t2: real)

  predicate Told(c: Cfg, r: Rules, g: Gates, y: Story) {
    && Takes(r, y.a) && Takes(r, y.b) && y.x != "" && r.strip("") == "" && c.maxSurfacings > 0
    && y.n >= g.minPins
    && 0.0 <= y.t1 <= y.t2 && y.t1 >= g.idle && y.t2 >= g.idle && y.t1 >= ERROR_COOLDOWN
    && y.t1 >= c.base * DAY && y.t2 - y.t1 >= c.base * DAY
  }

  function Log1(y: Story): seq<Event> { PinLines(y.n) + [Candidate(y.a)] }
  function Log2(y: Story): seq<Event> { Log1(y) + PinLines(y.n) }
  function Log3(y: Story): seq<Event> { Log2(y) + [Reject(y.a)] }
  function Log4(y: Story): seq<Event> { Log3(y) + [Candidate(y.b)] }

  function SlotA(y: Story): Slot { KeeperSlot(y.a, None, 0, y.t1, y.n) }
  function SlotB(y: Story): Slot { KeeperSlot(y.b, None, y.n, y.t2, 2 * y.n + 2) }

  function MindAt(c: Cfg, hwm: nat): Mind { Mind(hwm, c.base) }

  /** The moment before step `k` of the run's last part. */
  function Scene(c: Cfg, y: Story, k: nat): Moment
    requires k <= 7
  {
    var m := MindAt(c, y.n);
    var w := Clock(y.t2, 0.0, 0.0, y.t1, 0.0, None, y.t1);
    var t0 := [Judged(y.n), Began(1)];
    var t1 := t0 + [Shown(y.n, 1)];
    var t2 := t1 + [Stray(1)];
    var shown := SlotA(y).(surfacedCount := 1);
    var live := Some(Turn(1, Live, true, false));
    match k
    case 0 => Moment(State(Disk(Log2(y), None, Some(SlotA(y))), m, m, Some(Turn(1, Opened, false, false)), Idle, t0), w)
    case 1 => Moment(State(Disk(Log2(y), None, Some(SlotA(y))), m, m, Some(Turn(1, Wired, false, false)), Idle, t0), w)
    case 2 => Moment(State(Disk(Log2(y), None, Some(shown)), m, m, live, Idle, t1), w)
    case 3 => Moment(State(Disk(Log2(y), Some(y.x), Some(shown)), m, m, live, Idle, t1), w)
    case 4 => Moment(State(Disk(Log3(y), Some(y.x), None), m, m, live, Idle, t2), w)
    case 5 => Moment(State(Disk(Log3(y), Some(y.x), None), m, m, live, Keeping(y.n, 2 * y.n + 2), t2), w.(began := y.t2))
    case 6 => Moment(State(Disk(Log4(y), Some(y.x), Some(SlotB(y))), m, m, live, Booking(OutCandidate, 2 * y.n + 2), t2 + [Judged(2 * y.n + 2)]),
                     w.(began := y.t2))
    case 7 => Moment(State(Disk(Log4(y) + [Adopt(y.b, None, 2 * y.n + 2)], Some(y.b), None), m, m, Some(Turn(1, Live, true, true)),
                           Booking(OutCandidate, 2 * y.n + 2), t2 + [Judged(2 * y.n + 2), Took(2 * y.n + 3, 1)]),
                     w.(began := y.t2, attempt := y.t2))
  }

  function Act(y: Story, k: nat): Label
    requires k <= 6
  {
    match k
    case 0 => RunTripwire(y.t2, Clean)
    case 1 => RunSurface(y.t2, Clean)
    case 2 => Edit(Some(y.x))
    case 3 => Revise(false, "", true, Raises(2))
    case 4 => KeepBegin
    case 5 => KeepEnd(Proposes(y.b, None), Broken, Passed, y.t2, Clean)
    case 6 => Revise(true, "", true, Clean)
  }

  lemma NoAdoption(log: seq<Event>)
    requires forall i | 0 <= i < |log| :: !log[i].Adopt?
    ensures LastAdopt(log) == -1
  {
  }

  lemma Quiet2(y: Story)
    ensures LastAdopt(Log2(y)) == LastAdopt(Log3(y)) == LastAdopt(Log4(y)) == -1
    ensures |Log1(y)| == y.n + 1 && |Log2(y)| == 2 * y.n + 1 && |Log3(y)| == 2 * y.n + 2
    ensures Pins(Log3(y), y.n) == y.n
  {
    forall i | 0 <= i < |Log4(y)| ensures !Log4(y)[i].Adopt? {
      if i < y.n { assert PinLines(y.n)[i] in PinLines(y.n); }
      if y.n < i < 2 * y.n + 1 { assert PinLines(y.n)[i - y.n - 1] in PinLines(y.n); }
    }
    assert forall i | 0 <= i < |Log3(y)| :: Log3(y)[i] == Log4(y)[i];
    assert forall i | 0 <= i < |Log2(y)| :: Log2(y)[i] == Log4(y)[i];
    NoAdoption(Log2(y));
    NoAdoption(Log3(y));
    NoAdoption(Log4(y));
    PinsOne(PinLines(y.n), Candidate(y.a), y.n);
    PinsMore(Log1(y), y.n, y.n);
    PinsOne(Log2(y), Reject(y.a), y.n);
  }

  lemma Scenes(c: Cfg, r: Rules, g: Gates, y: Story, k: nat)
    requires Told(c, r, g, y) && k <= 6
    ensures var m := Scene(c, y, k); var t := Step(Act(y, k), y.t2);
            Open(g, m.s, m.w, t) && Scene(c, y, k + 1) == Moment(Next(c, r, m.s, t.l), Tick(c, r, m.s, m.w, t))
  {
    Quiet2(y);
    if k == 0 || k == 2 {
    } else if k == 1 {
      SceneShows(c, r, g, y);
    } else if k == 3 {
      SceneRejects(c, r, g, y);
    } else if k == 4 {
      SceneBegins(c, r, g, y);
    } else if k == 5 {
      ScenePasses(c, r, g, y);
    } else {
      SceneAdopts(c, r, g, y);
    }
  }

  lemma SceneShows(c: Cfg, r: Rules, g: Gates, y: Story)
    requires Told(c, r, g, y)
    ensures var m := Scene(c, y, 1); var t := Step(Act(y, 1), y.t2);
            Open(g, m.s, m.w, t) && Scene(c, y, 2) == Moment(Next(c, r, m.s, t.l), Tick(c, r, m.s, m.w, t))
  {
    Quiet2(y);
    var d := Scene(c, y, 1).s.disk;
    ExecSteps(d, SurfacePlan(c, d, y.t2));
  }

  /** The reject's two writes before the one that fails. */
  lemma RejectionWrites(y: Story, d: Disk)
    requires d == Disk(Log2(y), Some(y.x), Some(SlotA(y).(surfacedCount := 1))) && y.x != ""
    ensures var ws := RevisePlan(d, Rejects, true);
            |ws| == 3 && Exec(d, ws, 2) == Disk(Log3(y), Some(y.x), None)
  {
    Quiet2(y);
    ExecSteps(d, RevisePlan(d, Rejects, true));
  }

  lemma SceneRejects(c: Cfg, r: Rules, g: Gates, y: Story)
    requires Told(c, r, g, y)
    ensures var m := Scene(c, y, 3); var t := Step(Act(y, 3), y.t2);
            Open(g, m.s, m.w, t) && Scene(c, y, 4) == Moment(Next(c, r, m.s, t.l), Tick(c, r, m.s, m.w, t))
  {
    var s := Scene(c, y, 3).s;
    RejectionWrites(y, s.disk);
    assert ReviseCase(r, s.disk, false, true, false, "") == Rejects;
  }

  lemma SceneBegins(c: Cfg, r: Rules, g: Gates, y: Story)
    requires Told(c, r, g, y)
    ensures var m := Scene(c, y, 4); var t := Step(Act(y, 4), y.t2);
            Open(g, m.s, m.w, t) && Scene(c, y, 5) == Moment(Next(c, r, m.s, t.l), Tick(c, r, m.s, m.w, t))
  {
    Quiet2(y);
  }

  lemma ScenePasses(c: Cfg, r: Rules, g: Gates, y: Story)
    requires Told(c, r, g, y)
    ensures var m := Scene(c, y, 5); var t := Step(Act(y, 5), y.t2);
            Open(g, m.s, m.w, t) && Scene(c, y, 6) == Moment(Next(c, r, m.s, t.l), Tick(c, r, m.s, m.w, t))
  {
    Quiet2(y);
    var d := Scene(c, y, 5).s.disk;
    ExecSteps(d, KeepPlan(d, PassCandidate(y.b, None), y.n, y.t2));
  }

  /** The adoption's three writes. */
  lemma AdoptionWrites(y: Story, d: Disk)
    requires d == Disk(Log4(y), Some(y.x), Some(SlotB(y)))
    ensures var ws := RevisePlan(d, Adopts, true);
            |ws| == 3 && Exec(d, ws, 3) == Disk(Log4(y) + [Adopt(y.b, None, 2 * y.n + 2)], Some(y.b), None)
  {
    Quiet2(y);
    ExecSteps(d, RevisePlan(d, Adopts, true));
  }

  lemma SceneAdopts(c: Cfg, r: Rules, g: Gates, y: Story)
    requires Told(c, r, g, y)
    ensures var m := Scene(c, y, 6); var t := Step(Act(y, 6), y.t2);
            Open(g, m.s, m.w, t) && Scene(c, y, 7) == Moment(Next(c, r, m.s, t.l), Tick(c, r, m.s, m.w, t))
  {
    var s := Scene(c, y, 6).s;
    Quiet2(y);
    AdoptionWrites(y, s.disk);
    assert ReviseCase(r, s.disk, false, true, true, "") == Adopts;
    assert |Log4(y)| == 2 * y.n + 3;
  }

  // ---- its beginning ----

  /** The first pass. */
  function Before(c: Cfg, y: Story, k: nat): Moment
    requires k <= 3
  {
    var m0, m := MindAt(c, 0), MindAt(c, y.n);
    var w := Clock(y.t1, 0.0, 0.0, 0.0, 0.0, None, y.t1);
    match k
    case 0 => Pinned(Boot(c), y.n, y.t1)
    case 1 => Moment(State(Disk(PinLines(y.n), None, None), m0, m0, None, Keeping(0, y.n), []), w)
    case 2 => Moment(State(Disk(Log1(y), None, Some(SlotA(y))), m0, m0, None, Booking(OutCandidate, y.n), [Judged(y.n)]), w)
    case 3 => Moment(State(Disk(Log1(y), None, Some(SlotA(y))), m, m, None, Idle, [Judged(y.n)]), w.(attempt := y.t1))
  }

  function First(y: Story, k: nat): Label
    requires k <= 2
  {
    match k case 0 => KeepBegin case 1 => KeepEnd(Proposes(y.a, None), Broken, Passed, y.t1, Clean) case 2 => KeepBook
  }

  lemma FirstPass(c: Cfg, r: Rules, g: Gates, y: Story, k: nat)
    requires Told(c, r, g, y) && k <= 2
    ensures var m := Before(c, y, k); var t := Step(First(y, k), y.t1);
            Open(g, m.s, m.w, t) && Before(c, y, k + 1) == Moment(Next(c, r, m.s, t.l), Tick(c, r, m.s, m.w, t))
  {
    if k == 0 {
      FirstBegins(c, r, g, y);
    } else if k == 1 {
      FirstEnds(c, r, g, y);
    }
  }

  lemma FirstBegins(c: Cfg, r: Rules, g: Gates, y: Story)
    requires Told(c, r, g, y)
    ensures var m := Before(c, y, 0); var t := Step(KeepBegin, y.t1);
            Open(g, m.s, m.w, t) && Before(c, y, 1) == Moment(Next(c, r, m.s, t.l), Tick(c, r, m.s, m.w, t))
  {
    PinsMore([], y.n, 0);
    assert [] + PinLines(y.n) == PinLines(y.n);
    assert Before(c, y, 0).s.disk == Disk(PinLines(y.n), None, None);
  }

  lemma FirstEnds(c: Cfg, r: Rules, g: Gates, y: Story)
    requires Told(c, r, g, y)
    ensures var m := Before(c, y, 1); var t := Step(First(y, 1), y.t1);
            Open(g, m.s, m.w, t) && Before(c, y, 2) == Moment(Next(c, r, m.s, t.l), Tick(c, r, m.s, m.w, t))
  {
    var d := Before(c, y, 1).s.disk;
    ExecSteps(d, KeepPlan(d, PassCandidate(y.a, None), 0, y.t1));
  }

  function BeforeRun(y: Story, k: nat): seq<Timed>
    requires k <= 3
  {
    if k == 0 then Pinning(y.n, y.t1) else BeforeRun(y, k - 1) + [Step(First(y, k - 1), y.t1)]
  }

  function SceneRun(y: Story, k: nat): seq<Timed>
    requires k <= 7
  {
    if k == 0 then BeforeRun(y, 3) + Pinning(y.n, y.t2) + [Step(BeginTurn, y.t2)]
    else SceneRun(y, k - 1) + [Step(Act(y, k - 1), y.t2)]
  }

  lemma {:induction false} BeforeLeads(c: Cfg, r: Rules, g: Gates, y: Story, k: nat)
    requires Told(c, r, g, y) && k <= 3
    ensures Leads(c, r, g, BeforeRun(y, k), Before(c, y, k))
  {
    if k == 0 {
      assert Leads(c, r, g, [], Boot(c));
      PinRun(c, r, g, [], Boot(c), y.n, y.t1);
      assert [] + Pinning(y.n, y.t1) == Pinning(y.n, y.t1);
    } else {
      BeforeLeads(c, r, g, y, k - 1);
      FirstPass(c, r, g, y, k - 1);
      Then(c, r, g, BeforeRun(y, k - 1), Before(c, y, k - 1), Step(First(y, k - 1), y.t1), Before(c, y, k));
    }
  }

  lemma TurnOpens(c: Cfg, r: Rules, g: Gates, y: Story)
    requires Told(c, r, g, y)
    ensures Leads(c, r, g, SceneRun(y, 0), Scene(c, y, 0))
  {
    var m := Pinned(Before(c, y, 3), y.n, y.t2);
    BeforeLeads(c, r, g, y, 3);
    PinRun(c, r, g, BeforeRun(y, 3), Before(c, y, 3), y.n, y.t2);
    assert Log1(y) + PinLines(0) == Log1(y) by { assert PinLines(0) == []; }
    Then(c, r, g, BeforeRun(y, 3) + Pinning(y.n, y.t2), m, Step(BeginTurn, y.t2), Scene(c, y, 0));
  }

  lemma {:induction false} SceneLeads(c: Cfg, r: Rules, g: Gates, y: Story, k: nat)
    requires Told(c, r, g, y) && k <= 7
    ensures Leads(c, r, g, SceneRun(y, k), Scene(c, y, k))
  {
    if k == 0 {
      TurnOpens(c, r, g, y);
    } else {
      SceneLeads(c, r, g, y, k - 1);
      Scenes(c, r, g, y, k - 1);
      Then(c, r, g, SceneRun(y, k - 1), Scene(c, y, k - 1), Step(Act(y, k - 1), y.t2), Scene(c, y, k));
    }
  }

  /** The newest line adopts `b`, which no turn was ever shown. */
  ghost predicate UnseenAdoption(s: State, b: Text) {
    && s.disk.log != [] && s.disk.log[|s.disk.log| - 1].Adopt? && s.disk.log[|s.disk.log| - 1].text == b
    && s.disk.file == Some(b)
    && forall t | 0 <= t < |s.trace| && s.trace[t].Shown? :: s.trace[t].born != s.disk.log[|s.disk.log| - 1].born
  }

  /** For any two texts that pass the checks, whatever the gates: behind a reject that
      failed half-way a turn can adopt a text that was never shown. */
  lemma AdoptsUnseen(c: Cfg, r: Rules, g: Gates, a: Text, b: Text, x: Text)
    requires Takes(r, a) && Takes(r, b) && x != "" && r.strip("") == "" && c.maxSurfacings > 0
    ensures exists ts :: Gated(c, r, g, ts) && UnseenAdoption(At(c, r, g, ts).s, b)
  {
    var wait := Max(0.0, c.base * DAY) + Max(0.0, g.idle) + ERROR_COOLDOWN;
    var y := Story(g.minPins, a, b, x, wait, wait + wait);
    SceneLeads(c, r, g, y, 7);
    assert Gated(c, r, g, SceneRun(y, 7)) && UnseenAdoption(At(c, r, g, SceneRun(y, 7)).s, b);
  }
}
