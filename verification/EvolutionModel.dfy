/** The self-revision protocol: its durable state (an append-only log, the file
    `current_self.md`, one pending slot), the readers of the log, the pure slot
    transitions, and for every step the list of durable writes it makes, in the
    order it makes them. A crash or an I/O error leaves a prefix of that list.

    `born` (in slots, fallbacks and adopt lines) is a history variable: the log
    index of the line that announced the text. No branch reads it. */
module EvolutionModel {
  import opened Wrappers

  type Text = string

  const COUNTER_ROUND_CAP := 2
  const VERDICT_ERRORS_BOUND := 3
  const ECHO_SIMILARITY := 0.9

  /** What the protocol takes from code it only calls. */
  datatype Rules = Rules(
    floor: int,
    cap: int,
    violates: Text -> bool,            // check_persona_violations
    strip: Text -> Text,               // strip_surfacing_markers
    nfkc: Text -> Text,
    fold: Text -> Text,                // drop punctuation and whitespace
    jaccard: (Text, Text) -> real,
    restates: Text -> bool)            // restatement_overlap against the persona texts

  datatype Cfg = Cfg(maxSurfacings: int, minAgeDays: real, base: real, cap: real)

  datatype Kind = Keeper | Counter | External
  datatype Status = AwaitingSkeptic | AwaitingDoll
  datatype Fallback = Fallback(candidate: Text, rationale: Option<Text>, kind: Kind, born: nat)

  datatype Slot = Slot(
    kind: Kind,
    status: Status,
    candidate: Text,
    createdTs: real,
    rationale: Option<Text>,
    fallback: Option<Fallback>,
    counterRound: nat,
    surfacedCount: nat,
    verdictErrors: nat,
    hwmBefore: Option<nat>,
    notice: Option<Text>,
    lastErrorTs: Option<real>,
    born: nat)

  datatype Event =
    | Adopt(text: Text, oldText: Option<Text>, born: nat)
    | Reject(rejected: Text)
    | Expire(expired: Text, hwmBefore: Option<nat>)
    | Kill(killed: Text)
    | Error
    | Repair
    | ExternalEdit(edit: Option<Text>)
    | Candidate(proposed: Text)
    | CounterLine(rewrite: Text, round: nat)
    | NoChange
    | PinEvent

  datatype Disk = Disk(log: seq<Event>, file: Option<Text>, slot: Option<Slot>)

  datatype Write = Append(e: Event) | PutFile(t: Text) | DelFile | PutSlot(s: Slot) | ClearSlot

  function Apply(d: Disk, w: Write): Disk {
    match w
    case Append(e) => d.(log := d.log + [e])
    case PutFile(t) => d.(file := Some(t))
    case DelFile => d.(file := None)
    case PutSlot(s) => d.(slot := Some(s))
    case ClearSlot => d.(slot := None)
  }

  /** The disk after the first `k` of the writes `ws`. */
  function Exec(d: Disk, ws: seq<Write>, k: nat): Disk
    requires k <= |ws|
  {
    if k == 0 then d else Apply(Exec(d, ws, k - 1), ws[k - 1])
  }

  lemma ExecSteps(d: Disk, ws: seq<Write>)
    ensures |ws| >= 1 ==> Exec(d, ws, 1) == Apply(d, ws[0])
    ensures |ws| >= 2 ==> Exec(d, ws, 2) == Apply(Apply(d, ws[0]), ws[1])
    ensures |ws| >= 3 ==> Exec(d, ws, 3) == Apply(Apply(Apply(d, ws[0]), ws[1]), ws[2])
  {
    if |ws| >= 3 { assert Exec(d, ws, 2) == Apply(Exec(d, ws, 1), ws[1]); }
  }

  // ---- the log's readers ----

  /** Index of the newest `evo_adopt`, -1 when there is none. */
  function LastAdopt(log: seq<Event>): (i: int)
    ensures -1 <= i < |log|
    ensures i >= 0 ==> log[i].Adopt?
    ensures forall j :: i < j < |log| ==> !log[j].Adopt?
  {
    if log == [] then -1
    else if log[|log| - 1].Adopt? then |log| - 1
    else LastAdopt(log[..|log| - 1])
  }

  function Sanctioned(log: seq<Event>): Option<Text> {
    var i := LastAdopt(log);
    if i < 0 then None else Some(log[i].text)
  }

  function AdoptOld(log: seq<Event>): Option<Text> {
    var i := LastAdopt(log);
    if i < 0 then None else log[i].oldText
  }

  predicate Terminal(e: Event) { e.Adopt? || e.Reject? || e.Kill? || e.Expire? }

  predicate EditLine(e: Event) { e.ExternalEdit? && e.edit.Some? }

  /** The newest external edit with a text, unless a terminal line follows it. */
  function OpenEdit(log: seq<Event>): (o: Option<nat>)
    ensures o.Some? ==> o.value < |log| && EditLine(log[o.value])
    ensures o.Some? ==> forall j :: o.value < j < |log| ==> !Terminal(log[j])
  {
    if log == [] then None
    else
      var e := log[|log| - 1];
      if EditLine(e) then Some(|log| - 1)
      else if Terminal(e) then None
      else OpenEdit(log[..|log| - 1])
  }

  function OpenEditText(log: seq<Event>): Option<Text> {
    var o := OpenEdit(log);
    if o.None? then None else log[o.value].edit
  }

  // ---- the checks ----

  predicate Mechanical(r: Rules, t: Text) { r.floor <= |t| <= r.cap && !r.violates(t) }

  predicate Echo(r: Rules, a: Text, b: Text) {
    var (x, y) := (r.nfkc(r.strip(a)), r.nfkc(r.strip(b)));
    r.fold(x) == r.fold(y) || r.jaccard(x, y) >= ECHO_SIMILARITY
  }

  // ---- the pure slot transitions ----

  function KeeperSlot(t: Text, why: Option<Text>, hwm: nat, now: real, born: nat): Slot {
    Slot(Keeper, AwaitingDoll, t, now, why, None, 0, 0, 0, Some(hwm), None, None, born)
  }

  function ExternalSlot(t: Text, now: real, born: nat): Slot {
    Slot(External, AwaitingSkeptic, t, now, None, None, 0, 0, 0, None, None, None, born)
  }

  function ToCounter(s: Slot, t: Text, born: nat): Slot {
    Slot(Counter, AwaitingSkeptic, t, s.createdTs, None,
         Some(Fallback(s.candidate, s.rationale, s.kind, s.born)),
         s.counterRound + 1, 0, 0, s.hwmBefore, None, None, born)
  }

  function RevertToFallback(s: Slot, reason: Text): Slot {
    var f := s.fallback.GetOr(Fallback("", None, Keeper, s.born));
    Slot(f.kind, AwaitingDoll, f.candidate, s.createdTs, f.rationale, None,
         s.counterRound, 0, 0, s.hwmBefore, Some(reason), None, f.born)
  }

  // ---- the file ----

  function ReadFile(d: Disk): Text { d.file.GetOr("") }

  /** `restore_file`: no write when the file already reads as it should. */
  function Restore(d: Disk, sanctioned: Option<Text>): seq<Write> {
    if ReadFile(d) == sanctioned.GetOr("") then []
    else if sanctioned.None? then [DelFile]
    else [PutFile(sanctioned.value)]
  }

  // ---- the tripwire ----

  datatype Divergence = InSync | CrashRepair | AlreadyLogged | NewEdit

  function Classify(file: Text, sanctioned: Option<Text>, adoptOld: Option<Text>,
                    lastEdit: Option<Text>): Divergence
  {
    if file == sanctioned.GetOr("") then InSync
    else if adoptOld.Some? && file == adoptOld.value then CrashRepair
    else if sanctioned.Some? && adoptOld.None? && file == "" then CrashRepair
    else if lastEdit.Some? && file == lastEdit.value then AlreadyLogged
    else NewEdit
  }

  function Diverges(d: Disk): Divergence {
    Classify(ReadFile(d), Sanctioned(d.log), AdoptOld(d.log), OpenEditText(d.log))
  }

  function TripwirePlan(r: Rules, d: Disk, now: real): seq<Write> {
    var file := ReadFile(d);
    var san := Sanctioned(d.log);
    match Diverges(d)
    case InSync => []
    case AlreadyLogged =>
      if d.slot.Some? then []
      else if !Mechanical(r, file) then Restore(d, san)
      else [PutSlot(ExternalSlot(file, now, OpenEdit(d.log).value))]
    case CrashRepair => [Append(Repair)] + Restore(d, san)
    case NewEdit =>
      if !Mechanical(r, file) then [Append(ExternalEdit(None))] + Restore(d, san)
      else if d.slot.Some? then [Append(ExternalEdit(Some(file)))]
      else [Append(ExternalEdit(Some(file))), PutSlot(ExternalSlot(file, now, |d.log|))]
  }

  /** The tripwire run to its end. */
  function Tripwire(r: Rules, d: Disk, now: real): Disk {
    var ws := TripwirePlan(r, d, now);
    Exec(d, ws, |ws|)
  }

  // ---- surfacing ----

  datatype Surfacing = Nothing | Retires | Expires | Shows

  predicate OldEnough(c: Cfg, s: Slot, now: real) { (now - s.createdTs) / 86400.0 >= c.minAgeDays }

  function SurfaceCase(c: Cfg, d: Disk, now: real): Surfacing {
    if d.slot.None? || d.slot.value.status != AwaitingDoll then Nothing
    else
      var s := d.slot.value;
      if Sanctioned(d.log) == Some(s.candidate) then Retires
      else if s.surfacedCount >= c.maxSurfacings && OldEnough(c, s, now) then Expires
      else Shows
  }

  function SurfacePlan(c: Cfg, d: Disk, now: real): seq<Write> {
    match SurfaceCase(c, d, now)
    case Nothing => []
    case Retires => [Append(Repair), ClearSlot]
    case Expires =>
      [Append(Expire(d.slot.value.candidate, d.slot.value.hwmBefore)), ClearSlot]
      + Restore(d, Sanctioned(d.log))
    case Shows =>
      var s := d.slot.value;
      [PutSlot(s.(surfacedCount := s.surfacedCount + 1, notice := None))]
  }

  // ---- the SelfRevision tool ----

  datatype Revision = Refuses | Rejects | Adopts | Counters(proposed: Text)

  /** Which branch of `SelfRevision.run` a call takes. */
  function ReviseCase(r: Rules, d: Disk, latched: bool, surfaced: bool, adopt: bool, text: Text)
    : (v: Revision)
    ensures !v.Refuses? ==> d.slot.Some? && d.slot.value.status == AwaitingDoll && surfaced && !latched
  {
    if latched || d.slot.None? || d.slot.value.status != AwaitingDoll || !surfaced then Refuses
    else if !adopt then Rejects
    else
      var s := d.slot.value;
      var san := Sanctioned(d.log);
      var proposed := r.strip(text);
      if proposed == "" || Echo(r, proposed, s.candidate) then
        if san.Some? && Echo(r, s.candidate, san.value) then Refuses else Adopts
      else if san.Some? && Echo(r, proposed, san.value) then Refuses
      else if s.counterRound >= COUNTER_ROUND_CAP then Refuses
      else if !Mechanical(r, proposed) then Refuses
      else Counters(proposed)
  }

  /** `fileOk`: one of the two attempts at writing the adopted text succeeds. */
  function RevisePlan(d: Disk, v: Revision, fileOk: bool): seq<Write>
    requires !v.Refuses? ==> d.slot.Some?
  {
    match v
    case Refuses => []
    case Rejects => [Append(Reject(d.slot.value.candidate)), ClearSlot] + Restore(d, Sanctioned(d.log))
    case Adopts =>
      var s := d.slot.value;
      var line := Append(Adopt(s.candidate, Sanctioned(d.log), s.born));
      if fileOk then [line, PutFile(s.candidate), ClearSlot] else [line, Append(Error), ClearSlot]
    case Counters(t) =>
      [Append(CounterLine(t, d.slot.value.counterRound + 1)),
       PutSlot(ToCounter(d.slot.value, t, |d.log|))]
  }

  // ---- the skeptic's verdict (Mode B), on the slot read before the await ----

  datatype Verdict = Passed | Killed(reason: Text) | Failed

  function Strike(s: Slot, now: real): Slot {
    s.(verdictErrors := s.verdictErrors + 1, lastErrorTs := Some(now))
  }

  predicate StrikesOut(s: Slot) { s.verdictErrors + 1 >= VERDICT_ERRORS_BOUND }

  function JudgePlan(d: Disk, s: Slot, was: Option<Text>, v: Verdict, now: real): seq<Write> {
    match v
    case Failed =>
      if StrikesOut(s) then [Append(Expire(s.candidate, s.hwmBefore)), ClearSlot] + Restore(d, was)
      else [Append(Error), PutSlot(Strike(s, now))]
    case Passed => [PutSlot(s.(status := AwaitingDoll))]
    case Killed(reason) =>
      if s.kind.Counter? then [Append(Kill(s.candidate)), PutSlot(RevertToFallback(s, reason))]
      else [Append(Kill(s.candidate)), ClearSlot] + Restore(d, was)
  }

  // ---- the keeper's pass (Mode A) ----

  datatype Report = Broken | Unchanged | Proposes(text: Text, why: Option<Text>)
  datatype Result = PassError | PassNoChange | PassKill(killed: Text) | PassCandidate(text: Text, why: Option<Text>)

  /** `run_evolution_pass` up to the slot re-check: the keeper's first report,
      the report after the restatement feedback, and the full skeptic. */
  function PassResult(r: Rules, first: Report, second: Report, verdict: Verdict): (p: Result)
    ensures p.PassCandidate? ==> Mechanical(r, p.text) && !r.restates(p.text) && verdict.Passed?
    ensures p.PassCandidate? ==> Proposes(p.text, p.why) == if first.Proposes? && !r.restates(first.text) then first else second
  {
    match first
    case Broken => PassError
    case Unchanged => PassNoChange
    case Proposes(t, why) =>
      if !Mechanical(r, t) then PassKill(t)
      else if !r.restates(t) then Reviewed(t, why, verdict)
      else match second
        case Broken => PassKill(t)
        case Unchanged => PassNoChange
        case Proposes(u, why2) =>
          if !Mechanical(r, u) || r.restates(u) then PassKill(u) else Reviewed(u, why2, verdict)
  }

  function Reviewed(t: Text, why: Option<Text>, verdict: Verdict): Result {
    match verdict
    case Failed => PassError
    case Killed(_) => PassKill(t)
    case Passed => PassCandidate(t, why)
  }

  datatype Outcome = OutError | OutNoChange | OutKill | OutCandidate

  /** The pass's last, await-free segment: re-check the slot, then log, then write it. */
  function KeepPlan(d: Disk, p: Result, hwm: nat, now: real): seq<Write> {
    match p
    case PassError => [Append(Error)]
    case PassNoChange => [Append(NoChange)]
    case PassKill(t) => [Append(Kill(t))]
    case PassCandidate(t, why) =>
      if d.slot.Some? then [Append(Kill(t))]
      else [Append(Candidate(t)), PutSlot(KeeperSlot(t, why, hwm, now, |d.log|))]
  }

  function KeepOutcome(d: Disk, p: Result): Outcome {
    match p
    case PassError => OutError
    case PassNoChange => OutNoChange
    case PassKill(_) => OutKill
    case PassCandidate(_, _) => if d.slot.Some? then OutKill else OutCandidate
  }

  function Min(a: real, b: real): real { if a <= b then a else b }

  datatype Mind = Mind(hwm: nat, interval: real)

  function Slower(c: Cfg, m: Mind): Mind { m.(interval := Min(m.interval * 2.0, c.cap)) }

  /** `_apply_mode_a_bookkeeping`. */
  function Book(c: Cfg, m: Mind, o: Outcome, off: nat): Mind {
    match o
    case OutError => m
    case OutNoChange => Slower(c, m).(hwm := off)
    case OutKill => Slower(c, m).(hwm := off)
    case OutCandidate => m.(hwm := off)
  }

  /** The decision bookkeeping of SelfRevision: external slots leave the interval. */
  function Decided(c: Cfg, m: Mind, k: Kind, v: Revision): Mind {
    if k.External? then m
    else if v.Adopts? then m.(interval := c.base)
    else if v.Rejects? then Slower(c, m)
    else m
  }

  /** An expiry gives the evidence of the pass behind the slot back. */
  function GiveBack(m: Mind, s: Slot): Mind {
    if s.hwmBefore.Some? then m.(hwm := s.hwmBefore.value) else m
  }
}
