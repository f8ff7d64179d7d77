/** Who a turn acts for, what it is shown and what it may run. */
module Permissions {
  datatype Principal = Owner | OwnerDm | Internal | ExternalPublic
  datatype Kind = Conversation | Reflection | Diary | Agenda | Pulse | SafeModeKind | Worker | Keeper

  function Rank(p: Principal): nat {
    match p case Owner => 0 case OwnerDm => 1 case Internal => 2 case ExternalPublic => 3
  }

  function OriginTier(p: Principal): string {
    match p case Owner => "internal" case OwnerDm => "external_dm"
            case Internal => "internal" case ExternalPublic => "external_public"
  }

  const ALL := {Owner, OwnerDm, Internal, ExternalPublic}
  const OWNER := {Owner, OwnerDm}
  const TRUSTED := {Owner, OwnerDm, Internal}

  datatype Tool =
    | Recall | NoteMemory | WriteDiary | PinSelf | LearnName | WriteSchedule | Shell | InvokeSkill
    | SpawnWorkflow | ReadToolOutput | Scratchpad | SetFocus | OpenLoop | CloseLoop | MoodTool
    | PursueGoal | AdvanceGoal | NoteToolLesson | SelfRevision | Report | EditOwnerProfile
    | Remote(name: string)          // a connected server's tool

  /** TOOL_MATRIX: who may ever run a built-in tool. */
  function Row(t: Tool): set<Principal> {
    match t
    case Recall => ALL case NoteMemory => ALL case WriteDiary => ALL
    case LearnName => OWNER
    case Remote(_) => {}
    case _ => TRUSTED
  }

  predicate Tainted(t: Tool) { (ExternalPublic in Row(t) && t != WriteDiary) || t == Report }

  // ---- principals ----

  datatype Author = NoAuthor | UserSpoke | Channel(isOwner: bool, isDm: bool)

  function AuthorPrincipal(a: Author): Principal
    requires !a.NoAuthor?
  {
    if a.UserSpoke? then Owner else if a.isOwner && a.isDm then OwnerDm else ExternalPublic
  }

  /** The lowest-trust author of the batch, `internal` when it has none. */
  function PrincipalOf(batch: seq<Author>): (p: Principal)
    ensures (exists a | a in batch :: !a.NoAuthor?) ==>
              && (exists a | a in batch :: !a.NoAuthor? && AuthorPrincipal(a) == p)
              && (forall a | a in batch && !a.NoAuthor? :: Rank(AuthorPrincipal(a)) <= Rank(p))
    ensures (forall a | a in batch :: a.NoAuthor?) ==> p == Internal
  {
    if batch == [] then Internal
    else
      var rest := PrincipalOf(batch[1..]);
      if batch[0].NoAuthor? then rest
      else
        var p := AuthorPrincipal(batch[0]);
        if (forall a | a in batch[1..] :: a.NoAuthor?) || Rank(p) > Rank(rest) then p else rest
  }

  /** One message that is not the owner's own direct message makes the turn a
      stranger's: the owner's in a public channel does. */
  lemma StrangersTurn(batch: seq<Author>)
    ensures PrincipalOf(batch) == ExternalPublic <==> exists a | a in batch :: a.Channel? && !(a.isOwner && a.isDm)
  {
    if a :| a in batch && a.Channel? && !(a.isOwner && a.isDm) {
      assert AuthorPrincipal(a) == ExternalPublic;
    }
  }

  /** Else the owner's direct message decides; without one the owner's own word; and
      without any author the turn is her own. */
  lemma OwnersTurn(batch: seq<Author>)
    requires forall a | a in batch && a.Channel? :: a.isOwner && a.isDm
    ensures PrincipalOf(batch) == if Channel(true, true) in batch then OwnerDm else if UserSpoke in batch then Owner else Internal
  {
    if Channel(true, true) in batch {
      assert AuthorPrincipal(Channel(true, true)) == OwnerDm;
    } else if UserSpoke in batch {
      assert AuthorPrincipal(UserSpoke) == Owner;
    }
  }

  /** Order and repetition in the batch do not matter. */
  lemma PrincipalIgnoresOrder(a: seq<Author>, b: seq<Author>)
    requires forall x :: x in a <==> x in b
    ensures PrincipalOf(a) == PrincipalOf(b)
  {
    if exists x | x in a :: !x.NoAuthor? {
      var p, q := PrincipalOf(a), PrincipalOf(b);
      assert Rank(p) <= Rank(q) && Rank(q) <= Rank(p);
    }
  }

  /** More input never raises the trust of a batch that already has an author. */
  lemma PrincipalNeverRises(batch: seq<Author>, more: seq<Author>)
    requires exists a | a in batch :: !a.NoAuthor?
    ensures Rank(PrincipalOf(batch + more)) >= Rank(PrincipalOf(batch))
  {
    var a :| a in batch && !a.NoAuthor? && AuthorPrincipal(a) == PrincipalOf(batch);
    assert a in batch + more;
  }

  // ---- turn policies ----

  datatype Condition = SelfProfile | Evolution | OwnerPresent
  datatype Extra = Extra(tool: Tool, when: set<Condition>)
  datatype Policy = Policy(allTools: bool, kindTools: set<Tool>, extras: set<Extra>, mcp: bool)

  function PolicyOf(k: Kind): Policy {
    match k
    case Conversation =>
      Policy(true, {}, {Extra(LearnName, {}), Extra(PinSelf, {SelfProfile, OwnerPresent})}, true)
    case Reflection =>
      Policy(true, {}, {Extra(NoteToolLesson, {}), Extra(PinSelf, {SelfProfile}),
                        Extra(SelfRevision, {Evolution}), Extra(LearnName, {})}, false)
    case Diary => Policy(false, {WriteDiary, Recall}, {}, false)
    case Agenda => Policy(false, {Recall, AdvanceGoal, CloseLoop, MoodTool}, {}, false)
    case Pulse => Policy(false, {Recall, NoteMemory, MoodTool}, {}, false)
    case SafeModeKind => Policy(false, {Recall, ReadToolOutput}, {}, false)
    case Worker => Policy(false, {Shell, NoteMemory, Recall, InvokeSkill, Report, ReadToolOutput,
                                  SetFocus, OpenLoop, CloseLoop}, {}, false)
    case Keeper => Policy(false, {Report, Scratchpad}, {}, false)
  }

  /** Config switches, the registry, and the connected servers' rows. */
  datatype Setup = Setup(registry: set<Tool>, selfProfile: bool, evolution: bool, mcp: map<string, set<Principal>>)

  predicate Holds(e: Extra, p: Principal, s: Setup) {
    && (SelfProfile in e.when ==> s.selfProfile)
    && (Evolution in e.when ==> s.evolution)
    && (OwnerPresent in e.when ==> p in OWNER)
  }

  predicate ExtraFor(e: Extra, p: Principal, s: Setup) { p in Row(e.tool) && Holds(e, p, s) }

  function BoundTools(k: Kind, p: Principal, s: Setup): set<Tool> {
    var policy := PolicyOf(k);
    var names := set t | t in s.registry && (policy.allTools || t in policy.kindTools) && p in Row(t);
    var extras := set e | e in policy.extras && ExtraFor(e, p, s) :: e.tool;
    var remote := set n | n in s.mcp.Keys && policy.mcp && p in s.mcp[n] :: Remote(n);
    names + extras + remote
  }

  const KINDS := {Conversation, Reflection, Diary, Agenda, Pulse, SafeModeKind, Worker, Keeper}

  predicate SameTier(p: Principal, q: Principal) { OriginTier(p) == OriginTier(q) }

  function OfferedTools(p: Principal, s: Setup): set<Tool> {
    var builtin := set t | t in s.registry && exists q | q in ALL :: SameTier(p, q) && q in Row(t);
    var extras := set k, e, q | k in KINDS && e in PolicyOf(k).extras && q in ALL && SameTier(p, q) && ExtraFor(e, q, s) :: e.tool;
    var remote := set n | n in s.mcp.Keys && (exists q | q in ALL :: SameTier(p, q) && q in s.mcp[n]) :: Remote(n);
    builtin + extras + remote
  }

  /** Everything a turn may run was shown to the model. */
  lemma BoundWithinOffered(k: Kind, p: Principal, s: Setup)
    ensures BoundTools(k, p, s) <= OfferedTools(p, s)
  {
    assert SameTier(p, p) && p in ALL && k in KINDS;
  }

  /** What is shown depends on the place of the conversation alone. */
  lemma OfferedByTier(p: Principal, q: Principal, s: Setup)
    requires SameTier(p, q)
    ensures OfferedTools(p, s) == OfferedTools(q, s)
  {
    assert forall x :: SameTier(p, x) <==> SameTier(q, x);
  }

  /** A row that allows a principal allows every more trusted one. */
  predicate ClosedUp(row: set<Principal>) {
    forall p, q | p in row && Rank(q) <= Rank(p) :: q in row
  }

  /** With server rows that do the same, a less trusted turn never runs more. */
  lemma BoundFallsWithTrust(k: Kind, p: Principal, q: Principal, s: Setup)
    requires Rank(p) <= Rank(q) && forall n | n in s.mcp :: ClosedUp(s.mcp[n])
    ensures BoundTools(k, q, s) <= BoundTools(k, p, s)
  {
    assert forall t :: q in Row(t) ==> p in Row(t);
    assert forall e :: ExtraFor(e, q, s) ==> ExtraFor(e, p, s);
    assert forall n | n in s.mcp :: q in s.mcp[n] ==> p in s.mcp[n];
  }
}
