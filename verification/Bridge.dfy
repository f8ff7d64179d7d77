/** From the chat server to the daemon: everything is logged once, and what is
    forwarded is forwarded once, behind its channel's registration. */
module Bridge {
  import opened Wrappers

  /** A log file. */
  datatype File = File(guild: string, channel: string, date: int)

  datatype Id = Id(file: File, msg: string)

  /** A message with its timestamp; `date`: the UTC day of the timestamp. */
  datatype Event = Event(guild: Option<string>, channel: string, msg: string, date: int, author: string, isDm: bool)

  datatype Config = Config(bot: string, owner: string, ownerGuildOnly: bool)

  /** An event and the guild and channel it is captured under: its own, or for a
      backfill the ones it was fetched for. */
  datatype Captured = Captured(guild: string, channel: string, event: Event)

  function Live(e: Event): Captured { Captured(e.guild.GetOr("dm"), e.channel, e) }

  function IdOf(c: Captured): Id { Id(File(c.guild, c.channel, c.event.date), c.event.msg) }

  /** What the daemon is sent; Session: a new connection. */
  datatype Sent = Session | Register(channel: string) | Forward(captured: Captured)

  /** Where a captured event awaits. */
  datatype Stage = Asking | Registering | Sending

  datatype Task = Task(captured: Captured, stage: Stage)

  function SeqSet<T>(s: seq<T>): set<T> { set x | x in s }

  // ---- the log ----

  class AmbientLog {
    var files: map<File, seq<string>>       // the ids in each file
    var seen: map<File, set<string>>        // cache

    /** What is cached holds what is on disk. */
    ghost predicate Valid()
      reads this
    {
      forall f | f in seen && f in files :: SeqSet(files[f]) <= seen[f]
    }

    constructor ()
      ensures Valid() && files == map[] && seen == map[]
    {
      files, seen := map[], map[];
    }

    function InFile(f: File): seq<string>
      reads this
    {
      if f in files then files[f] else []
    }

    predicate OnDisk(id: Id)
      reads this
    {
      id.msg in InFile(id.file)
    }

    /** On disk or in the cache. */
    predicate Knows(id: Id)
      reads this
    {
      OnDisk(id) || (id.file in seen && id.msg in seen[id.file])
    }

    /** True: it was not logged before, and now is. */
    method Append(id: Id) returns (isNew: bool)
      requires Valid()
      modifies this
      ensures Valid() && isNew == !old(Knows(id)) && Knows(id)
      ensures files == if isNew then old(files)[id.file := old(InFile(id.file)) + [id.msg]] else old(files)
      ensures forall i | OnDisk(i) :: old(OnDisk(i)) || i == id
      ensures forall i | old(OnDisk(i)) :: OnDisk(i)
      ensures isNew ==> OnDisk(id)
      ensures forall i :: Knows(i) <==> old(Knows(i)) || i == id
    {
      if id.file !in seen {
        seen := seen[id.file := if id.file in files then SeqSet(files[id.file]) else {}];
      }
      if id.msg in seen[id.file] { return false; }
      files := files[id.file := InFile(id.file) + [id.msg]];
      seen := seen[id.file := seen[id.file] + {id.msg}];
      return true;
    }

    /** Old files go; the cache of this process stays. */
    method Prune(cutoff: int)
      requires Valid()
      modifies this`files
      ensures Valid()
      ensures files == map f | f in old(files) && f.date >= cutoff :: old(files)[f]
      ensures forall i: Id | i.file.date >= cutoff :: Knows(i) == old(Knows(i)) && OnDisk(i) == old(OnDisk(i))
    {
      files := map f | f in files && f.date >= cutoff :: files[f];
    }

    /** A new process starts with an empty cache. */
    method Restart()
      requires Valid()
      modifies this`seen
      ensures Valid() && seen == map[]
      ensures forall i :: Knows(i) == OnDisk(i) == old(OnDisk(i))
    {
      seen := map[];
    }
  }

  // ---- what was sent ----

  /** How often the message was forwarded. */
  function Forwards(sent: seq<Sent>, id: Id): nat {
    if sent == [] then 0
    else
      var last := sent[|sent| - 1];
      Forwards(sent[..|sent| - 1], id) + if last.Forward? && IdOf(last.captured) == id then 1 else 0
  }

  /** How many tasks hold the message. */
  function Held(tasks: seq<Task>, id: Id): nat {
    if tasks == [] then 0
    else Held(tasks[..|tasks| - 1], id) + if IdOf(tasks[|tasks| - 1].captured) == id then 1 else 0
  }

  /** The channels registered on the current connection. */
  function Registered(sent: seq<Sent>): set<string> {
    if sent == [] then {}
    else match sent[|sent| - 1]
      case Session => {}
      case Register(c) => Registered(sent[..|sent| - 1]) + {c}
      case Forward(_) => Registered(sent[..|sent| - 1])
  }

  /** Nothing is forwarded on a connection that did not register its channel before. */
  predicate Orderly(sent: seq<Sent>) {
    sent == [] ||
    (&& Orderly(sent[..|sent| - 1])
     && (sent[|sent| - 1].Forward? ==> sent[|sent| - 1].captured.channel in Registered(sent[..|sent| - 1])))
  }

  /** The channel is registered at `i`, and the connection is still the same. */
  predicate Stands(sent: seq<Sent>, i: nat, c: string) {
    i < |sent| && sent[i] == Register(c) && forall k | i < k < |sent| :: !sent[k].Session?
  }

  lemma StandsStep(sent: seq<Sent>, i: nat, c: string)
    requires i < |sent| - 1
    ensures Stands(sent, i, c) <==> Stands(sent[..|sent| - 1], i, c) && !sent[|sent| - 1].Session?
  {
  }

  lemma {:induction false} RegisteredBefore(sent: seq<Sent>, c: string)
    ensures c in Registered(sent) <==> exists i :: Stands(sent, i, c)
  {
    if sent != [] {
      var n := |sent| - 1;
      RegisteredBefore(sent[..n], c);
      forall i: nat | i < n ensures Stands(sent, i, c) <==> Stands(sent[..n], i, c) && !sent[n].Session? {
        StandsStep(sent, i, c);
      }
      assert Stands(sent, n, c) <==> sent[n] == Register(c);
    }
  }

  lemma {:induction false} OrderlyMeans(sent: seq<Sent>, n: nat)
    requires Orderly(sent) && n < |sent| && sent[n].Forward?
    ensures exists i :: Stands(sent[..n], i, sent[n].captured.channel)
  {
    if n == |sent| - 1 {
      RegisteredBefore(sent[..n], sent[n].captured.channel);
    } else {
      OrderlyMeans(sent[..|sent| - 1], n);
      assert sent[..|sent| - 1][..n] == sent[..n];
    }
  }

  lemma {:induction false} HeldAppend(a: seq<Task>, b: seq<Task>, id: Id)
    ensures Held(a + b, id) == Held(a, id) + Held(b, id)
  {
    if b == [] {
      assert a + b == a;
    } else {
      assert (a + b)[..|a + b| - 1] == a + b[..|b| - 1];
      HeldAppend(a, b[..|b| - 1], id);
    }
  }

  lemma HeldOne(t: Task, id: Id)
    ensures Held([t], id) == if IdOf(t.captured) == id then 1 else 0
  {
    assert [t][..0] == [];
  }

  /** Task `i` gone, or replaced by another of the same message. */
  lemma HeldAt(tasks: seq<Task>, i: nat, t: Task, id: Id)
    requires i < |tasks| && t.captured == tasks[i].captured
    ensures Held(tasks[i := t], id) == Held(tasks, id)
    ensures Held(tasks[..i] + tasks[i + 1..], id) == Held(tasks, id) - if IdOf(t.captured) == id then 1 else 0
  {
    var a, b := tasks[..i], tasks[i + 1..];
    assert tasks == a + [tasks[i]] + b && tasks[i := t] == a + [t] + b;
    HeldAppend(a + [tasks[i]], b, id);
    HeldAppend(a + [t], b, id);
    HeldAppend(a, [tasks[i]], id);
    HeldAppend(a, [t], id);
    HeldAppend(a, b, id);
    HeldOne(t, id);
    HeldOne(tasks[i], id);
  }

  // ---- the controller ----

  /** Not her own, and with `owner_guild_only` neither a stranger's DM nor from
      nowhere. */
  predicate WantedBy(cfg: Config, e: Event) {
    && e.author != cfg.bot
    && (cfg.ownerGuildOnly ==> if e.isDm then e.author == cfg.owner else e.guild.Some?)
  }

  class BridgeController {
    const cfg: Config
    const ambient: AmbientLog
    var registered: set<string>
    var tasks: seq<Task>              // captures that await
    ghost var sent: seq<Sent>
    ghost var floor: Option<int>      // the latest cutoff of a prune

    /** The message's file was never pruned. */
    ghost predicate Kept(id: Id)
      reads this
    {
      floor.None? || id.file.date >= floor.value
    }

    ghost predicate OnceEach(id: Id)
      reads this, ambient
    {
      && Forwards(sent, id) + Held(tasks, id) <= 1
      && (Forwards(sent, id) + Held(tasks, id) == 1 ==> ambient.OnDisk(id))
      && (ambient.Knows(id) ==> ambient.OnDisk(id))
    }

    /** What may go to the daemon: never her own message; with `owner_guild_only` no
        stranger's direct message, and nothing from an unknown guild. */
    predicate Proper(e: Event) {
      && e.author != cfg.bot
      && (!cfg.ownerGuildOnly || (e.isDm && e.author == cfg.owner) || (!e.isDm && e.guild.Some?))
    }

    ghost predicate Valid()
      reads this, ambient
    {
      && ambient.Valid()
      && (forall id | Kept(id) :: OnceEach(id))
      && (forall i | 0 <= i < |tasks| :: Proper(tasks[i].captured.event))
      && (forall i | 0 <= i < |sent| && sent[i].Forward? :: Proper(sent[i].captured.event))
      && registered == Registered(sent) && Orderly(sent)
      && (forall i | 0 <= i < |tasks| && tasks[i].stage.Sending? :: tasks[i].captured.channel in registered)
    }

    constructor (cfg: Config)
      ensures Valid() && this.cfg == cfg && sent == [] && tasks == [] && floor == None && fresh(ambient)
      ensures ambient.files == map[] && ambient.seen == map[]
    {
      this.cfg := cfg;
      ambient := new AmbientLog();
      registered, tasks, sent, floor := {}, [], [], None;
    }

    /** `_capture_and_forward`, up to its first await. */
    method Capture(c: Captured)
      requires Valid()
      modifies this`tasks, ambient
      ensures Valid()
      ensures ambient.Knows(IdOf(c))
      ensures tasks == old(tasks) + if old(ambient.Knows(IdOf(c))) || !Wanted(c.event) then [] else [Task(c, FirstStage(c))]
      ensures |tasks| > |old(tasks)| <==> !old(ambient.Knows(IdOf(c))) && Proper(c.event)
      ensures |tasks| > |old(tasks)| ==>
                match tasks[|old(tasks)|].stage
                case Asking => cfg.ownerGuildOnly && !c.event.isDm
                case Registering => (!cfg.ownerGuildOnly || c.event.isDm) && c.channel !in registered
                case Sending => (!cfg.ownerGuildOnly || c.event.isDm) && c.channel in registered
    {
      var isNew := ambient.Append(IdOf(c));
      ghost var before := tasks;
      if isNew && Wanted(c.event) { tasks := tasks + [Task(c, FirstStage(c))]; }
      forall id | Kept(id) ensures OnceEach(id) {
        HeldAppend(before, [Task(c, FirstStage(c))], id);
        HeldOne(Task(c, FirstStage(c)), id);
        assert old(OnceEach(id));
      }
    }

    /** `on_discord_message`. */
    method OnDiscordMessage(e: Event)
      requires Valid()
      modifies this`tasks, ambient
      ensures Valid() && ambient.Knows(IdOf(Live(e)))
      ensures tasks == old(tasks) + if old(ambient.Knows(IdOf(Live(e)))) || !Wanted(e) then [] else [Task(Live(e), FirstStage(Live(e)))]
    {
      Capture(Live(e));
    }

    /** One event of a `backfill`, under the guild and channel it was fetched for. */
    method BackfillOne(guild: string, channel: string, e: Event)
      requires Valid()
      modifies this`tasks, ambient
      ensures Valid() && ambient.Knows(Id(File(guild, channel, e.date), e.msg))
      ensures old(ambient.Knows(Id(File(guild, channel, e.date), e.msg))) ==> tasks == old(tasks)
    {
      Capture(Captured(guild, channel, e));
    }

    predicate Wanted(e: Event) { WantedBy(cfg, e) }

    function FirstStage(c: Captured): Stage
      reads this`registered
    {
      if cfg.ownerGuildOnly && !c.event.isDm then Asking else NextStage(c)
    }

    function NextStage(c: Captured): Stage
      reads this`registered
    {
      if c.channel in registered then Sending else Registering
    }

    /** The owner is in the guild, or not (nor known to be). */
    method Answered(i: nat, inGuild: bool)
      requires Valid() && i < |tasks| && tasks[i].stage.Asking?
      modifies this`tasks
      ensures Valid()
      ensures tasks == if inGuild then old(tasks)[i := Task(old(tasks)[i].captured, NextStage(old(tasks)[i].captured))]
                       else old(tasks)[..i] + old(tasks)[i + 1..]
    {
      ghost var before := tasks;
      var t := Task(tasks[i].captured, NextStage(tasks[i].captured));
      tasks := if inGuild then tasks[i := t] else tasks[..i] + tasks[i + 1..];
      forall id | Kept(id) ensures OnceEach(id) {
        HeldAt(before, i, t, id);
        assert old(OnceEach(id));
      }
    }

    method RegisterSent(i: nat)
      requires Valid() && i < |tasks| && tasks[i].stage.Registering?
      modifies this`tasks, this`registered, this`sent
      ensures Valid() && sent == old(sent) + [Register(old(tasks)[i].captured.channel)]
      ensures tasks == old(tasks)[i := Task(old(tasks)[i].captured, Sending)]
    {
      ghost var before := tasks;
      var t := Task(tasks[i].captured, Sending);
      sent := sent + [Register(t.captured.channel)];
      assert sent[..|sent| - 1] == old(sent);
      registered := registered + {t.captured.channel};
      tasks := tasks[i := t];
      forall id | Kept(id) ensures OnceEach(id) {
        HeldAt(before, i, t, id);
        assert old(OnceEach(id));
      }
    }

    method EventSent(i: nat)
      requires Valid() && i < |tasks| && tasks[i].stage.Sending?
      modifies this`tasks, this`sent
      ensures Valid() && sent == old(sent) + [Forward(old(tasks)[i].captured)]
      ensures tasks == old(tasks)[..i] + old(tasks)[i + 1..]
    {
      ghost var before := tasks;
      var t := tasks[i];
      sent := sent + [Forward(t.captured)];
      assert sent[..|sent| - 1] == old(sent);
      tasks := tasks[..i] + tasks[i + 1..];
      forall id | Kept(id) ensures OnceEach(id) {
        HeldAt(before, i, t, id);
        assert old(OnceEach(id));
      }
    }

    /** A new connection, or a new process: what awaited is lost. */
    method Restart(newProcess: bool)
      requires Valid()
      modifies this`tasks, this`registered, this`sent, ambient
      ensures Valid() && sent == old(sent) + [Session] && tasks == []
      ensures newProcess ==> ambient.seen == map[]
      ensures ambient.files == old(ambient.files)
    {
      if newProcess { ambient.Restart(); }
      forall id | Kept(id) ensures Forwards(sent + [Session], id) <= 1 && (Forwards(sent + [Session], id) == 1 ==> ambient.OnDisk(id))
        && (ambient.Knows(id) ==> ambient.OnDisk(id))
      {
        assert old(OnceEach(id));
        assert (sent + [Session])[..|sent|] == sent;
      }
      sent := sent + [Session];
      assert sent[..|sent| - 1] == old(sent);
      registered, tasks := {}, [];
    }

    method Prune(cutoff: int)
      requires Valid()
      modifies this`floor, ambient
      ensures Valid()
      ensures ambient.files == map f | f in old(ambient.files) && f.date >= cutoff :: old(ambient.files)[f]
      ensures floor.Some? && cutoff <= floor.value && (floor.value == cutoff || Some(floor.value) == old(floor))
    {
      ambient.Prune(cutoff);
      floor := Some(if floor.Some? && floor.value > cutoff then floor.value else cutoff);
      forall id | Kept(id) ensures OnceEach(id) { assert old(OnceEach(id)); }
    }
  }

  /** How often a message of a channel was forwarded, whatever its date. */
  function Messages(sent: seq<Sent>, guild: string, channel: string, msg: string): nat {
    if sent == [] then 0
    else
      var last := sent[|sent| - 1];
      Messages(sent[..|sent| - 1], guild, channel, msg)
      + if last.Forward? && last.captured.guild == guild && last.captured.channel == channel && last.captured.event.msg == msg then 1 else 0
  }

  /** A message's timestamp fixes its date: whatever forward of `msg` carries `date`. */
  predicate OneDate(sent: seq<Sent>, msg: string, date: int) {
    forall i | 0 <= i < |sent| && sent[i].Forward? && sent[i].captured.event.msg == msg :: sent[i].captured.event.date == date
  }

  lemma {:induction false} MessagesDated(sent: seq<Sent>, guild: string, channel: string, msg: string, date: int)
    requires OneDate(sent, msg, date)
    ensures Messages(sent, guild, channel, msg) == Forwards(sent, Id(File(guild, channel, date), msg))
  {
    if sent != [] {
      var init := sent[..|sent| - 1];
      assert OneDate(init, msg, date) by {
        forall i | 0 <= i < |init| && init[i].Forward? && init[i].captured.event.msg == msg ensures init[i].captured.event.date == date {
          assert sent[i] == init[i];
        }
      }
      MessagesDated(init, guild, channel, msg, date);
    }
  }

  /** Over every run of captures, answers, sends, restarts and backfills: a message
      whose timestamp fixes its date, and whose file was not pruned, was forwarded at
      most once under a guild and channel; and every forward stands behind its
      channel's registration on the same connection. */
  lemma ForwardedOnce(b: BridgeController, guild: string, channel: string, msg: string, date: int, n: nat)
    requires b.Valid() && OneDate(b.sent, msg, date) && b.Kept(Id(File(guild, channel, date), msg))
    ensures Messages(b.sent, guild, channel, msg) <= 1
    ensures n < |b.sent| && b.sent[n].Forward? ==>
            exists i :: Stands(b.sent[..n], i, b.sent[n].captured.channel)
  {
    assert b.OnceEach(Id(File(guild, channel, date), msg));
    MessagesDated(b.sent, guild, channel, msg, date);
    if n < |b.sent| && b.sent[n].Forward? { OrderlyMeans(b.sent, n); }
  }

  /** Nothing of her own ever comes back to her, and with `owner_guild_only` no
      stranger's direct message does. */
  lemma NeverHerOwn(b: BridgeController, n: nat)
    requires b.Valid() && n < |b.sent| && b.sent[n].Forward?
    ensures b.sent[n].captured.event.author != b.cfg.bot
    ensures b.cfg.ownerGuildOnly && b.sent[n].captured.event.isDm ==> b.sent[n].captured.event.author == b.cfg.owner
  {
  }

  /** A prune that takes the file forgets its messages: the next process forwards
      any of them again. */
  method TwiceAfterPrune(c: Captured, cfg: Config, cutoff: int) returns (b: BridgeController)
    requires WantedBy(cfg, c.event) && c.event.date < cutoff
    ensures fresh(b) && b.Valid() && Forwards(b.sent, IdOf(c)) == 2
  {
    b := new BridgeController(cfg);
    ForwardIt(b, c, 0);
    b.Prune(cutoff);
    ghost var sent := b.sent;
    b.Restart(true);
    assert b.sent[..|b.sent| - 1] == sent;
    ForwardIt(b, c, 1);
  }

  method ForwardIt(b: BridgeController, c: Captured, ghost before: nat)
    requires b.Valid() && b.tasks == [] && WantedBy(b.cfg, c.event) && !b.ambient.Knows(IdOf(c))
    requires c.channel !in b.registered && Forwards(b.sent, IdOf(c)) == before
    modifies b, b.ambient
    ensures b.Valid() && b.tasks == [] && Forwards(b.sent, IdOf(c)) == before + 1
    ensures b.floor == old(b.floor)
  {
    b.Capture(c);
    if b.tasks[0].stage.Asking? { b.Answered(0, true); }
    b.RegisterSent(0);
    assert b.sent[..|b.sent| - 1] == old(b.sent);
    ghost var sent := b.sent;
    b.EventSent(0);
    assert b.sent[..|b.sent| - 1] == sent;
  }
}
