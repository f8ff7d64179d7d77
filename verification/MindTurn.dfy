/** A turn of the mind on its conversation's page: the page begun or continued, the
    turn's message, the tool loop, and what stays on the page behind it. */
module MindTurn {
  import opened Wrappers
  import opened Conversations
  import Executor
  import Pages
  import Permissions
  import Reply
  import Runner

  /** What a turn works with; `usage`: the tokens of the last call that reported any. */
  datatype Input = Input(
    system: string, tools: string, v: Pages.View, tier: Pages.Tier, at: int, body: seq<string>, recap: seq<string>,
    t: Pages.Turn,
    principal: Permissions.Principal, offered: set<Permissions.Tool>, bound: set<Permissions.Tool>,
    names: map<string, Permissions.Tool>,
    policy: Runner.Policy, speaks: bool, streams: nat -> Runner.Stream, answers: nat -> Runner.Answer,
    cancelAt: Option<nat>, usage: Option<(nat, nat)>)

  /** What the adapter and the tool tables promise. */
  ghost predicate InputOk(i: Input) {
    i.bound <= i.offered && forall n :: Runner.StreamOk(i.streams(n))
  }

  /** The conversation in memory, and its page's records. */
  ghost function Footprint(b: ContextBuilder, key: Key): set<object>
    reads b
  {
    var c := b.Get(key);
    if c == null then {} else {c, c.seen}
  }

  ghost predicate Ready(b: ContextBuilder, key: Key)
    reads b, Footprint(b, key)
  {
    && b.Valid()
    && (b.Get(key) != null ==> b.Get(key).PageOk() && b.Get(key).seen.Valid())
  }

  /** One turn. Unless it opens a new page, the conversation is the same and only
      grew, its earlier requests are the first of its requests now, and its taint
      stays; a server error makes the next turn open a new page. */
  method TakeTurn(b: ContextBuilder, key: Key, i: Input) returns (c: Conversation, reason: Option<Reason>, result: Runner.TurnResult, ghost ran: seq<Executor.Ran>)
    requires Ready(b, key) && InputOk(i)
    modifies b, Footprint(b, key)
    ensures b.Valid() && c.PageOk() && c.seen.Valid() && Pages.Current(c.seen.page, i.v, i.tier)
    ensures b.Get(key) == if key.Channel? && b.maxChannels == 0 then null else c
    ensures var had := old(b.Get(key));
            && (reason.None? <==> had != null && had.tools == i.tools && had.system == i.system
                                  && old(had != null && had.priorTokens < b.budget && !had.serverError))
            && (reason == Some(NotInMemory) <==> had == null)
            && (reason == Some(PrefixChanged) <==> had != null && (had.tools != i.tools || had.system != i.system))
            && (reason == Some(ServerError) ==> old(had != null && had.priorTokens < b.budget && had.serverError))
    ensures if reason.None?
            then c == old(b.Get(key)) && old(c.messages) < c.messages && old(c.sent) <= c.sent
                 && |c.sent| == |old(c.sent)| + result.passes && (old(c.tainted) ==> c.tainted)
            else fresh(c) && fresh(c.seen) && |c.sent| == result.passes && c.epoch == old(if b.Get(key) == null then 1 else b.Get(key).epoch + 1)
    ensures c.tools == i.tools && c.system == i.system
    ensures Executor.RanRightly(i.principal, i.offered, i.bound, reason.None? && old(b.Get(key) != null && b.Get(key).tainted), ran)
    ensures c.tainted <==> (reason.None? && old(b.Get(key) != null && b.Get(key).tainted)) || Executor.Spoilt(i.principal, false, ran, |ran|)
    ensures c.serverError <==> result.endedBy == Runner.ModelError(Runner.Server)
    ensures c.priorTokens == if i.usage.Some? then i.usage.value.0 + i.usage.value.1 else if reason.Some? then 0 else old(c.priorTokens)
  {
    c, reason := b.BeginTurn(key, i.system, i.tools, i.v, i.tier, i.at, i.body, i.recap);
    result, ran := RunOn(c, b.render, i);
  }

  /** The turn's message and its tool loop, on the page `c`. */
  method RunOn(c: Conversation, render: seq<Pages.Part> -> string, i: Input) returns (result: Runner.TurnResult, ghost ran: seq<Executor.Ran>)
    requires c.PageOk() && c.seen.Valid() && InputOk(i)
    modifies c, c.seen
    ensures c.PageOk() && c.seen.Valid() && Pages.Current(c.seen.page, i.v, i.tier)
    ensures old(c.messages) < c.messages && old(c.sent) <= c.sent && |c.sent| == |old(c.sent)| + result.passes
    ensures Executor.RanRightly(i.principal, i.offered, i.bound, old(c.tainted), ran)
    ensures c.tainted <==> old(c.tainted) || Executor.Spoilt(i.principal, false, ran, |ran|)
    ensures c.serverError <==> old(c.serverError) || result.endedBy == Runner.ModelError(Runner.Server)
    ensures c.priorTokens == if i.usage.Some? then i.usage.value.0 + i.usage.value.1 else old(c.priorTokens)
  {
    var user := Tell(c.seen, render, i);
    var messages;
    ghost var sent;
    result, messages, sent, ran := RunTools(c, c.messages + [user], i);
    Runner.PrefixesAcross(c.sent, c.opening, c.messages, user, sent, messages);
    c.sent := c.sent + sent;
    c.messages := messages;
  }

  /** The turn's message. */
  method Tell(seen: Pages.Seen, render: seq<Pages.Part> -> string, i: Input) returns (user: Message)
    requires seen.Valid()
    modifies seen
    ensures seen.Valid() && Pages.Current(seen.page, i.v, i.tier)
    ensures old(seen.page) <= seen.page && user == Reply.User(render(seen.page[|old(seen.page)|..]))
  {
    var parts := seen.TurnDelta(i.v, i.tier, i.t);
    user := Reply.User(render(parts));
  }

  /** The tool loop, and what it leaves on the conversation's record. */
  method RunTools(c: Conversation, start: seq<Message>, i: Input)
    returns (result: Runner.TurnResult, messages: seq<Message>, ghost sent: seq<seq<Message>>, ghost ran: seq<Executor.Ran>)
    requires InputOk(i)
    modifies c`serverError, c`tainted, c`priorTokens
    ensures start <= messages && Runner.Prefixes(sent, start, messages) && |sent| == result.passes
    ensures Executor.RanRightly(i.principal, i.offered, i.bound, old(c.tainted), ran)
    ensures c.tainted <==> old(c.tainted) || Executor.Spoilt(i.principal, false, ran, |ran|)
    ensures c.serverError <==> old(c.serverError) || result.endedBy == Runner.ModelError(Runner.Server)
    ensures c.priorTokens == if i.usage.Some? then i.usage.value.0 + i.usage.value.1 else old(c.priorTokens)
  {
    var executor := new Executor.ToolExecutor(i.principal, i.offered, i.bound, i.names,
                                              c.tainted && i.principal != Permissions.ExternalPublic);
    var runner := new Runner.TurnRunner(i.policy, i.speaks, executor, i.streams, i.answers, i.cancelAt, start);
    ghost var lost;
    result, lost := runner.Run();
    messages, sent, ran := runner.messages, runner.sent, executor.ran;
    TaintedBy(i.principal, c.tainted, ran);
    if result.endedBy == Runner.ModelError(Runner.Server) { c.serverError := true; }
    if executor.tainted { c.tainted := true; }
    c.RecordUsage(i.usage);
  }

  /** What taints a turn is its page or one of its calls; a stranger's turn reads no
      page's taint. */
  lemma TaintedBy(principal: Permissions.Principal, byPage: bool, ran: seq<Executor.Ran>)
    ensures forall n: nat | n <= |ran| ::
              Executor.Spoilt(principal, byPage && principal != Permissions.ExternalPublic, ran, n)
              <==> Executor.Spoilt(principal, byPage, ran, n)
    ensures Executor.Spoilt(principal, byPage, ran, |ran|)
            <==> principal != Permissions.ExternalPublic && (byPage || Executor.Spoilt(principal, false, ran, |ran|))
  {
  }

  /** One of the calls that ran asked for untrusted content. */
  ghost predicate Taints(ran: seq<Executor.Ran>) { exists n :: 0 <= n < |ran| && ran[n].decision.Allow? && ran[n].ask.taints }

  /** Of all calls only those ran that do no harm behind taint. */
  ghost predicate Harmless(ran: seq<Executor.Ran>) {
    forall n | 0 <= n < |ran| && ran[n].decision.Allow? ::
      ran[n].ask.tool in {Some(Permissions.Recall), Some(Permissions.NoteMemory), Some(Permissions.Report)}
  }

  lemma Narrowed(j: Input, byPage: bool, ran: seq<Executor.Ran>)
    requires Executor.RanRightly(j.principal, j.offered, j.bound, byPage, ran)
    ensures byPage && j.principal != Permissions.ExternalPublic ==> Harmless(ran)
  {
    if byPage && j.principal != Permissions.ExternalPublic {
      forall n | 0 <= n < |ran| && ran[n].decision.Allow?
        ensures ran[n].ask.tool in {Some(Permissions.Recall), Some(Permissions.NoteMemory), Some(Permissions.Report)}
      {
        assert Executor.Spoilt(j.principal, byPage, ran, n);
      }
    }
  }

  /** Two turns on one key: the second grows the first's page exactly when nothing
      stands against it; a server error always does. */
  method TakeTwo(b: ContextBuilder, key: Key, i: Input, j: Input)
    returns (c: Conversation, first: Runner.TurnResult, d: Conversation, reason: Option<Reason>, ghost tokens: nat)
    requires Ready(b, key) && InputOk(i) && InputOk(j)
    modifies b, Footprint(b, key)
    ensures i.usage.Some? ==> tokens == i.usage.value.0 + i.usage.value.1
    ensures reason.None? <==>
              && (key.Private? || b.maxChannels > 0) && i.tools == j.tools && i.system == j.system
              && tokens < b.budget && first.endedBy != Runner.ModelError(Runner.Server)
    ensures if reason.None? then d == c else fresh(d) && d != c && d.epoch == if key.Private? || b.maxChannels > 0 then c.epoch + 1 else 1
  {
    var second;
    ghost var ran;
    c, first, tokens := TakeFirst(b, key, i);
    d, reason, second, ran := TakeTurn(b, key, j);
  }

  /** What the first of two turns leaves to the second. */
  method TakeFirst(b: ContextBuilder, key: Key, i: Input) returns (c: Conversation, first: Runner.TurnResult, ghost tokens: nat)
    requires Ready(b, key) && InputOk(i)
    modifies b, Footprint(b, key)
    ensures Ready(b, key) && b.Get(key) == if key.Channel? && b.maxChannels == 0 then null else c
    ensures forall o | o in Footprint(b, key) :: o in old(Footprint(b, key)) || fresh(o)
    ensures c.tools == i.tools && c.system == i.system && c.priorTokens == tokens
    ensures i.usage.Some? ==> tokens == i.usage.value.0 + i.usage.value.1
    ensures c.serverError <==> first.endedBy == Runner.ModelError(Runner.Server)
  {
    var why;
    ghost var ran;
    c, why, first, ran := TakeTurn(b, key, i);
    tokens := c.priorTokens;
  }

  /** What a call of the first turn brought onto the page narrows the second on it: of
      her tools only those harmless behind taint run. */
  method TakeTainted(b: ContextBuilder, key: Key, i: Input, j: Input)
    returns (reason: Option<Reason>, ghost ran: seq<Executor.Ran>, ghost ran2: seq<Executor.Ran>)
    requires Ready(b, key) && InputOk(i) && InputOk(j)
    modifies b, Footprint(b, key)
    ensures reason.None? && i.principal != Permissions.ExternalPublic && j.principal != Permissions.ExternalPublic && Taints(ran) ==>
              Harmless(ran2)
  {
    var c, d, why, first, second;
    c, why, first, ran := TakeTurn(b, key, i);
    ghost var tainted := c.tainted;
    d, reason, second, ran2 := TakeTurn(b, key, j);
    Narrowed(j, reason.None? && tainted, ran2);
  }

  /** One more turn of `TakeTurns`. */
  method TakeNext(b: ContextBuilder, key: Key, i: Input, ghost asked: nat) returns (c: Conversation, ghost asked2: nat)
    requires Ready(b, key) && InputOk(i)
    modifies b, Footprint(b, key)
    ensures b.Valid() && c.PageOk() && c.seen.Valid() && (b.Get(key) == c || b.Get(key) == null)
    ensures if c == old(b.Get(key)) then old(c.sent) <= c.sent && asked2 >= asked && |c.sent| - |old(c.sent)| == asked2 - asked
            else fresh(c) && fresh(c.seen) && |c.sent| == asked2
  {
    var reason, result;
    ghost var ran;
    c, reason, result, ran := TakeTurn(b, key, i);
    asked2 := if reason.None? then asked + result.passes else result.passes;
  }

  /** Any number of turns on one key: the requests made since the last new page, all
      the turns' together, are those of `c`, each beginning with the one before. */
  method TakeTurns(b: ContextBuilder, key: Key, inputs: seq<Input>) returns (c: Conversation?, ghost asked: nat)
    requires Ready(b, key) && forall i | i in inputs :: InputOk(i)
    modifies b, Footprint(b, key)
    ensures b.Valid() && (c != null ==> c.PageOk() && c.seen.Valid())
    ensures c != null ==> if c == old(b.Get(key)) then old(c.sent) <= c.sent && |c.sent| == |old(c.sent)| + asked
                          else |c.sent| == asked
  {
    c, asked := b.Get(key), 0;
    ghost var had := c;
    for n := 0 to |inputs|
      invariant Ready(b, key) && (b.Get(key) == c || b.Get(key) == null)
      invariant c != null ==> c.PageOk() && c.seen.Valid()
      invariant c != null ==> if c == had then old(c.sent) <= c.sent && |c.sent| == |old(c.sent)| + asked
                              else fresh(c) && |c.sent| == asked
      invariant forall o | o in Footprint(b, key) :: o in old(Footprint(b, key)) || fresh(o)
    {
      assert inputs[n] in inputs;
      c, asked := TakeNext(b, key, inputs[n], asked);
    }
  }
}
