/** The conversations kept in memory, one page each, the least recently used
    channels dropped first. */
module Conversations {
  import opened Wrappers
  import Pages
  import Reply
  import Runner
  import opened Recency

  type Message = Reply.Message

  /** The private bucket's conversation, or a channel's. */
  datatype Key = Private | Channel(id: string)

  datatype Reason = NotInMemory | PrefixChanged | Budget | ServerError

  class Conversation {
    const key: Key
    const epoch: nat
    const tools: string               // hashes are injective
    const system: string
    const seen: Pages.Seen
    const opening: seq<Message>       // the page's first messages
    var messages: seq<Message>
    var priorTokens: nat
    var serverError: bool
    var tainted: bool
    ghost var sent: seq<seq<Message>>           // the requests made on this page

    constructor (key: Key, epoch: nat, tools: string, system: string, seen: Pages.Seen, messages: seq<Message>)
      ensures this.key == key && this.epoch == epoch && this.tools == tools && this.system == system
      ensures this.seen == seen && this.messages == opening == messages && sent == []
      ensures priorTokens == 0 && !serverError && !tainted
    {
      this.key, this.epoch, this.tools, this.system := key, epoch, tools, system;
      this.seen, opening, this.messages := seen, messages, messages;
      priorTokens, serverError, tainted, sent := 0, false, false, [];
    }

    /** The page only grew: each request on it begins with the one before, and the
        page with the last. */
    ghost predicate PageOk()
      reads this`messages, this`sent
    {
      opening <= messages && Runner.Prefixes(sent, opening, messages)
    }

    /** A call that reports no usage leaves the count as it was. */
    method RecordUsage(usage: Option<(nat, nat)>)
      modifies this`priorTokens
      ensures priorTokens == if usage.Some? then usage.value.0 + usage.value.1 else old(priorTokens)
    {
      if usage.Some? { priorTokens := usage.value.0 + usage.value.1; }
    }
  }

  /** Why the page is new; None: it keeps growing. */
  function Why(c: Conversation?, tools: string, system: string, budget: nat): Option<Reason>
    reads c
  {
    if c == null then Some(NotInMemory)
    else if c.tools != tools || c.system != system then Some(PrefixChanged)
    else if c.priorTokens >= budget then Some(Budget)
    else if c.serverError then Some(ServerError)
    else None
  }

  /** A clean page that tells the whole snapshot. */
  ghost predicate NewPage(c: Conversation, key: Key, tools: string, system: string, v: Pages.View, tier: Pages.Tier,
                          render: seq<Pages.Part> -> string)
    reads c, c.seen
  {
    && c.key == key && c.tools == tools && c.system == system && !c.tainted && !c.serverError && c.priorTokens == 0
    && c.seen.Valid() && Pages.Current(c.seen.page, v, tier) && c.PageOk() && c.sent == []
    && c.messages == [Reply.System(system), Reply.User(render(c.seen.page))]
  }

  // ---- the builder ----

  class ContextBuilder {
    const budget: nat
    const maxChannels: nat
    const parses: string -> bool
    const render: seq<Pages.Part> -> string
    var privateOne: Conversation?
    var channels: map<Key, Conversation>
    var order: seq<Key>                 // of `channels`, least recently used first
    ghost var used: seq<Key>            // channel turns so far

    /** In memory are the `maxChannels` channels used last. */
    ghost predicate Valid()
      reads this
    {
      && Keeps(order, used, maxChannels)
      && (forall k :: k in channels <==> k in order)
      && (forall k | k in channels :: channels[k].key == k)
    }

    constructor (budget: nat, maxChannels: nat, parses: string -> bool, render: seq<Pages.Part> -> string)
      ensures Valid() && used == [] && privateOne == null && this.budget == budget && this.maxChannels == maxChannels
    {
      this.budget, this.maxChannels, this.parses, this.render := budget, maxChannels, parses, render;
      privateOne, channels, order, used := null, map[], [], [];
    }

    function Get(key: Key): Conversation?
      reads this
    {
      if key.Private? then privateOne else if key in channels then channels[key] else null
    }

    method BeginTurn(key: Key, system: string, tools: string, v: Pages.View, tier: Pages.Tier,
                     at: int, body: seq<string>, recap: seq<string>)
      returns (c: Conversation, reason: Option<Reason>)
      requires Valid()
      modifies this`privateOne, this`channels, this`order, this`used
      ensures Valid() && used == old(used) + (if key.Channel? then [key] else [])
      ensures var had := old(Get(key));
              && (reason.None? <==> had != null && had.tools == tools && had.system == system
                                    && had.priorTokens < budget && !had.serverError)
              && (reason == Some(NotInMemory) <==> had == null)
              && (reason == Some(PrefixChanged) <==> had != null && (had.tools != tools || had.system != system))
              && (reason == Some(Budget) <==> had != null && had.tools == tools && had.system == system && had.priorTokens >= budget)
      ensures reason.None? ==> c == old(Get(key)) && Get(key) == c
      ensures reason.Some? ==>
        && fresh(c) && fresh(c.seen) && NewPage(c, key, tools, system, v, tier, render)
        && c.epoch == if old(Get(key)) == null then 1 else old(Get(key)).epoch + 1
      ensures key.Channel? ==> privateOne == old(privateOne) && ((key in channels && channels[key] == c) || maxChannels == 0)
      ensures key.Private? ==> privateOne == c && channels == old(channels) && order == old(order)
      ensures forall k | k in channels && k != key :: k in old(channels) && channels[k] == old(channels)[k]
    {
      var had := Get(key);
      reason := Why(had, tools, system, budget);
      if reason.None? {
        c := had;
        if key.Channel? { Touch(key); }
      } else {
        c := OpenPage(key, if had == null then 1 else had.epoch + 1, system, tools, v, tier, at, body, recap);
        Place(key, c);
      }
    }

    method Place(key: Key, c: Conversation)
      requires Valid() && c.key == key
      modifies this`privateOne, this`channels, this`order, this`used
      ensures Valid() && used == old(used) + (if key.Channel? then [key] else [])
      ensures key.Channel? ==> privateOne == old(privateOne) && ((key in channels && channels[key] == c) || maxChannels == 0)
      ensures key.Private? ==> privateOne == c && channels == old(channels) && order == old(order)
      ensures forall k | k in channels && k != key :: k in old(channels) && channels[k] == old(channels)[k]
    {
      if key.Channel? { Store(key, c); } else { privateOne := c; }
    }

    method OpenPage(key: Key, epoch: nat, system: string, tools: string, v: Pages.View, tier: Pages.Tier,
                    at: int, body: seq<string>, recap: seq<string>) returns (c: Conversation)
      ensures fresh(c) && fresh(c.seen) && NewPage(c, key, tools, system, v, tier, render) && c.epoch == epoch
    {
      var seen := new Pages.Seen(parses);
      var parts := seen.EpochStart(v, tier, at, body, recap);
      c := new Conversation(key, epoch, tools, system, seen, [Reply.System(system), Reply.User(render(parts))]);
    }

    method Touch(key: Key)
      requires Valid() && key in channels
      modifies this`order, this`used
      ensures Valid() && used == old(used) + [key]
    {
      UseMore(order, used, key, maxChannels);
      used := used + [key];
      order := Without(order, key) + [key];
    }

    method Store(key: Key, c: Conversation)
      requires Valid() && c.key == key
      modifies this`channels, this`order, this`used
      ensures Valid() && used == old(used) + [key]
      ensures (key in channels && channels[key] == c) || maxChannels == 0
      ensures forall k | k in channels && k != key :: k in old(channels) && channels[k] == old(channels)[k]
    {
      UseMore(order, used, key, maxChannels);
      used := used + [key];
      channels := channels[key := c];
      order := Without(order, key) + [key];
      DropOldest();
    }

    /** Down to `maxChannels`, the least recently used first. */
    method DropOldest()
      requires NoRepeats(order) && forall k :: k in channels <==> k in order
      modifies this`channels, this`order
      ensures order == Last(old(order), maxChannels)
      ensures forall k :: k in channels <==> k in order
      ensures forall k | k in channels :: k in old(channels) && channels[k] == old(channels)[k]
    {
      while |order| > maxChannels
        invariant |order| <= |old(order)| && order == Last(old(order), |order|)
        invariant |order| >= maxChannels || order == old(order)
        invariant NoRepeats(order) && forall k :: k in channels <==> k in order
        invariant forall k | k in channels :: k in old(channels) && channels[k] == old(channels)[k]
        decreases |order|
      {
        FirstGone(order);
        var dropped := order[0];
        order, channels := order[1..], channels - {dropped};
      }
    }
  }

  lemma FirstGone(order: seq<Key>)
    requires order != [] && NoRepeats(order)
    ensures NoRepeats(order[1..]) && forall k :: k in order[1..] <==> k in order && k != order[0]
  {
    assert order == [order[0]] + order[1..];
    NoRepeatsParts([order[0]], order[1..]);
  }
}
