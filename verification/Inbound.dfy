/** The daemon's side of a channel message: admitted or dropped, batched by channel,
    queued when the batch's window is over. */
module Inbound {
  import opened Wrappers
  import opened Attention

  /** A message on its way, with its channel. */
  datatype Item = Item(channel: Channel, message: Message)

  /** The channel's items, in order. */
  function Of(items: seq<Item>, c: Channel): seq<Item> {
    if items == [] then []
    else Of(items[..|items| - 1], c) + if items[|items| - 1].channel == c then [items[|items| - 1]] else []
  }

  lemma {:induction false} OfAppend(a: seq<Item>, b: seq<Item>, c: Channel)
    ensures Of(a + b, c) == Of(a, c) + Of(b, c)
  {
    if b == [] {
      assert a + b == a;
    } else {
      assert (a + b)[..|a + b| - 1] == a + b[..|b| - 1];
      OfAppend(a, b[..|b| - 1], c);
    }
  }

  lemma {:induction false} OfOne(items: seq<Item>, d: Channel, c: Channel)
    requires forall x | x in items :: x.channel == d
    ensures Of(items, c) == if c == d then items else []
  {
    if items != [] {
      assert items == items[..|items| - 1] + [items[|items| - 1]];
      OfOne(items[..|items| - 1], d, c);
    }
  }

  // ---- batches ----

  function Pending(pending: map<Channel, seq<Item>>, c: Channel): seq<Item> { if c in pending then pending[c] else [] }

  /** What was queued and what is pending of a channel is what was added. */
  ghost predicate Balanced(queue: seq<Item>, pending: map<Channel, seq<Item>>, added: seq<Item>, c: Channel) {
    Of(queue, c) + Pending(pending, c) == Of(added, c)
  }

  lemma BalancedAdd(queue: seq<Item>, pending: map<Channel, seq<Item>>, added: seq<Item>, item: Item, d: Channel)
    requires Balanced(queue, pending, added, d)
    ensures Balanced(queue, pending[item.channel := Pending(pending, item.channel) + [item]], added + [item], d)
  {
    OfSnoc(added, item, d);
    if item.channel == d { assert Of(queue, d) + (Pending(pending, d) + [item]) == Of(queue, d) + Pending(pending, d) + [item]; }
  }

  lemma BalancedFlush(queue: seq<Item>, pending: map<Channel, seq<Item>>, added: seq<Item>, c: Channel, d: Channel)
    requires Balanced(queue, pending, added, d) && c in pending && forall x | x in pending[c] :: x.channel == c
    ensures Balanced(queue + pending[c], pending - {c}, added, d)
  {
    OfAppend(queue, pending[c], d);
    OfOne(pending[c], c, d);
  }

  /** Every timer is a sleeping task's, and the other way round. */
  ghost predicate Timed(timers: map<Channel, nat>, sleeping: map<nat, (Channel, real)>, made: nat) {
    && (forall c | c in timers :: timers[c] in sleeping && sleeping[timers[c]].0 == c)
    && (forall t | t in sleeping :: t < made && sleeping[t].0 in timers && timers[sleeping[t].0] == t)
  }

  class BatchAccumulator {
    const window: real
    var pending: map<Channel, seq<Item>>
    var timers: map<Channel, nat>
    var sleeping: map<nat, (Channel, real)>     // timers not fired nor cancelled
    var made: nat
    var queue: seq<Item>                        // what was enqueued
    ghost var added: seq<Item>

    /** Every open batch has one timer, and every timer a batch; nothing added is lost,
        doubled or out of order. */
    ghost predicate Valid()
      reads this
    {
      && pending.Keys == timers.Keys && Timed(timers, sleeping, made)
      && (forall c | c in pending :: pending[c] != [] && forall x | x in pending[c] :: x.channel == c)
      && (forall c :: Balanced(queue, pending, added, c))
    }

    constructor (window: real)
      ensures Valid() && added == [] && queue == [] && this.window == window
    {
      this.window := window;
      pending, timers, sleeping, made, queue, added := map[], map[], map[], 0, [], [];
    }

    method Add(item: Item, window: Option<real>)
      requires Valid()
      modifies this
      ensures Valid() && added == old(added) + [item] && queue == old(queue)
      ensures var c := item.channel;
              && c in timers && timers[c] in sleeping
              && sleeping[timers[c]] == if c in old(timers) then old(sleeping)[old(timers)[c]] else (c, window.GetOr(this.window))
    {
      var c := item.channel;
      if c !in pending { OpenBatch(c, if window.Some? then window.value else this.window); }
      ghost var before := pending;
      pending := pending[c := Pending(pending, c) + [item]];
      added := added + [item];
      forall d ensures Balanced(queue, pending, added, d) {
        BalancedAdd(queue, before, old(added), item, d);
      }
    }

    method OpenBatch(c: Channel, wait: real)
      requires Timed(timers, sleeping, made) && c !in timers
      modifies this`timers, this`sleeping, this`made
      ensures Timed(timers, sleeping, made)
      ensures timers == old(timers)[c := old(made)] && sleeping == old(sleeping)[old(made) := (c, wait)]
    {
      timers, sleeping := timers[c := made], sleeping[made := (c, wait)];
      made := made + 1;
    }

    /** The timer's sleep is over. */
    method Fire(t: nat)
      requires Valid() && t in sleeping
      modifies this
      ensures Valid() && added == old(added) && sleeping == old(sleeping) - {t}
      ensures var c := old(sleeping)[t].0;
              && queue == old(queue) + old(pending)[c] && pending == old(pending) - {c}
              && forall x | x in old(pending)[c] :: x.channel == c
    {
      var c := sleeping[t].0;
      ghost var items := pending[c];
      sleeping := sleeping - {t};
      Flush(c);
    }

    /** `_flush`, and the queue's side of it, one perception an item. */
    method Flush(c: Channel)
      requires c in pending && (forall x | x in pending[c] :: x.channel == c)
      requires forall d :: Balanced(queue, pending, added, d)
      modifies this`pending, this`timers, this`queue
      ensures pending == old(pending) - {c} && timers == old(timers) - {c}
      ensures queue == old(queue) + old(pending)[c]
      ensures forall d :: Balanced(queue, pending, added, d)
    {
      var items := pending[c];
      pending, timers := pending - {c}, timers - {c};
      for n := 0 to |items|
        invariant queue == old(queue) + items[..n]
        invariant pending == old(pending) - {c} && timers == old(timers) - {c}
      {
        assert items[..n + 1] == items[..n] + [items[n]];
        queue := queue + [items[n]];
      }
      assert items[..|items|] == items;
      forall d ensures Balanced(queue, pending, added, d) { BalancedFlush(old(queue), old(pending), added, c, d); }
    }

    /** Shutdown: every timer is cancelled, every batch flushed. */
    method FlushAll()
      requires Valid()
      modifies this
      ensures Valid() && added == old(added) && pending == map[] && sleeping == map[]
      ensures forall c :: Of(queue, c) == Of(added, c)
    {
      sleeping := map[];
      while pending != map[]
        invariant pending.Keys == timers.Keys && sleeping == map[]
        invariant forall c | c in pending :: forall x | x in pending[c] :: x.channel == c
        invariant added == old(added) && forall c :: Balanced(queue, pending, added, c)
        decreases |pending|
      {
        var c :| c in pending;
        assert (pending - {c}).Keys == pending.Keys - {c};
        Flush(c);
      }
      forall c ensures Of(queue, c) == Of(added, c) { assert Balanced(queue, pending, added, c); }
    }
  }

  // ---- the channel events of the kernel ----

  /** The messages the gate admitted, in order. */
  function Admitted(h: seq<Event>, cfg: Config): seq<Item> {
    if h == [] then []
    else
      var init, e := h[..|h| - 1], h[|h| - 1];
      Admitted(init, cfg)
      + if e.Heard? && Passes(init, e.m, cfg) then [Item(e.m.channel.value, e.m)] else []
  }

  predicate Passes(h: seq<Event>, m: Message, cfg: Config) { m.channel.Some? && !Decide(h, m, cfg).NotAdmitted? }

  /** How long the first message of a batch waits for more. */
  function WaitOf(h: seq<Event>, m: Message, c: Channel, isOwner: bool, cfg: Config): real {
    if m.isDm || isOwner || (Alive(h, c, cfg) && InWindow(h, c, m.at, cfg)) then cfg.engagedWait else cfg.coldWait
  }

  lemma AdmittedMore(h: seq<Event>, e: Event, cfg: Config)
    ensures Admitted(h + [e], cfg)
            == Admitted(h, cfg) + if e.Heard? && Passes(h, e.m, cfg) then [Item(e.m.channel.value, e.m)] else []
  {
    assert (h + [e])[..|h|] == h;
  }

  /** An admitted message of the owner whose handler awaits the preemption, with the
      wait it will join its batch with. */
  datatype Join = Join(item: Item, wait: real)

  function Joining(joins: map<Channel, Join>, c: Channel): seq<Item> { if c in joins then [joins[c].item] else [] }

  /** What joined and what is about to is what was admitted. */
  ghost predicate Entered(added: seq<Item>, joins: map<Channel, Join>, admitted: seq<Item>, c: Channel) {
    Of(added, c) + Joining(joins, c) == Of(admitted, c)
  }

  lemma EnteredMore(added: seq<Item>, joins: map<Channel, Join>, admitted: seq<Item>, item: Item, wait: real, c: Channel)
    requires Entered(added, joins, admitted, c) && item.channel !in joins
    ensures Entered(added + [item], joins, admitted + [item], c)
    ensures Entered(added, joins[item.channel := Join(item, wait)], admitted + [item], c)
  {
    OfSnoc(admitted, item, c);
    OfSnoc(added, item, c);
    if item.channel == c {
      assert Joining(joins, c) == [] && Of(added, c) + [] == Of(added, c) && Of(added, c) + [item] + [] == Of(added, c) + [item];
    }
  }

  lemma OfSnoc(items: seq<Item>, item: Item, c: Channel)
    ensures Of(items + [item], c) == Of(items, c) + if item.channel == c then [item] else []
  {
    assert (items + [item])[..|items|] == items;
  }

  lemma EnteredJoin(added: seq<Item>, joins: map<Channel, Join>, admitted: seq<Item>, d: Channel, c: Channel)
    requires Entered(added, joins, admitted, c) && d in joins && joins[d].item.channel == d
    ensures Entered(added + [joins[d].item], joins - {d}, admitted, c)
  {
    OfSnoc(added, joins[d].item, c);
    if c == d { assert Of(added, c) + [joins[d].item] + [] == Of(added, c) + [joins[d].item]; }
  }

  class Inbox {
    const gate: AttentionGate
    const batches: BatchAccumulator
    var joins: map<Channel, Join>            // handlers that await between the gate and the batch

    ghost predicate Valid()
      reads this, gate, batches
    {
      && gate.Valid() && batches.Valid()
      && (forall c | c in joins :: joins[c].item.channel == c)
      && (forall c :: Entered(batches.added, joins, Admitted(gate.history, gate.cfg), c))
    }

    constructor (cfg: Config)
      ensures Valid() && fresh(gate) && fresh(batches) && gate.cfg == cfg && gate.history == []
      ensures batches.queue == [] && joins == map[]
    {
      gate := new AttentionGate(cfg);
      batches := new BatchAccumulator(cfg.coldWait);
      joins := map[];
    }

    /** A ChannelEvent. The wait of a new batch is read before the gate opens the
        session for this very message. `suspends`: preempting for the owner's message
        awaits; until it goes on, its connection, and so its channel, hands in
        nothing. */
    method OnChannelEvent(channel: Channel, payload: Message, isOwner: bool, suspends: bool)
      requires Valid() && channel !in joins
      modifies this, gate, batches
      ensures Valid() && batches.queue == old(batches.queue)
      ensures gate.history == old(gate.history) + [Heard(payload.(channel := Some(channel)))]
      ensures var m, h := payload.(channel := Some(channel)), old(gate.history);
              if !Passes(h, m, gate.cfg) then batches.added == old(batches.added) && joins == old(joins)
              else if isOwner && suspends
              then batches.added == old(batches.added)
                   && joins == old(joins)[channel := Join(Item(channel, m), WaitOf(h, m, channel, isOwner, gate.cfg))]
              else batches.added == old(batches.added) + [Item(channel, m)] && joins == old(joins)
                   && (channel !in old(batches.timers) ==> Opened(channel, WaitOf(h, m, channel, isOwner, gate.cfg)))
    {
      var m := payload.(channel := Some(channel));
      ghost var h := gate.history;
      var wait := gate.WindowFor(channel, m.at, m.isDm, isOwner);
      assert wait == WaitOf(h, m, channel, isOwner, gate.cfg);
      var decision := gate.Admit(m);
      assert decision.NotAdmitted? == !Passes(h, m, gate.cfg);
      AdmittedMore(h, Heard(m), gate.cfg);
      if decision.NotAdmitted? {
        assert Admitted(gate.history, gate.cfg) == Admitted(h, gate.cfg);
        return;
      }
      Enter(Item(channel, m), wait, isOwner && suspends, Admitted(h, gate.cfg));
    }

    /** Behind the gate: into the batch, or first into the preemption's await. */
    method Enter(item: Item, wait: real, suspends: bool, ghost admitted: seq<Item>)
      requires batches.Valid() && item.channel !in joins && forall c | c in joins :: joins[c].item.channel == c
      requires forall c :: Entered(batches.added, joins, admitted, c)
      modifies this, batches
      ensures batches.Valid() && batches.queue == old(batches.queue)
      ensures forall c | c in joins :: joins[c].item.channel == c
      ensures forall c :: Entered(batches.added, joins, admitted + [item], c)
      ensures if suspends then batches.added == old(batches.added) && joins == old(joins)[item.channel := Join(item, wait)]
              else batches.added == old(batches.added) + [item] && joins == old(joins)
                   && (item.channel !in old(batches.timers) ==> Opened(item.channel, wait))
    {
      ghost var added, before := batches.added, joins;
      if suspends { joins := joins[item.channel := Join(item, wait)]; } else { batches.Add(item, Some(wait)); }
      forall c ensures Entered(batches.added, joins, admitted + [item], c) {
        assert Entered(added, before, admitted, c);
        EnteredMore(added, before, admitted, item, wait, c);
      }
    }

    /** The channel's batch is open, with its own timer. */
    predicate Opened(c: Channel, wait: real)
      reads batches
    {
      c in batches.timers && batches.timers[c] in batches.sleeping && batches.sleeping[batches.timers[c]] == (c, wait)
    }

    /** The preemption is over: the handler goes on into the batch. */
    method OnPreempted(channel: Channel)
      requires Valid() && channel in joins
      modifies this, batches
      ensures Valid() && batches.queue == old(batches.queue) && joins == old(joins) - {channel}
      ensures batches.added == old(batches.added) + [old(joins)[channel].item]
      ensures channel !in old(batches.timers) ==> Opened(channel, old(joins)[channel].wait)
    {
      var j := joins[channel];
      ghost var added, before := batches.added, joins;
      joins := joins - {channel};
      batches.Add(j.item, Some(j.wait));
      forall c ensures Entered(batches.added, joins, Admitted(gate.history, gate.cfg), c) {
        assert Entered(added, before, Admitted(gate.history, gate.cfg), c);
        EnteredJoin(added, before, Admitted(gate.history, gate.cfg), channel, c);
      }
    }

    method OnReply(channel: Channel)
      requires Valid()
      modifies gate
      ensures Valid() && gate.history == old(gate.history) + [Replied(channel)]
    {
      AdmittedMore(gate.history, Replied(channel), gate.cfg);
      gate.NoteReply(channel);
      assert Admitted(gate.history, gate.cfg) == old(Admitted(gate.history, gate.cfg));
    }

    method OnDisconnect(channel: Channel)
      requires Valid()
      modifies gate
      ensures Valid() && gate.history == old(gate.history) + [Forgot(channel)]
    {
      AdmittedMore(gate.history, Forgot(channel), gate.cfg);
      gate.Forget(channel);
      assert Admitted(gate.history, gate.cfg) == old(Admitted(gate.history, gate.cfg));
    }

    method OnTimer(t: nat)
      requires Valid() && t in batches.sleeping
      modifies batches
      ensures Valid() && gate.history == old(gate.history)
    {
      batches.Fire(t);
    }

    /** What was queued is what was admitted, channel by channel, each once and in
        order, for any interleaving of messages, preemptions, replies and timers; but
        for a message still behind its preemption, which is the channel's last. */
    method Shutdown()
      requires Valid()
      modifies batches
      ensures Valid()
      ensures forall c :: Of(batches.queue, c) + Joining(joins, c) == Of(Admitted(gate.history, gate.cfg), c)
    {
      batches.FlushAll();
      forall c ensures Of(batches.queue, c) + Joining(joins, c) == Of(Admitted(gate.history, gate.cfg), c) {
        assert Entered(batches.added, joins, Admitted(gate.history, gate.cfg), c);
      }
    }
  }

  /** Before that: what is queued of a channel is the first of what was admitted. */
  lemma QueuedInOrder(b: Inbox, c: Channel)
    requires b.Valid()
    ensures Of(b.batches.queue, c) <= Of(Admitted(b.gate.history, b.gate.cfg), c)
  {
    assert Balanced(b.batches.queue, b.batches.pending, b.batches.added, c);
    assert Entered(b.batches.added, b.joins, Admitted(b.gate.history, b.gate.cfg), c);
  }
}
