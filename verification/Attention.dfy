/** Who is being listened to: the gate in front of the mind, one engagement session
    a channel. */
module Attention {
  import opened Wrappers

  datatype Channel = Channel(id: string)

  datatype Signal = Dm | Mention | Named | ReplyToBot | Always

  /** A message, with absent fields as None. */
  datatype Message = Message(channel: Option<Channel>, author: Option<string>, at: real,
                             isDm: bool, mentioned: bool, named: bool, replyToBot: bool)

  datatype Event = Heard(m: Message) | Replied(channel: Channel) | Forgot(channel: Channel)

  datatype Decision = L0(signal: Signal) | L1 | NotAdmitted

  datatype Config = Config(always: set<Channel>, maxTurns: nat, base: real, decay: real, engagedWait: real, coldWait: real)

  datatype Session = Session(participants: set<Option<string>>, lastActivity: real, turns: nat, window: real)

  // ---- the history of one channel ----

  predicate On(e: Event, c: Channel) {
    match e
    case Heard(m) => m.channel == Some(c)
    case Replied(d) => d == c
    case Forgot(d) => d == c
  }

  function SignalOf(m: Message, cfg: Config): Option<Signal> {
    if m.isDm then Some(Dm)
    else if m.mentioned then Some(Mention)
    else if m.named then Some(Named)
    else if m.replyToBot then Some(ReplyToBot)
    else if m.channel.Some? && m.channel.value in cfg.always then Some(Always)
    else None
  }

  predicate Calls(e: Event, c: Channel, cfg: Config) { On(e, c) && e.Heard? && SignalOf(e.m, cfg).Some? }

  predicate Plain(e: Event, c: Channel, cfg: Config) { On(e, c) && e.Heard? && SignalOf(e.m, cfg).None? }

  function Pow(x: real, n: nat): real { if n == 0 then 1.0 else Pow(x, n - 1) * x }

  /** Her replies since she was last called. */
  function Replies(h: seq<Event>, c: Channel, cfg: Config): nat {
    if h == [] then 0
    else
      var e, init := h[|h| - 1], h[..|h| - 1];
      if Calls(e, c, cfg) then 0
      else Replies(init, c, cfg) + if On(e, c) && e.Replied? then 1 else 0
  }

  function Window(h: seq<Event>, c: Channel, cfg: Config): real { cfg.base * Pow(cfg.decay, Replies(h, c, cfg)) }

  /** When the last admitted message of the channel came. */
  function LastAdmitted(h: seq<Event>, c: Channel, cfg: Config): real
    decreases |h|, 0
  {
    if h == [] then 0.0
    else
      var e, init := h[|h| - 1], h[..|h| - 1];
      if Calls(e, c, cfg) || (Plain(e, c, cfg) && Continues(init, c, e.m, cfg)) then e.m.at else LastAdmitted(init, c, cfg)
  }

  /** The gap since the last admitted message is within the window. */
  predicate InWindow(h: seq<Event>, c: Channel, at: real, cfg: Config)
    decreases |h|, 1
  {
    at - LastAdmitted(h, c, cfg) < Window(h, c, cfg)
  }

  predicate Engaged(h: seq<Event>, c: Channel, at: real, cfg: Config)
    decreases |h|, 2
  {
    InWindow(h, c, at, cfg) && Replies(h, c, cfg) < cfg.maxTurns
  }

  /** The session called for has not ended: no message came too late or behind too
      many replies, and nobody left. A session nobody spoke in stays, however old. */
  predicate Alive(h: seq<Event>, c: Channel, cfg: Config)
    decreases |h|, 3
  {
    if h == [] then false
    else
      var e, init := h[|h| - 1], h[..|h| - 1];
      if Calls(e, c, cfg) then true
      else Alive(init, c, cfg) && Keeps(init, e, c, cfg)
  }

  /** An event behind the call that does not end the session: a message in time, a
      reply below the limit, anything elsewhere. */
  predicate Keeps(h: seq<Event>, e: Event, c: Channel, cfg: Config)
    decreases |h|, 3
  {
    On(e, c) ==>
      match e
      case Heard(m) => Engaged(h, c, m.at, cfg)
      case Replied(_) => Replies(h, c, cfg) + 1 < cfg.maxTurns
      case Forgot(_) => false
  }

  /** Those who called her since the session opened. */
  function Participants(h: seq<Event>, c: Channel, cfg: Config): set<Option<string>>
    decreases |h|, 4
  {
    if h == [] then {}
    else
      var e, init := h[|h| - 1], h[..|h| - 1];
      if Calls(e, c, cfg) then (if Alive(init, c, cfg) then Participants(init, c, cfg) else {}) + {e.m.author}
      else Participants(init, c, cfg)
  }

  predicate Continues(h: seq<Event>, c: Channel, m: Message, cfg: Config)
    decreases |h|, 5
  {
    Alive(h, c, cfg) && Engaged(h, c, m.at, cfg) && m.author in Participants(h, c, cfg)
  }

  /** What the gate must decide. */
  function Decide(h: seq<Event>, m: Message, cfg: Config): Decision {
    if m.channel.None? then NotAdmitted
    else if SignalOf(m, cfg).Some? then L0(SignalOf(m, cfg).value)
    else if Continues(h, m.channel.value, m, cfg) then L1
    else NotAdmitted
  }

  // ---- what the definitions mean ----

  /** The last call of the channel is at `i`. */
  predicate LastCall(h: seq<Event>, c: Channel, cfg: Config, i: nat) {
    i < |h| && Calls(h[i], c, cfg) && forall k | i < k < |h| :: !Calls(h[k], c, cfg)
  }

  predicate KeepsAt(h: seq<Event>, k: nat, c: Channel, cfg: Config)
    requires k < |h|
  {
    Keeps(h[..k], h[k], c, cfg)
  }

  /** Nothing behind the last call ended the session. */
  predicate Unbroken(h: seq<Event>, c: Channel, cfg: Config, i: nat) {
    forall k | i < k < |h| :: KeepsAt(h, k, c, cfg)
  }

  lemma Init(h: seq<Event>, k: nat, c: Channel, cfg: Config)
    requires k < |h| - 1
    ensures KeepsAt(h[..|h| - 1], k, c, cfg) == KeepsAt(h, k, c, cfg)
  {
    assert h[..|h| - 1][..k] == h[..k];
  }

  /** Without another call the session is unbroken as far as it was, if the last event
      keeps it. */
  lemma UnbrokenStep(h: seq<Event>, c: Channel, cfg: Config, i: nat)
    requires i < |h| - 1
    ensures Unbroken(h, c, cfg, i) <==> Unbroken(h[..|h| - 1], c, cfg, i) && Keeps(h[..|h| - 1], h[|h| - 1], c, cfg)
  {
    var n := |h| - 1;
    forall k | i < k < n ensures KeepsAt(h[..n], k, c, cfg) == KeepsAt(h, k, c, cfg) { Init(h, k, c, cfg); }
    assert KeepsAt(h, n, c, cfg) == Keeps(h[..n], h[n], c, cfg);
    if Unbroken(h, c, cfg, i) {
      forall k | i < k < n ensures KeepsAt(h[..n], k, c, cfg) { assert KeepsAt(h, k, c, cfg); }
    }
    if Unbroken(h[..n], c, cfg, i) && Keeps(h[..n], h[n], c, cfg) {
      forall k | i < k < |h| ensures KeepsAt(h, k, c, cfg) { if k < n { assert KeepsAt(h[..n], k, c, cfg); } }
    }
  }

  /** A session lives exactly when nothing behind the channel's last call ended it. */
  lemma {:induction false} AliveMeans(h: seq<Event>, c: Channel, cfg: Config)
    ensures Alive(h, c, cfg) <==> exists i :: LastCall(h, c, cfg, i) && Unbroken(h, c, cfg, i)
  {
    if h != [] {
      var init, n := h[..|h| - 1], |h| - 1;
      AliveMeans(init, c, cfg);
      if Calls(h[n], c, cfg) {
        assert LastCall(h, c, cfg, n) && Unbroken(h, c, cfg, n);
      } else {
        forall i: nat ensures LastCall(h, c, cfg, i) <==> LastCall(init, c, cfg, i) {
          LastCallStep(h, c, cfg, i);
        }
        forall i: nat | i < n ensures Unbroken(h, c, cfg, i) <==> Unbroken(init, c, cfg, i) && Keeps(init, h[n], c, cfg) {
          UnbrokenStep(h, c, cfg, i);
        }
      }
    }
  }

  lemma LastCallStep(h: seq<Event>, c: Channel, cfg: Config, i: nat)
    requires h != [] && !Calls(h[|h| - 1], c, cfg)
    ensures LastCall(h, c, cfg, i) <==> LastCall(h[..|h| - 1], c, cfg, i)
  {
    var init := h[..|h| - 1];
    if LastCall(init, c, cfg, i) {
      forall k | i < k < |h| ensures !Calls(h[k], c, cfg) { if k < |init| { assert !Calls(init[k], c, cfg); } }
    }
    if LastCall(h, c, cfg, i) {
      forall k | i < k < |init| ensures !Calls(init[k], c, cfg) { assert !Calls(h[k], c, cfg); }
    }
  }

  /** The session was alive from behind position `j` until now. */
  predicate AliveSince(h: seq<Event>, c: Channel, cfg: Config, j: nat)
  {
    forall k | j < k <= |h| :: Alive(h[..k], c, cfg)
  }

  predicate CalledBy(h: seq<Event>, c: Channel, cfg: Config, a: Option<string>, j: nat) {
    j < |h| && Calls(h[j], c, cfg) && h[j].m.author == a && AliveSince(h, c, cfg, j)
  }

  /** A participant of a living session called her in it. */
  lemma {:induction false} ParticipantsMean(h: seq<Event>, c: Channel, cfg: Config, a: Option<string>)
    requires Alive(h, c, cfg)
    ensures a in Participants(h, c, cfg) <==> exists j :: CalledBy(h, c, cfg, a, j)
  {
    var init, n := h[..|h| - 1], |h| - 1;
    assert h[..|h|] == h && h[..n] == init;
    forall j: nat | j < n ensures CalledBy(h, c, cfg, a, j) <==> CalledBy(init, c, cfg, a, j) && Alive(init, c, cfg) {
      SinceStep(h, c, cfg, j);
    }
    if Alive(init, c, cfg) { ParticipantsMean(init, c, cfg, a); }
    if Calls(h[n], c, cfg) && h[n].m.author == a { assert CalledBy(h, c, cfg, a, n); }
  }

  lemma SinceStep(h: seq<Event>, c: Channel, cfg: Config, j: nat)
    requires h != [] && j < |h| - 1 && Alive(h, c, cfg)
    ensures AliveSince(h, c, cfg, j) <==> AliveSince(h[..|h| - 1], c, cfg, j)
    ensures AliveSince(h, c, cfg, j) ==> Alive(h[..|h| - 1], c, cfg)
  {
    var init, n := h[..|h| - 1], |h| - 1;
    assert h[..|h|] == h;
    forall k | j < k <= n ensures h[..k] == init[..k] {}
    if AliveSince(init, c, cfg, j) {
      forall k | j < k <= |h| ensures Alive(h[..k], c, cfg) { if k <= n { assert Alive(init[..k], c, cfg); } }
    }
    if AliveSince(h, c, cfg, j) {
      forall k | j < k <= n ensures Alive(init[..k], c, cfg) { assert Alive(h[..k], c, cfg); }
      assert Alive(h[..n], c, cfg);
    }
  }

  /** She goes on listening without a call exactly when: the channel's last call was
      followed by nothing that ended the session, the author called her in it, she
      replied less than the limit since the last call, and the gap since the last
      admitted message is below the window, which shrinks with every reply. */
  lemma ContinuesMeans(h: seq<Event>, c: Channel, m: Message, cfg: Config)
    ensures Continues(h, c, m, cfg) <==>
      && (exists i :: LastCall(h, c, cfg, i) && Unbroken(h, c, cfg, i))
      && (exists j :: CalledBy(h, c, cfg, m.author, j))
      && Replies(h, c, cfg) < cfg.maxTurns
      && m.at - LastAdmitted(h, c, cfg) < cfg.base * Pow(cfg.decay, Replies(h, c, cfg))
  {
    ContinuesParts(h, c, m, cfg);
    AliveMeans(h, c, cfg);
    if Alive(h, c, cfg) { ParticipantsMean(h, c, cfg, m.author); }
  }

  lemma ContinuesParts(h: seq<Event>, c: Channel, m: Message, cfg: Config)
    ensures Continues(h, c, m, cfg) <==>
      && Alive(h, c, cfg) && m.author in Participants(h, c, cfg) && Replies(h, c, cfg) < cfg.maxTurns
      && m.at - LastAdmitted(h, c, cfg) < cfg.base * Pow(cfg.decay, Replies(h, c, cfg))
  {
    InTime(h, c, m.at, cfg);
  }

  lemma InTime(h: seq<Event>, c: Channel, at: real, cfg: Config)
    ensures InWindow(h, c, at, cfg) <==> at - LastAdmitted(h, c, cfg) < Window(h, c, cfg)
    ensures Engaged(h, c, at, cfg) <==> InWindow(h, c, at, cfg) && Replies(h, c, cfg) < cfg.maxTurns
  {
  }

  /** The channel's own events, in order. */
  function Own(h: seq<Event>, c: Channel): seq<Event> {
    if h == [] then [] else Own(h[..|h| - 1], c) + if On(h[|h| - 1], c) then [h[|h| - 1]] else []
  }

  /** The two histories give the channel the same session. */
  ghost predicate Alike(g: seq<Event>, h: seq<Event>, c: Channel, cfg: Config) {
    && Alive(g, c, cfg) == Alive(h, c, cfg) && Replies(g, c, cfg) == Replies(h, c, cfg)
    && LastAdmitted(g, c, cfg) == LastAdmitted(h, c, cfg) && Participants(g, c, cfg) == Participants(h, c, cfg)
  }

  lemma AlikeMore(g: seq<Event>, h: seq<Event>, e: Event, c: Channel, cfg: Config)
    requires Alike(g, h, c, cfg)
    ensures Alike(g + [e], h + [e], c, cfg)
  {
    Steps(g, e, c, cfg);
    Steps(h, e, c, cfg);
    if e.Heard? {
      InTime(g, c, e.m.at, cfg);
      InTime(h, c, e.m.at, cfg);
    }
  }

  /** Other channels never matter. */
  lemma {:induction false} ChannelsApart(h: seq<Event>, c: Channel, cfg: Config)
    ensures Alike(h, Own(h, c), c, cfg)
  {
    if h != [] {
      var init, e := h[..|h| - 1], h[|h| - 1];
      ChannelsApart(init, c, cfg);
      assert h == init + [e];
      if On(e, c) {
        AlikeMore(init, Own(init, c), e, c, cfg);
      } else {
        Steps(init, e, c, cfg);
        assert Own(h, c) == Own(init, c);
      }
    }
  }

  lemma DecisionsApart(g: seq<Event>, h: seq<Event>, m: Message, cfg: Config)
    requires m.channel.Some? && Own(g, m.channel.value) == Own(h, m.channel.value)
    ensures Decide(g, m, cfg) == Decide(h, m, cfg)
  {
    ChannelsApart(g, m.channel.value, cfg);
    ChannelsApart(h, m.channel.value, cfg);
    InTime(g, m.channel.value, m.at, cfg);
    InTime(h, m.channel.value, m.at, cfg);
  }

  // ---- the gate ----

  class AttentionGate {
    const cfg: Config
    var sessions: map<Channel, Session>
    ghost var history: seq<Event>

    /** The session of a channel is what its history says. */
    ghost predicate Valid()
      reads this
    {
      forall c :: Agrees(sessions, c, history, cfg)
    }

    constructor (cfg: Config)
      ensures Valid() && history == [] && this.cfg == cfg
    {
      this.cfg, sessions, history := cfg, map[], [];
    }

    method Admit(m: Message) returns (d: Decision)
      requires Valid()
      modifies this
      ensures Valid() && history == old(history) + [Heard(m)]
      ensures d == Decide(old(history), m, cfg)
      ensures d.L0? <==> m.channel.Some? && (m.isDm || m.mentioned || m.named || m.replyToBot || m.channel.value in cfg.always)
      ensures d.L0? ==> match d.signal
                        case Dm => m.isDm
                        case Mention => !m.isDm && m.mentioned
                        case Named => !m.isDm && !m.mentioned && m.named
                        case ReplyToBot => !m.isDm && !m.mentioned && !m.named && m.replyToBot
                        case Always => !m.isDm && !m.mentioned && !m.named && !m.replyToBot
    {
      d := NotAdmitted;
      if m.channel.Some? {
        assert Agrees(sessions, m.channel.value, history, cfg);
        d := AdmitOn(m.channel.value, m);
      }
      forall c | m.channel != Some(c) ensures Agrees(sessions, c, history + [Heard(m)], cfg) {
        Elsewhere(old(sessions), sessions, history, Heard(m), c, cfg);
      }
      history := history + [Heard(m)];
    }

    method AdmitOn(c: Channel, m: Message) returns (d: Decision)
      requires Agrees(sessions, c, history, cfg) && m.channel == Some(c)
      modifies this`sessions
      ensures Agrees(sessions, c, history + [Heard(m)], cfg) && d == Decide(history, m, cfg)
      ensures forall x | x != c :: (x in sessions <==> x in old(sessions)) && (x in sessions ==> sessions[x] == old(sessions)[x])
    {
      Steps(history, Heard(m), c, cfg);
      InTime(history, c, m.at, cfg);
      var signal := SignalOf(m, cfg);
      if signal.Some? {
        if c !in sessions {
          sessions := sessions[c := Session({m.author}, m.at, 0, cfg.base)];
        } else {
          var s := sessions[c];
          sessions := sessions[c := s.(participants := s.participants + {m.author}, lastActivity := m.at, turns := 0, window := cfg.base)];
        }
        return L0(signal.value);
      }
      if c !in sessions { return NotAdmitted; }
      var s := sessions[c];
      var expired := m.at - s.lastActivity >= s.window;
      var disengaged := s.turns >= cfg.maxTurns;
      if expired || disengaged {
        sessions := sessions - {c};
        return NotAdmitted;
      }
      if m.author !in s.participants { return NotAdmitted; }
      sessions := sessions[c := s.(lastActivity := m.at)];
      d := L1;
    }

    method NoteReply(c: Channel)
      requires Valid()
      modifies this
      ensures Valid() && history == old(history) + [Replied(c)]
    {
      assert Agrees(sessions, c, history, cfg);
      Steps(history, Replied(c), c, cfg);
      if c in sessions {
        var s := sessions[c];
        s := s.(turns := s.turns + 1, window := s.window * cfg.decay);
        Shrinks(history, c, cfg);
        sessions := if s.turns >= cfg.maxTurns then sessions - {c} else sessions[c := s];
      }
      assert Agrees(sessions, c, history + [Replied(c)], cfg);
      forall d | d != c ensures Agrees(sessions, d, history + [Replied(c)], cfg) {
        Elsewhere(old(sessions), sessions, history, Replied(c), d, cfg);
      }
      history := history + [Replied(c)];
    }

    /** Idempotent. */
    method Forget(c: Channel)
      requires Valid()
      modifies this
      ensures Valid() && history == old(history) + [Forgot(c)]
    {
      Steps(history, Forgot(c), c, cfg);
      sessions := sessions - {c};
      assert Agrees(sessions, c, history + [Forgot(c)], cfg);
      forall d | d != c ensures Agrees(sessions, d, history + [Forgot(c)], cfg) {
        Elsewhere(old(sessions), sessions, history, Forgot(c), d, cfg);
      }
      history := history + [Forgot(c)];
    }

    method IsEngaged(c: Channel, now: real) returns (b: bool)
      requires Valid()
      ensures b <==> Alive(history, c, cfg) && InWindow(history, c, now, cfg)
    {
      assert Agrees(sessions, c, history, cfg);
      InTime(history, c, now, cfg);
      if c !in sessions { return false; }
      var s := sessions[c];
      b := now - s.lastActivity < s.window;
    }

    /** How long to wait for more messages: longer on a cold channel, never for a DM
        or the owner. */
    method WindowFor(c: Channel, now: real, isDm: bool, isOwner: bool) returns (w: real)
      requires Valid()
      ensures w == if isDm || isOwner || (Alive(history, c, cfg) && InWindow(history, c, now, cfg)) then cfg.engagedWait else cfg.coldWait
    {
      var engaged := IsEngaged(c, now);
      w := if isDm || isOwner || engaged then cfg.engagedWait else cfg.coldWait;
    }
  }

  /** One more reply shrinks the window by the decay. */
  lemma Shrinks(h: seq<Event>, c: Channel, cfg: Config)
    ensures Window(h + [Replied(c)], c, cfg) == Window(h, c, cfg) * cfg.decay
  {
    assert (h + [Replied(c)])[..|h|] == h;
    var n := Replies(h, c, cfg);
    assert Pow(cfg.decay, n + 1) == Pow(cfg.decay, n) * cfg.decay;
    assert cfg.base * (Pow(cfg.decay, n) * cfg.decay) == cfg.base * Pow(cfg.decay, n) * cfg.decay;
  }

  ghost predicate Agrees(sessions: map<Channel, Session>, c: Channel, h: seq<Event>, cfg: Config) {
    && (c in sessions <==> Alive(h, c, cfg))
    && (c in sessions ==> sessions[c] == Expected(h, c, cfg))
  }

  /** Channels the event is not on keep their sessions. */
  lemma Elsewhere(was: map<Channel, Session>, now: map<Channel, Session>, h: seq<Event>, e: Event, d: Channel, cfg: Config)
    requires Agrees(was, d, h, cfg) && !On(e, d)
    requires (d in now <==> d in was) && (d in now ==> now[d] == was[d])
    ensures Agrees(now, d, h + [e], cfg)
  {
    Steps(h, e, d, cfg);
  }

  function Expected(h: seq<Event>, c: Channel, cfg: Config): Session {
    Session(Participants(h, c, cfg), LastAdmitted(h, c, cfg), Replies(h, c, cfg), Window(h, c, cfg))
  }

  /** How one event moves a channel's session. */
  ghost predicate Step(h: seq<Event>, e: Event, c: Channel, cfg: Config) {
    var g := h + [e];
    && Alive(g, c, cfg) == (Calls(e, c, cfg) || (Alive(h, c, cfg) && Keeps(h, e, c, cfg)))
    && Replies(g, c, cfg) == (if Calls(e, c, cfg) then 0 else Replies(h, c, cfg) + if e == Replied(c) then 1 else 0)
    && Participants(g, c, cfg) == (if Calls(e, c, cfg) then (if Alive(h, c, cfg) then Participants(h, c, cfg) else {}) + {e.m.author}
                                   else Participants(h, c, cfg))
    && LastAdmitted(g, c, cfg) == (if Calls(e, c, cfg) || (Plain(e, c, cfg) && Continues(h, c, e.m, cfg)) then e.m.at
                                   else LastAdmitted(h, c, cfg))
  }

  lemma Steps(h: seq<Event>, e: Event, c: Channel, cfg: Config)
    ensures Step(h, e, c, cfg)
  {
    assert (h + [e])[..|h|] == h;
  }
}
