/** What a conversation page tells: the snapshot that opens it, the deltas that
    follow, and the memory hits given on it. */
module Pages {
  import opened Wrappers
  import opened Strings

  const MEMORY_HITS_PER_TURN := 3
  const ASSOCIATIVE_HITS_PER_TURN := 6

  datatype Name = SelfProfile | MindState | Agenda | OpenLoops | Schedule

  datatype Tier = Internal | ExternalDm | ExternalPublic

  datatype Block = Block(name: Name, text: string)

  /** A memory hit's identity; hashes are injective. */
  datatype Key = ChunkHash(hash: string) | TextHash(source: string, content: string)

  datatype Hit = Hit(hash: string, source: string, content: string)

  function HitKey(h: Hit): Key {
    if h.hash != "" then ChunkHash(h.hash) else TextHash(h.source, h.content)
  }

  /** The key of some hit. */
  predicate Real(k: Key) { k.ChunkHash? ==> k.hash != "" }

  function Keys(hits: seq<Hit>): set<Key> { set h | h in hits :: HitKey(h) }

  /** One block of a user message. */
  datatype Part =
    | Stamp(at: int)
    | Shot(block: Block)
    | SafeMode(on: bool, reason: string)
    | Event(text: string)
    | Memory(hits: seq<Hit>)
    | Associative(hits: seq<Hit>)
    | Habits(hits: seq<Hit>)
    | Lines(lines: seq<string>)

  /** The state a snapshot renders; `agenda`, `loops` and `schedule` already in text. */
  datatype View = View(
    emotion: string, reason: string, focus: string, energy: Option<string>,
    profile: string, agenda: string, loops: string, schedule: string,
    safeMode: bool, safeReason: string)

  // ---- the snapshot ----

  function ProfileText(profile: string): string { "[Self profile]\n" + if profile == "" then "(empty)" else profile }

  function ScheduleText(schedule: string): string { "[Today's schedule]\n" + if schedule == "" then "(none)" else schedule }

  function MindText(v: View, tier: Tier): string {
    var mood := if tier.ExternalPublic? then "mood: " + v.emotion
                else "mood: " + v.emotion + (if v.reason == "" then "" else " (" + v.reason + ")") + "\nfocus: " + v.focus;
    "[Mind state]\n" + mood + if v.energy.Some? then "\n" + v.energy.value else ""
  }

  /** The blocks a tier may see, in order. */
  function Snapshot(v: View, tier: Tier): seq<Block> {
    [Block(SelfProfile, ProfileText(v.profile)), Block(MindState, MindText(v, tier))]
    + if tier.ExternalPublic? then []
      else [Block(Agenda, "[Your agenda]\n" + v.agenda), Block(OpenLoops, "[Open loops]\n" + v.loops),
            Block(Schedule, ScheduleText(v.schedule))]
  }

  function SafeNow(v: View): (bool, string) { (v.safeMode, if v.safeMode then v.safeReason else "") }

  /** One block of each name. */
  predicate Distinct(bs: seq<Block>) { forall i, j | 0 <= i < j < |bs| :: bs[i].name != bs[j].name }

  function Names(bs: seq<Block>): set<Name> { set b | b in bs :: b.name }

  lemma SnapshotDistinct(v: View, tier: Tier)
    ensures Distinct(Snapshot(v, tier))
    ensures forall b | b in Snapshot(v, tier) && EmptyBlock(b, v) :: Told([], b.name) == Some(b.text)
  {
  }

  // ---- reading a page ----

  /** What the page says of a block: the last one sent; a profile or schedule never
      sent is empty. */
  function Told(page: seq<Part>, n: Name): Option<string> {
    if page == [] then
      if n == SelfProfile then Some(ProfileText("")) else if n == Schedule then Some(ScheduleText("")) else None
    else
      var p := page[|page| - 1];
      if p.Shot? && p.block.name == n then Some(p.block.text) else Told(page[..|page| - 1], n)
  }

  function ToldSafe(page: seq<Part>): (bool, string) {
    if page == [] then (false, "")
    else
      var p := page[|page| - 1];
      if p.SafeMode? then (p.on, p.reason) else ToldSafe(page[..|page| - 1])
  }

  /** Keys of the hits whose text is on the page. */
  function Shown(page: seq<Part>): set<Key> {
    if page == [] then {} else Shown(page[..|page| - 1]) + ShownBy(page[|page| - 1])
  }

  function ShownBy(p: Part): set<Key> {
    match p
    case Memory(hits) => Keys(hits)
    case Associative(hits) => Keys(hits)
    case Habits(hits) => Keys(hits)
    case _ => {}
  }

  /** The page tells every one of `bs`. */
  ghost predicate Tells(page: seq<Part>, bs: seq<Block>) {
    forall b | b in bs :: Told(page, b.name) == Some(b.text)
  }

  /** The page reproduces the snapshot it replaces. */
  ghost predicate Current(page: seq<Part>, v: View, tier: Tier) {
    Tells(page, Snapshot(v, tier)) && ToldSafe(page) == SafeNow(v)
  }

  lemma {:induction false} ToldAppend(a: seq<Part>, b: seq<Part>, n: Name)
    ensures (forall p | p in b && p.Shot? :: p.block.name != n) ==> Told(a + b, n) == Told(a, n)
    ensures (exists p :: p in b && p.Shot? && p.block.name == n) ==> Told(a + b, n) == Told(b, n)
  {
    if b == [] {
      assert a + b == a;
    } else {
      var c := b[..|b| - 1];
      assert (a + b)[..|a + b| - 1] == a + c;
      assert b == c + [b[|b| - 1]];
      ToldAppend(a, c, n);
    }
  }

  lemma {:induction false} ToldSafeAppend(a: seq<Part>, b: seq<Part>)
    ensures (forall p | p in b :: !p.SafeMode?) ==> ToldSafe(a + b) == ToldSafe(a)
    ensures (exists p :: p in b && p.SafeMode?) ==> ToldSafe(a + b) == ToldSafe(b)
  {
    if b == [] {
      assert a + b == a;
    } else {
      var c := b[..|b| - 1];
      assert (a + b)[..|a + b| - 1] == a + c;
      assert b == c + [b[|b| - 1]];
      ToldSafeAppend(a, c);
    }
  }

  lemma {:induction false} ShownAppend(a: seq<Part>, b: seq<Part>)
    ensures Shown(a + b) == Shown(a) + Shown(b)
  {
    if b == [] {
      assert a + b == a;
    } else {
      assert (a + b)[..|a + b| - 1] == a + b[..|b| - 1];
      ShownAppend(a, b[..|b| - 1]);
    }
  }

  lemma {:induction false} ShownNone(ps: seq<Part>)
    requires forall p | p in ps :: ShownBy(p) == {}
    ensures Shown(ps) == {}
  {
    if ps != [] { ShownNone(ps[..|ps| - 1]); }
  }

  /** The one block of a name among some parts is what they tell. */
  lemma {:induction false} ToldBy(ps: seq<Part>, b: Block)
    requires Shot(b) in ps && forall p | p in ps && p.Shot? && p.block.name == b.name :: p.block == b
    ensures Told(ps, b.name) == Some(b.text)
  {
    if ps[|ps| - 1] != Shot(b) {
      assert ps == ps[..|ps| - 1] + [ps[|ps| - 1]];
      ToldBy(ps[..|ps| - 1], b);
    }
  }

  lemma {:induction false} ToldSafeBy(ps: seq<Part>, now: (bool, string))
    requires SafeMode(now.0, now.1) in ps && forall p | p in ps && p.SafeMode? :: p == SafeMode(now.0, now.1)
    ensures ToldSafe(ps) == now
  {
    if ps[|ps| - 1] != SafeMode(now.0, now.1) {
      assert ps == ps[..|ps| - 1] + [ps[|ps| - 1]];
      ToldSafeBy(ps[..|ps| - 1], now);
    }
  }

  // ---- choosing hits ----

  function Unseen(hits: seq<Hit>, seen: set<Key>): (r: seq<Hit>)
    ensures forall h :: h in r <==> h in hits && HitKey(h) !in seen
  {
    if hits == [] then []
    else Unseen(hits[..|hits| - 1], seen) + if HitKey(hits[|hits| - 1]) in seen then [] else [hits[|hits| - 1]]
  }

  function Take<T>(s: seq<T>, n: nat): seq<T> { if |s| <= n then s else s[..n] }

  function Parsed(hits: seq<Hit>, parses: string -> bool): (r: seq<Hit>)
    ensures forall h :: h in r <==> h in hits && parses(h.content)
  {
    if hits == [] then []
    else Parsed(hits[..|hits| - 1], parses) + if parses(hits[|hits| - 1].content) then [hits[|hits| - 1]] else []
  }

  /** What a turn brings besides the snapshot. */
  datatype Turn = Turn(at: int, memory: seq<Hit>, associative: seq<Hit>, habits: seq<Hit>,
                       events: seq<string>, perceptions: seq<string>)

  function NewMemory(t: Turn, seen: set<Key>): seq<Hit> { Take(Unseen(t.memory, seen), MEMORY_HITS_PER_TURN) }

  function NewAssociative(t: Turn, seen: set<Key>): seq<Hit> { Take(Unseen(t.associative, seen), ASSOCIATIVE_HITS_PER_TURN) }

  function NewHabits(t: Turn, seen: set<Key>, parses: string -> bool): seq<Hit> { Parsed(Unseen(t.habits, seen), parses) }

  function HitParts(t: Turn, seen: set<Key>, tier: Tier, parses: string -> bool): seq<Part> {
    if tier.ExternalPublic? then []
    else HitBlocks(NewMemory(t, seen), NewAssociative(t, seen), NewHabits(t, seen, parses))
  }

  function HitBlocks(memory: seq<Hit>, assoc: seq<Hit>, habits: seq<Hit>): seq<Part> {
    Unless(memory == [], Memory(memory)) + Unless(assoc == [], Associative(assoc)) + Unless(habits == [], Habits(habits))
  }

  function Unless(empty: bool, p: Part): seq<Part> { if empty then [] else [p] }

  /** Hits a delta takes as given: the habits that do not parse too. */
  function Given(t: Turn, seen: set<Key>, tier: Tier): set<Key> {
    if tier.ExternalPublic? then {}
    else Keys(NewMemory(t, seen)) + Keys(NewAssociative(t, seen)) + Keys(Unseen(t.habits, seen))
  }

  /** Keys of the new habits that do not parse: given, and not on the page. */
  function Muted(t: Turn, seen: set<Key>, tier: Tier, parses: string -> bool): set<Key> {
    if tier.ExternalPublic? then {}
    else set h | h in Unseen(t.habits, seen) && !parses(h.content) :: HitKey(h)
  }

  lemma HitBlocksShow(memory: seq<Hit>, assoc: seq<Hit>, habits: seq<Hit>)
    ensures Shown(HitBlocks(memory, assoc, habits)) == Keys(memory) + Keys(assoc) + Keys(habits)
  {
    ShownUnless(memory, Memory(memory));
    ShownUnless(assoc, Associative(assoc));
    ShownUnless(habits, Habits(habits));
    ShownThree(Unless(memory == [], Memory(memory)), Unless(assoc == [], Associative(assoc)), Unless(habits == [], Habits(habits)));
  }

  lemma ShownThree(a: seq<Part>, b: seq<Part>, c: seq<Part>)
    ensures Shown(a + b + c) == Shown(a) + Shown(b) + Shown(c)
  {
    ShownAppend(a, b);
    ShownAppend(a + b, c);
  }

  lemma ShownUnless(hits: seq<Hit>, p: Part)
    requires ShownBy(p) == Keys(hits)
    ensures Shown(Unless(hits == [], p)) == Keys(hits)
  {
    assert Shown([]) == {} == Keys([]);
    assert Shown([p]) == Shown([p][..0]) + ShownBy(p);
  }

  /** What the hit blocks show: only hits the page did not have, and with the habits
      that do not parse, exactly the hits taken as given. */
  lemma HitsShown(t: Turn, seen: set<Key>, tier: Tier, parses: string -> bool)
    ensures var shown := Shown(HitParts(t, seen, tier, parses));
            && shown !! seen && Muted(t, seen, tier, parses) !! seen
            && Given(t, seen, tier) == shown + Muted(t, seen, tier, parses)
  {
    if !tier.ExternalPublic? {
      HitBlocksShow(NewMemory(t, seen), NewAssociative(t, seen), NewHabits(t, seen, parses));
      UnseenKeys(t.memory, seen, MEMORY_HITS_PER_TURN);
      UnseenKeys(t.associative, seen, ASSOCIATIVE_HITS_PER_TURN);
      UnseenKeys(t.habits, seen, |t.habits|);
      HabitKeys(t, seen, tier, parses);
    }
  }

  lemma UnseenKeys(hits: seq<Hit>, seen: set<Key>, n: nat)
    ensures Keys(Take(Unseen(hits, seen), n)) !! seen
  {
  }

  lemma HabitKeys(t: Turn, seen: set<Key>, tier: Tier, parses: string -> bool)
    requires !tier.ExternalPublic?
    ensures Keys(Unseen(t.habits, seen)) == Keys(NewHabits(t, seen, parses)) + Muted(t, seen, tier, parses)
    ensures Keys(NewHabits(t, seen, parses)) !! seen
  {
    var u := Unseen(t.habits, seen);
    forall k | k in Keys(u) ensures k in Keys(NewHabits(t, seen, parses)) + Muted(t, seen, tier, parses) {
      var h :| h in u && HitKey(h) == k;
      if parses(h.content) { assert h in Parsed(u, parses); }
    }
  }

  // ---- the messages ----

  predicate EmptyBlock(b: Block, v: View) {
    (b.name == SelfProfile && v.profile == "") || (b.name == Schedule && v.schedule == "")
  }

  /** The blocks a page opens with: the empty profile and schedule stay out; the
      body's blocks follow the mind state. */
  function Opening(bs: seq<Block>, v: View, body: seq<string>): (r: seq<Part>)
    ensures forall b :: Shot(b) in r <==> b in bs && !EmptyBlock(b, v)
    ensures forall p | p in r :: p.Shot? || p.Event?
  {
    if bs == [] then []
    else
      var b := bs[|bs| - 1];
      Opening(bs[..|bs| - 1], v, body)
      + (if EmptyBlock(b, v) then [] else [Shot(b)])
      + (if b.name == MindState then Events(body) else [])
  }

  function Events(texts: seq<string>): (r: seq<Part>)
    ensures forall p | p in r :: p.Event?
  {
    seq(|texts|, i requires 0 <= i < |texts| => Event(texts[i]))
  }

  function Heading(v: View, at: int): seq<Part> {
    [Stamp(at)] + if v.safeMode then [SafeMode(true, v.safeReason)] else []
  }

  function EpochParts(bs: seq<Block>, v: View, tier: Tier, at: int, body: seq<string>, recap: seq<string>): seq<Part> {
    Heading(v, at) + Opening(bs, v, if tier.Internal? then body else []) + [Lines(recap)]
  }

  predicate Holds(blocks: map<Name, string>, b: Block) { b.name in blocks && blocks[b.name] == b.text }

  /** The blocks whose text is not the one last recorded. */
  function Changed(bs: seq<Block>, blocks: map<Name, string>): (r: seq<Part>)
    ensures forall b :: Shot(b) in r <==> b in bs && !Holds(blocks, b)
    ensures forall p | p in r :: p.Shot?
  {
    if bs == [] then []
    else
      var b := bs[|bs| - 1];
      Changed(bs[..|bs| - 1], blocks) + if Holds(blocks, b) then [] else [Shot(b)]
  }

  function Recording(blocks: map<Name, string>, bs: seq<Block>): map<Name, string> {
    if bs == [] then blocks
    else Recording(blocks, bs[..|bs| - 1])[bs[|bs| - 1].name := bs[|bs| - 1].text]
  }

  function SafeParts(now: (bool, string), safe: (bool, string)): seq<Part> {
    if now == safe then [] else [SafeMode(now.0, now.1)]
  }

  function LineParts(t: Turn): seq<Part> { if t.perceptions == [] then [] else [Lines(t.perceptions)] }

  /** Behind the changed blocks. */
  function Tail(now: (bool, string), tier: Tier, t: Turn, hits: set<Key>, safe: (bool, string), parses: string -> bool): seq<Part> {
    (if tier.Internal? then Events(t.events) else [])
    + SafeParts(now, safe) + HitParts(t, hits, tier, parses) + LineParts(t)
  }

  function DeltaParts(bs: seq<Block>, now: (bool, string), tier: Tier, t: Turn, blocks: map<Name, string>,
                      hits: set<Key>, safe: (bool, string), parses: string -> bool): seq<Part> {
    Message(t.at, Changed(bs, blocks), Tail(now, tier, t, hits, safe, parses))
  }

  function Message(at: int, changed: seq<Part>, tail: seq<Part>): seq<Part> { [Stamp(at)] + changed + tail }

  /** One more block: nothing recorded of this turn's blocks before is its. */
  lemma ChangedMore(before: map<Name, string>, bs: seq<Block>, n: nat)
    requires Distinct(bs) && n < |bs|
    ensures Changed(bs[..n + 1], before) == Changed(bs[..n], before) + if Holds(before, bs[n]) then [] else [Shot(bs[n])]
    ensures Holds(Recording(before, bs[..n]), bs[n]) == Holds(before, bs[n])
    ensures Recording(before, bs[..n + 1]) == if Holds(before, bs[n]) then Recording(before, bs[..n])
                                              else Recording(before, bs[..n])[bs[n].name := bs[n].text]
  {
    assert bs[..n + 1][..n] == bs[..n];
    Recorded(before, bs[..n]);
    assert bs[n].name !in Names(bs[..n]);
    var r := Recording(before, bs[..n]);
    if Holds(before, bs[n]) { assert r == r[bs[n].name := bs[n].text]; }
  }

  // ---- what the messages tell ----

  lemma {:induction false} Recorded(blocks: map<Name, string>, bs: seq<Block>)
    requires Distinct(bs)
    ensures forall b | b in bs :: Holds(Recording(blocks, bs), b)
    ensures Recording(blocks, bs).Keys == blocks.Keys + Names(bs)
    ensures forall n | n in blocks && n !in Names(bs) :: Recording(blocks, bs)[n] == blocks[n]
  {
    if bs != [] {
      Recorded(blocks, bs[..|bs| - 1]);
      assert bs == bs[..|bs| - 1] + [bs[|bs| - 1]];
    }
  }

  /** Parts holding those of `bs` the page does not tell yet bring it up to `bs`. */
  lemma Brings(page: seq<Part>, parts: seq<Part>, bs: seq<Block>)
    requires Distinct(bs)
    requires forall p | p in parts && p.Shot? :: p.block in bs
    requires forall b | b in bs && Shot(b) !in parts :: Told(page, b.name) == Some(b.text)
    ensures Tells(page + parts, bs)
  {
    forall b | b in bs ensures Told(page + parts, b.name) == Some(b.text) {
      ToldAppend(page, parts, b.name);
      if Shot(b) in parts {
        ToldBy(parts, b);
      }
    }
  }

  /** Parts whose only safe-mode line, if any, says `now`. */
  lemma BringsSafe(page: seq<Part>, parts: seq<Part>, now: (bool, string))
    requires forall p | p in parts && p.SafeMode? :: p == SafeMode(now.0, now.1)
    requires SafeMode(now.0, now.1) !in parts ==> ToldSafe(page) == now
    ensures ToldSafe(page + parts) == now
  {
    ToldSafeAppend(page, parts);
    if SafeMode(now.0, now.1) in parts { ToldSafeBy(parts, now); }
  }

  lemma EpochMembers(bs: seq<Block>, v: View, tier: Tier, at: int, body: seq<string>, recap: seq<string>)
    ensures var page := EpochParts(bs, v, tier, at, body, recap);
            && (forall b :: Shot(b) in page <==> b in bs && !EmptyBlock(b, v))
            && (forall p: Part | p.SafeMode? :: p in page <==> v.safeMode && p == SafeMode(true, v.safeReason))
            && Shown(page) == {}
  {
    ShownNone(EpochParts(bs, v, tier, at, body, recap));
  }

  /** Opening a page tells the whole snapshot. */
  lemma EpochTells(bs: seq<Block>, v: View, tier: Tier, at: int, body: seq<string>, recap: seq<string>)
    requires Distinct(bs) && forall b | b in bs && EmptyBlock(b, v) :: Told([], b.name) == Some(b.text)
    ensures var page := EpochParts(bs, v, tier, at, body, recap);
            Tells(page, bs) && ToldSafe(page) == SafeNow(v) && Shown(page) == {}
  {
    var page := EpochParts(bs, v, tier, at, body, recap);
    EpochMembers(bs, v, tier, at, body, recap);
    Brings([], page, bs);
    BringsSafe([], page, SafeNow(v));
    assert [] + page == page;
  }

  predicate HitPart(p: Part) { p.Memory? || p.Associative? || p.Habits? }

  lemma HitBlocksOnly(memory: seq<Hit>, assoc: seq<Hit>, habits: seq<Hit>)
    ensures forall p | p in HitBlocks(memory, assoc, habits) :: HitPart(p)
  {
  }

  lemma HitPartsOnly(t: Turn, hits: set<Key>, tier: Tier, parses: string -> bool)
    ensures forall p | p in HitParts(t, hits, tier, parses) :: HitPart(p)
  {
    HitBlocksOnly(NewMemory(t, hits), NewAssociative(t, hits), NewHabits(t, hits, parses));
  }

  lemma TailMembers(now: (bool, string), tier: Tier, t: Turn, hits: set<Key>, safe: (bool, string), parses: string -> bool)
    ensures var parts := Tail(now, tier, t, hits, safe, parses);
            && (forall p | p in parts :: !p.Shot?)
            && (forall p: Part | p.SafeMode? :: p in parts <==> now != safe && p == SafeMode(now.0, now.1))
            && Shown(parts) == Shown(HitParts(t, hits, tier, parses))
  {
    HitPartsOnly(t, hits, tier, parses);
    TailOf(if tier.Internal? then Events(t.events) else [], SafeParts(now, safe), HitParts(t, hits, tier, parses), LineParts(t));
  }

  lemma TailOf(events: seq<Part>, safe: seq<Part>, given: seq<Part>, lines: seq<Part>)
    requires forall p | p in events :: p.Event?
    requires forall p | p in safe :: p.SafeMode?
    requires forall p | p in given :: HitPart(p)
    requires forall p | p in lines :: p.Lines?
    ensures var parts := events + safe + given + lines;
            && (forall p | p in parts :: !p.Shot?)
            && (forall p: Part | p.SafeMode? :: p in parts <==> p in safe)
            && Shown(parts) == Shown(given)
  {
    ShownNone(events + safe);
    ShownNone(lines);
    ShownAppend(events + safe, given);
    ShownAppend(events + safe + given, lines);
  }

  /** The members of a delta, from those of its head and tail. */
  lemma DeltaMembers(at: int, changed: seq<Part>, tail: seq<Part>)
    requires (forall p | p in changed :: p.Shot?) && (forall p | p in tail :: !p.Shot?)
    ensures var parts := Message(at, changed, tail);
            && (forall b :: Shot(b) in parts <==> Shot(b) in changed)
            && (forall p: Part | p.SafeMode? :: p in parts <==> p in tail)
            && Shown(parts) == Shown(tail)
  {
    var head := [Stamp(at)] + changed;
    ShownNone(head);
    ShownAppend(head, tail);
  }

  /** A delta brings the page up to the current snapshot. */
  lemma DeltaTells(page: seq<Part>, bs: seq<Block>, now: (bool, string), tier: Tier, t: Turn,
                   blocks: map<Name, string>, hits: set<Key>, parses: string -> bool)
    requires Distinct(bs) && Matches(page, blocks)
    ensures var parts := DeltaParts(bs, now, tier, t, blocks, hits, ToldSafe(page), parses);
            && Tells(page + parts, bs) && ToldSafe(page + parts) == now
            && (forall b :: Shot(b) in parts <==> b in bs && !Holds(blocks, b))
            && Shown(parts) == Shown(HitParts(t, hits, tier, parses))
  {
    var changed, tail := Changed(bs, blocks), Tail(now, tier, t, hits, ToldSafe(page), parses);
    TailMembers(now, tier, t, hits, ToldSafe(page), parses);
    DeltaMembers(t.at, changed, tail);
    BroughtUp(page, Message(t.at, changed, tail), bs, blocks, now);
  }

  /** Any parts with the changed blocks, and a safe-mode line when it changed. */
  lemma BroughtUp(page: seq<Part>, parts: seq<Part>, bs: seq<Block>, blocks: map<Name, string>, now: (bool, string))
    requires Distinct(bs) && Matches(page, blocks)
    requires forall b :: Shot(b) in parts <==> b in bs && !Holds(blocks, b)
    requires forall p: Part | p.SafeMode? :: p in parts <==> now != ToldSafe(page) && p == SafeMode(now.0, now.1)
    ensures Tells(page + parts, bs) && ToldSafe(page + parts) == now
  {
    forall p | p in parts && p.Shot? ensures p.block in bs { assert Shot(p.block) in parts; }
    Brings(page, parts, bs);
    BringsSafe(page, parts, now);
  }

  /** The recorded texts are what the page tells; a block not recorded was not sent. */
  ghost predicate Matches(page: seq<Part>, blocks: map<Name, string>) {
    && (forall n | n in blocks :: Told(page, n) == Some(blocks[n]))
    && (forall p | p in page && p.Shot? :: p.block.name in blocks)
  }

  lemma MatchesMore(page: seq<Part>, blocks: map<Name, string>, bs: seq<Block>, parts: seq<Part>)
    requires Distinct(bs) && Matches(page, blocks) && Tells(page + parts, bs)
    requires forall p | p in parts && p.Shot? :: p.block in bs
    ensures Matches(page + parts, Recording(blocks, bs))
  {
    var after := Recording(blocks, bs);
    Recorded(blocks, bs);
    forall n | n in after ensures Told(page + parts, n) == Some(after[n]) {
      if n in Names(bs) {
        var b :| b in bs && b.name == n;
        assert Holds(after, b);
      } else {
        ToldAppend(page, parts, n);
      }
    }
    forall p | p in page + parts && p.Shot? ensures p.block.name in after {
      if p in parts { assert Holds(after, p.block); }
    }
  }

  /** What was withheld stays withheld: new hits are none of the old. */
  lemma StillHonest(shown: set<Key>, muted: set<Key>, newShown: set<Key>, newMuted: set<Key>)
    requires newShown !! shown + muted && newMuted !! shown + muted
    ensures muted + newMuted <= shown + newShown <==> muted <= shown && newMuted <= newShown
  {
  }

  lemma ResentWhenChanged(page: seq<Part>, blocks: map<Name, string>, bs: seq<Block>, parts: seq<Part>)
    requires Matches(page, blocks) && forall b :: Shot(b) in parts <==> b in bs && !Holds(blocks, b)
    ensures forall p | p in parts && p.Shot? :: p.block in bs
    ensures forall b | b in bs :: Shot(b) in parts <==> b.name !in blocks || Told(page, b.name) != Some(b.text)
  {
    forall p | p in parts && p.Shot? ensures p.block in bs { assert Shot(p.block) in parts; }
  }

  lemma TellsBlocks(page: seq<Part>, bs: seq<Block>, now: (bool, string), tier: Tier, t: Turn,
                    blocks: map<Name, string>, hits: set<Key>, parses: string -> bool)
    requires Distinct(bs) && Matches(page, blocks)
    ensures var parts := DeltaParts(bs, now, tier, t, blocks, hits, ToldSafe(page), parses);
            && Matches(page + parts, Recording(blocks, bs)) && Tells(page + parts, bs) && ToldSafe(page + parts) == now
            && (forall b | b in bs :: Shot(b) in parts <==> b.name !in blocks || Told(page, b.name) != Some(b.text))
            && Shown(parts) == Shown(HitParts(t, hits, tier, parses))
  {
    var parts := DeltaParts(bs, now, tier, t, blocks, hits, ToldSafe(page), parses);
    DeltaTells(page, bs, now, tier, t, blocks, hits, parses);
    ResentWhenChanged(page, blocks, bs, parts);
    MatchesMore(page, blocks, bs, parts);
  }

  lemma TellsHits(page: seq<Part>, parts: seq<Part>, muted: set<Key>, tier: Tier, t: Turn, hits: set<Key>, parses: string -> bool)
    requires hits == Shown(page) + muted && Shown(parts) == Shown(HitParts(t, hits, tier, parses))
    ensures Shown(page + parts) == Shown(page) + Shown(parts) && Shown(parts) !! hits
    ensures var more := muted + Muted(t, hits, tier, parses);
            && hits + Given(t, hits, tier) == Shown(page + parts) + more
            && hits + Given(t, hits, tier) == hits + Shown(parts) + Muted(t, hits, tier, parses)
            && (more <= Shown(page + parts) <==> muted <= Shown(page) && Muted(t, hits, tier, parses) <= Shown(parts))
            && (forall k | k in more :: k in muted || Real(k))
  {
    HitsShown(t, hits, tier, parses);
    ShownAppend(page, parts);
    HitSets(hits, Shown(page), muted, Shown(parts), Muted(t, hits, tier, parses), Given(t, hits, tier));
    MutedReal(t, hits, tier, parses);
  }

  lemma HitSets(hits: set<Key>, shown: set<Key>, muted: set<Key>, newShown: set<Key>, newMuted: set<Key>, given: set<Key>)
    requires hits == shown + muted && given == newShown + newMuted && newShown !! hits && newMuted !! hits
    ensures hits + given == (shown + newShown) + (muted + newMuted) && hits + given == hits + newShown + newMuted
    ensures muted + newMuted <= shown + newShown <==> muted <= shown && newMuted <= newShown
  {
    StillHonest(shown, muted, newShown, newMuted);
  }

  lemma MutedReal(t: Turn, seen: set<Key>, tier: Tier, parses: string -> bool)
    ensures forall k | k in Muted(t, seen, tier, parses) :: Real(k)
  {
  }

  /** The records are what the page tells; a recorded hit is on the page, or a habit
      that did not parse. */
  ghost predicate Records(page: seq<Part>, blocks: map<Name, string>, hits: set<Key>, safe: (bool, string), muted: set<Key>) {
    && Matches(page, blocks) && hits == Shown(page) + muted && safe == ToldSafe(page)
    && (forall k | k in muted :: Real(k))
  }

  lemma OpenMeans(bs: seq<Block>, v: View, tier: Tier, at: int, body: seq<string>, recap: seq<string>)
    requires Distinct(bs) && forall b | b in bs && EmptyBlock(b, v) :: Told([], b.name) == Some(b.text)
    ensures var parts := EpochParts(bs, v, tier, at, body, recap);
            Records(parts, Recording(map[], bs), {}, SafeNow(v), {}) && Tells(parts, bs)
  {
    var parts := EpochParts(bs, v, tier, at, body, recap);
    EpochTells(bs, v, tier, at, body, recap);
    EpochMembers(bs, v, tier, at, body, recap);
    OnlyBlocks(parts, bs);
    assert [] + parts == parts;
    MatchesMore([], map[], bs, parts);
  }

  lemma OnlyBlocks(parts: seq<Part>, bs: seq<Block>)
    requires forall b :: Shot(b) in parts ==> b in bs
    ensures forall p | p in parts && p.Shot? :: p.block in bs
  {
    forall p | p in parts && p.Shot? ensures p.block in bs { assert Shot(p.block) in parts; }
  }

  lemma TellMeans(page: seq<Part>, parts: seq<Part>, muted: set<Key>, bs: seq<Block>, now: (bool, string), tier: Tier, t: Turn,
                  blocks: map<Name, string>, hits: set<Key>, safe: (bool, string), parses: string -> bool)
    requires Distinct(bs) && Records(page, blocks, hits, safe, muted)
    requires parts == DeltaParts(bs, now, tier, t, blocks, hits, safe, parses)
    ensures Records(page + parts, Recording(blocks, bs), hits + Given(t, hits, tier), now, muted + Muted(t, hits, tier, parses))
    ensures Tells(page + parts, bs)
    ensures forall b | b in bs :: Shot(b) in parts <==> b.name !in blocks || Told(page, b.name) != Some(b.text)
    ensures Shown(parts) == Shown(HitParts(t, hits, tier, parses)) && Shown(page + parts) == Shown(page) + Shown(parts)
    ensures Shown(parts) !! hits
    ensures hits + Given(t, hits, tier) == hits + Shown(parts) + Muted(t, hits, tier, parses)
    ensures muted + Muted(t, hits, tier, parses) <= Shown(page + parts) <==>
            muted <= Shown(page) && Muted(t, hits, tier, parses) <= Shown(parts)
  {
    TellsBlocks(page, bs, now, tier, t, blocks, hits, parses);
    TellsHits(page, parts, muted, tier, t, hits, parses);
  }

  // ---- what a tier sees ----

  const STRANGERS := {SelfProfile, MindState}

  /** What a stranger may be told: no memory, no private event, and of the blocks the
      profile and the mind state. */
  predicate Public(p: Part) {
    match p
    case Shot(b) => b.name in STRANGERS
    case Stamp(_) => true
    case SafeMode(_, _) => true
    case Lines(_) => true
    case _ => false
  }

  /** The place of a part in a message. */
  function Place(p: Part): nat {
    match p
    case Stamp(_) => 0 case Shot(_) => 1 case Event(_) => 2 case SafeMode(_, _) => 3
    case Memory(_) => 4 case Associative(_) => 5 case Habits(_) => 6 case Lines(_) => 7
  }

  predicate InOrder(parts: seq<Part>) { forall i, j | 0 <= i < j < |parts| :: Place(parts[i]) <= Place(parts[j]) }

  /** All parts are at the place `n`. */
  predicate AllAt(parts: seq<Part>, n: nat) { forall p | p in parts :: Place(p) == n }

  /** Each tier's parts: a stranger's are public, only the private conversation has
      events. */
  predicate Seemly(parts: seq<Part>, tier: Tier) {
    && (tier.ExternalPublic? ==> forall p | p in parts :: Public(p))
    && (!tier.Internal? ==> forall p | p in parts :: !p.Event?)
  }

  lemma SnapshotNames(v: View, tier: Tier)
    ensures tier.ExternalPublic? ==> forall b | b in Snapshot(v, tier) :: b.name in STRANGERS
    ensures !tier.ExternalPublic? ==> forall n: Name :: n in Names(Snapshot(v, tier))
    ensures exists b :: b in Snapshot(v, tier) && b.name == MindState
  {
    var bs := Snapshot(v, tier);
    assert bs[1] in bs && bs[1].name == MindState;
    if !tier.ExternalPublic? {
      forall n: Name ensures n in Names(bs) {
        var i := match n case SelfProfile => 0 case MindState => 1 case Agenda => 2 case OpenLoops => 3 case Schedule => 4;
        assert bs[i] in bs && bs[i].name == n;
      }
    }
  }

  /** Outside a stranger's place the page tells every block. */
  lemma TellsAll(page: seq<Part>, v: View, tier: Tier)
    requires Current(page, v, tier) && !tier.ExternalPublic?
    ensures forall n: Name :: Told(page, n).Some?
  {
    SnapshotNames(v, tier);
    forall n: Name ensures Told(page, n).Some? {
      var b :| b in Snapshot(v, tier) && b.name == n;
    }
  }

  lemma ChangedOnly(bs: seq<Block>, blocks: map<Name, string>)
    ensures forall p | p in Changed(bs, blocks) :: p.Shot? && p.block in bs
  {
    forall p | p in Changed(bs, blocks) ensures p.block in bs { assert Shot(p.block) in Changed(bs, blocks); }
  }

  lemma {:induction false} OpeningOnly(bs: seq<Block>, v: View, body: seq<string>)
    ensures forall p | p in Opening(bs, v, body) :: if p.Shot? then p.block in bs else p.Event? && body != []
  {
    if bs != [] {
      OpeningOnly(bs[..|bs| - 1], v, body);
    }
  }

  lemma {:induction false} OpeningEvents(bs: seq<Block>, v: View, body: seq<string>)
    requires exists b :: b in bs && b.name == MindState
    ensures forall e :: Event(e) in Opening(bs, v, body) <==> e in body
  {
    var c := bs[|bs| - 1];
    EventTexts(body);
    OpeningOnly(bs[..|bs| - 1], v, body);
    assert bs == bs[..|bs| - 1] + [c];
    if exists b :: b in bs[..|bs| - 1] && b.name == MindState {
      OpeningEvents(bs[..|bs| - 1], v, body);
    } else {
      NoEvents(bs[..|bs| - 1], v, body);
    }
  }

  lemma {:induction false} NoEvents(bs: seq<Block>, v: View, body: seq<string>)
    requires forall b | b in bs :: b.name != MindState
    ensures forall p | p in Opening(bs, v, body) :: !p.Event?
  {
    if bs != [] { NoEvents(bs[..|bs| - 1], v, body); }
  }

  lemma EpochSeemly(bs: seq<Block>, v: View, tier: Tier, at: int, body: seq<string>, recap: seq<string>)
    requires exists b :: b in bs && b.name == MindState
    requires tier.ExternalPublic? ==> forall b | b in bs :: b.name in STRANGERS
    ensures var parts := EpochParts(bs, v, tier, at, body, recap);
            && Seemly(parts, tier) && parts[0] == Stamp(at) && parts[|parts| - 1] == Lines(recap)
            && (forall e :: Event(e) in parts <==> tier.Internal? && e in body)
  {
    var events := if tier.Internal? then body else [];
    OpeningEvents(bs, v, events);
    OpeningOnly(bs, v, events);
    OpeningMade(Heading(v, at), Opening(bs, v, events), recap);
  }

  lemma OpeningMade(heading: seq<Part>, opening: seq<Part>, recap: seq<string>)
    ensures var parts := heading + opening + [Lines(recap)];
            && (forall p | p in parts :: p in heading || p in opening || p == Lines(recap))
            && (forall e :: Event(e) in parts <==> Event(e) in heading || Event(e) in opening)
            && parts[|parts| - 1] == Lines(recap)
  {
  }

  /** Five kinds of parts in their places. */
  lemma Joined(stamp: Part, changed: seq<Part>, events: seq<Part>, safe: seq<Part>, given: seq<Part>, lines: seq<Part>)
    requires Place(stamp) == 0 && AllAt(changed, 1) && AllAt(events, 2) && AllAt(safe, 3) && AllAt(lines, 7)
    requires InOrder(given) && forall p | p in given :: 4 <= Place(p) <= 6
    ensures InOrder([stamp] + changed + (events + safe + given + lines))
  {
    OrderJoin([stamp], changed, 0);
    OrderJoin(events, safe, 2);
    OrderJoin(events + safe, given, 3);
    OrderJoin(events + safe + given, lines, 6);
    OrderJoin([stamp] + changed, events + safe + given + lines, 1);
  }

  lemma OrderJoin(a: seq<Part>, b: seq<Part>, n: nat)
    requires InOrder(a) && InOrder(b) && (forall p | p in a :: Place(p) <= n) && (forall p | p in b :: n <= Place(p))
    ensures InOrder(a + b)
  {
    var c := a + b;
    forall i, j | 0 <= i < j < |c| ensures Place(c[i]) <= Place(c[j]) {
      if i < |a| <= j { assert a[i] in a && b[j - |a|] in b; }
    }
  }

  lemma HitsInOrder(t: Turn, seen: set<Key>, tier: Tier, parses: string -> bool)
    ensures var given := HitParts(t, seen, tier, parses);
            InOrder(given) && (forall p | p in given :: 4 <= Place(p) <= 6) && (tier.ExternalPublic? ==> given == [])
  {
    BlocksInOrder(NewMemory(t, seen), NewAssociative(t, seen), NewHabits(t, seen, parses));
  }

  lemma BlocksInOrder(memory: seq<Hit>, assoc: seq<Hit>, habits: seq<Hit>)
    ensures InOrder(HitBlocks(memory, assoc, habits)) && forall p | p in HitBlocks(memory, assoc, habits) :: 4 <= Place(p) <= 6
  {
    OrderJoin(Unless(memory == [], Memory(memory)), Unless(assoc == [], Associative(assoc)), 4);
    OrderJoin(Unless(memory == [], Memory(memory)) + Unless(assoc == [], Associative(assoc)), Unless(habits == [], Habits(habits)), 5);
  }

  lemma EventTexts(texts: seq<string>)
    ensures forall e :: Event(e) in Events(texts) <==> e in texts
  {
    forall e | e in texts ensures Event(e) in Events(texts) {
      var i :| 0 <= i < |texts| && texts[i] == e;
      assert Events(texts)[i] == Event(e);
    }
  }

  /** A delta's order, its events and its lines. */
  ghost predicate Shaped(parts: seq<Part>, tier: Tier, t: Turn) {
    && InOrder(parts) && parts != [] && parts[0] == Stamp(t.at)
    && (forall e :: Event(e) in parts <==> tier.Internal? && e in t.events)
    && (forall l :: Lines(l) in parts <==> l == t.perceptions && l != [])
  }

  lemma DeltaShaped(bs: seq<Block>, now: (bool, string), tier: Tier, t: Turn, blocks: map<Name, string>, hits: set<Key>,
                    safe: (bool, string), parses: string -> bool)
    requires tier.ExternalPublic? ==> forall b | b in bs :: b.name in STRANGERS
    ensures var parts := DeltaParts(bs, now, tier, t, blocks, hits, safe, parses);
            Shaped(parts, tier, t) && Seemly(parts, tier)
  {
    HeadSeemly(bs, blocks, tier);
    EventsSeemly(t, tier);
    HitsInOrder(t, hits, tier, parses);
    DeltaMade(t, tier, Changed(bs, blocks), EventsFor(t, tier), SafeParts(now, safe), HitParts(t, hits, tier, parses));
  }

  function EventsFor(t: Turn, tier: Tier): seq<Part> { if tier.Internal? then Events(t.events) else [] }

  lemma HeadSeemly(bs: seq<Block>, blocks: map<Name, string>, tier: Tier)
    requires tier.ExternalPublic? ==> forall b | b in bs :: b.name in STRANGERS
    ensures AllAt(Changed(bs, blocks), 1) && (tier.ExternalPublic? ==> forall p | p in Changed(bs, blocks) :: Public(p))
  {
    ChangedOnly(bs, blocks);
  }

  lemma EventsSeemly(t: Turn, tier: Tier)
    ensures AllAt(EventsFor(t, tier), 2) && forall e :: Event(e) in EventsFor(t, tier) <==> tier.Internal? && e in t.events
  {
    EventTexts(t.events);
  }

  lemma DeltaMade(t: Turn, tier: Tier, changed: seq<Part>, events: seq<Part>, safe: seq<Part>, given: seq<Part>)
    requires AllAt(changed, 1) && AllAt(events, 2) && AllAt(safe, 3) && InOrder(given) && forall p | p in given :: 4 <= Place(p) <= 6
    requires tier.ExternalPublic? ==> given == [] && forall p | p in changed :: Public(p)
    requires forall e :: Event(e) in events <==> tier.Internal? && e in t.events
    ensures var parts := Message(t.at, changed, events + safe + given + LineParts(t));
            Shaped(parts, tier, t) && Seemly(parts, tier)
  {
    var parts := Message(t.at, changed, events + safe + given + LineParts(t));
    Joined(Stamp(t.at), changed, events, safe, given, LineParts(t));
    forall p ensures p in parts <==> p == Stamp(t.at) || p in changed || p in events || p in safe || p in given || p in LineParts(t) {}
    forall e ensures Event(e) in parts <==> Event(e) in events { assert Place(Event(e)) == 2; }
    forall l ensures Lines(l) in parts <==> Lines(l) in LineParts(t) { assert Place(Lines(l)) == 7; }
  }

  /** A stranger is told the emotion, the energy, the profile and the safe mode. */
  predicate SameToStranger(v: View, w: View) {
    && v.emotion == w.emotion && v.energy == w.energy && v.profile == w.profile
    && v.safeMode == w.safeMode && (v.safeMode ==> v.safeReason == w.safeReason)
  }

  lemma StrangersSnapshot(v: View, w: View)
    requires SameToStranger(v, w)
    ensures Snapshot(v, ExternalPublic) == Snapshot(w, ExternalPublic) && SafeNow(v) == SafeNow(w)
  {
  }

  lemma {:induction false} StrangersOpening(bs: seq<Block>, v: View, w: View)
    requires v.profile == w.profile && forall b | b in bs :: b.name in STRANGERS
    ensures Opening(bs, v, []) == Opening(bs, w, [])
  {
    if bs != [] { StrangersOpening(bs[..|bs| - 1], v, w); }
  }

  lemma StrangersDelta(bs: seq<Block>, now: (bool, string), t: Turn, u: Turn, blocks: map<Name, string>,
                       hits: set<Key>, hits2: set<Key>, safe: (bool, string), parses: string -> bool, parses2: string -> bool)
    requires t.at == u.at && t.perceptions == u.perceptions
    ensures DeltaParts(bs, now, ExternalPublic, t, blocks, hits, safe, parses)
            == DeltaParts(bs, now, ExternalPublic, u, blocks, hits2, safe, parses2)
  {
  }

  lemma CancelPrefix(p: string, x: string, y: string)
    ensures p + x == p + y <==> x == y
  {
    assert (p + x)[|p|..] == x && (p + y)[|p|..] == y;
  }

  function OrElse(text: string, empty: string): string { if text == "" then empty else text }

  /** Two pages of her own or of a private message tell the same agenda, loops, schedule
      or profile only when the views agree on it (an empty one reads as its word for it). */
  lemma ToldApart(page: seq<Part>, page2: seq<Part>, v: View, w: View, tier: Tier)
    requires !tier.ExternalPublic? && Current(page, v, tier) && Current(page2, w, tier)
    ensures Told(page, Agenda) == Told(page2, Agenda) <==> v.agenda == w.agenda
    ensures Told(page, OpenLoops) == Told(page2, OpenLoops) <==> v.loops == w.loops
    ensures Told(page, Schedule) == Told(page2, Schedule) <==> OrElse(v.schedule, "(none)") == OrElse(w.schedule, "(none)")
    ensures Told(page, SelfProfile) == Told(page2, SelfProfile) <==> OrElse(v.profile, "(empty)") == OrElse(w.profile, "(empty)")
  {
    TextOf(page, v, tier);
    TextOf(page2, w, tier);
    CancelPrefix("[Your agenda]\n", v.agenda, w.agenda);
    CancelPrefix("[Open loops]\n", v.loops, w.loops);
    CancelPrefix("[Today's schedule]\n", OrElse(v.schedule, "(none)"), OrElse(w.schedule, "(none)"));
    CancelPrefix("[Self profile]\n", OrElse(v.profile, "(empty)"), OrElse(w.profile, "(empty)"));
  }

  lemma TextOf(page: seq<Part>, v: View, tier: Tier)
    requires !tier.ExternalPublic? && Current(page, v, tier)
    ensures Told(page, Agenda) == Some("[Your agenda]\n" + v.agenda)
    ensures Told(page, OpenLoops) == Some("[Open loops]\n" + v.loops)
    ensures Told(page, Schedule) == Some("[Today's schedule]\n" + OrElse(v.schedule, "(none)"))
    ensures Told(page, SelfProfile) == Some("[Self profile]\n" + OrElse(v.profile, "(empty)"))
  {
    var bs := Snapshot(v, tier);
    assert bs[0] in bs && bs[2] in bs && bs[3] in bs && bs[4] in bs;
  }

  // ---- the page's memory ----

  class Seen {
    const parses: string -> bool            // whether a habit's content is a lesson
    var blocks: map<Name, string>           // the text of each block last sent
    var hits: set<Key>
    var safeMode: (bool, string)
    ghost var page: seq<Part>               // what was sent since the page opened
    ghost var muted: set<Key>

    ghost predicate Valid()
      reads this
    {
      Records(page, blocks, hits, safeMode, muted)
    }

    /** Every hit `HitsInContext` can name is on the page. */
    ghost predicate Honest()
      reads this
    {
      muted <= Shown(page)
    }

    constructor (parses: string -> bool)
      ensures Valid() && page == [] && muted == {} && this.parses == parses
    {
      this.parses := parses;
      blocks, hits, safeMode, page, muted := map[], {}, (false, ""), [], {};
    }

    method EpochStart(v: View, tier: Tier, at: int, body: seq<string>, recap: seq<string>)
      returns (parts: seq<Part>)
      modifies this
      ensures parts == EpochParts(Snapshot(v, tier), v, tier, at, body, recap) && page == parts && muted == {}
      ensures Valid() && Honest() && hits == {} && Current(page, v, tier) && blocks == Recording(map[], Snapshot(v, tier))
      ensures parts != [] && parts[0] == Stamp(at) && parts[|parts| - 1] == Lines(recap)
      ensures forall e :: Event(e) in parts <==> tier.Internal? && e in body
      ensures Seemly(parts, tier) && (!tier.ExternalPublic? ==> forall n: Name :: Told(page, n).Some?)
    {
      SnapshotDistinct(v, tier);
      SnapshotNames(v, tier);
      EpochSeemly(Snapshot(v, tier), v, tier, at, body, recap);
      parts := Open(Snapshot(v, tier), v, tier, at, body, recap);
      if !tier.ExternalPublic? { TellsAll(page, v, tier); }
    }

    method Open(bs: seq<Block>, v: View, tier: Tier, at: int, body: seq<string>, recap: seq<string>)
      returns (parts: seq<Part>)
      requires Distinct(bs) && forall b | b in bs && EmptyBlock(b, v) :: Told([], b.name) == Some(b.text)
      modifies this
      ensures parts == EpochParts(bs, v, tier, at, body, recap) && page == parts && muted == {}
      ensures Valid() && hits == {} && Tells(page, bs) && ToldSafe(page) == SafeNow(v) && blocks == Recording(map[], bs)
    {
      hits, safeMode := {}, SafeNow(v);
      var opening := OpenBlocks(bs, v, if tier.Internal? then body else []);
      parts := Heading(v, at) + opening + [Lines(recap)];
      page, muted := parts, {};
      OpenMeans(bs, v, tier, at, body, recap);
    }

    method OpenBlocks(bs: seq<Block>, v: View, body: seq<string>) returns (parts: seq<Part>)
      modifies this`blocks
      ensures parts == Opening(bs, v, body) && blocks == Recording(map[], bs)
    {
      blocks, parts := map[], [];
      for n := 0 to |bs|
        invariant parts == Opening(bs[..n], v, body) && blocks == Recording(map[], bs[..n])
      {
        assert bs[..n + 1][..n] == bs[..n];
        blocks := blocks[bs[n].name := bs[n].text];
        parts := parts + (if EmptyBlock(bs[n], v) then [] else [Shot(bs[n])])
                 + (if bs[n].name == MindState then Events(body) else []);
      }
      assert bs[..|bs|] == bs;
    }

    method ChangedBlocks(bs: seq<Block>) returns (parts: seq<Part>)
      requires Distinct(bs)
      modifies this`blocks
      ensures parts == Changed(bs, old(blocks)) && blocks == Recording(old(blocks), bs)
    {
      ghost var before := blocks;
      parts := [];
      for n := 0 to |bs|
        invariant parts == Changed(bs[..n], before) && blocks == Recording(before, bs[..n])
      {
        ChangedMore(before, bs, n);
        if !Holds(blocks, bs[n]) {
          parts := parts + [Shot(bs[n])];
          blocks := blocks[bs[n].name := bs[n].text];
        }
      }
      assert bs[..|bs|] == bs;
    }

    /** One turn's message. */
    method TurnDelta(v: View, tier: Tier, t: Turn) returns (parts: seq<Part>)
      requires Valid()
      modifies this
      ensures Valid() && page == old(page) + parts && Current(page, v, tier) && blocks == Recording(old(blocks), Snapshot(v, tier))
      ensures parts == DeltaParts(Snapshot(v, tier), SafeNow(v), tier, t, old(blocks), old(hits), old(safeMode), parses)
      ensures forall b | b in Snapshot(v, tier) ::
                Shot(b) in parts <==> b.name !in old(blocks) || Told(old(page), b.name) != Some(b.text)
      ensures Shown(parts) == Shown(HitParts(t, old(hits), tier, parses)) && Shown(page) == old(Shown(page)) + Shown(parts)
      ensures Shown(parts) !! old(hits) && hits == old(hits) + Given(t, old(hits), tier)
      ensures hits == old(hits) + Shown(parts) + Muted(t, old(hits), tier, parses)
      ensures Honest() <==> old(Honest()) && Muted(t, old(hits), tier, parses) <= Shown(parts)
      ensures forall found, h | h in HitsInContext(found) ::
                HitKey(h) in old(hits) || HitKey(h) in Shown(parts) || HitKey(h) in Muted(t, old(hits), tier, parses)
      ensures Shaped(parts, tier, t) && Seemly(parts, tier) && (!tier.ExternalPublic? ==> forall n: Name :: Told(page, n).Some?)
    {
      SnapshotDistinct(v, tier);
      SnapshotNames(v, tier);
      DeltaShaped(Snapshot(v, tier), SafeNow(v), tier, t, blocks, hits, safeMode, parses);
      parts := Tell(Snapshot(v, tier), SafeNow(v), tier, t);
      if !tier.ExternalPublic? { TellsAll(page, v, tier); }
    }

    method Tell(bs: seq<Block>, now: (bool, string), tier: Tier, t: Turn) returns (parts: seq<Part>)
      requires Valid() && Distinct(bs)
      modifies this
      ensures Valid() && page == old(page) + parts && Tells(page, bs) && ToldSafe(page) == now && blocks == Recording(old(blocks), bs)
      ensures parts == DeltaParts(bs, now, tier, t, old(blocks), old(hits), old(safeMode), parses)
      ensures forall b | b in bs :: Shot(b) in parts <==> b.name !in old(blocks) || Told(old(page), b.name) != Some(b.text)
      ensures Shown(parts) == Shown(HitParts(t, old(hits), tier, parses)) && Shown(page) == old(Shown(page)) + Shown(parts)
      ensures Shown(parts) !! old(hits) && hits == old(hits) + Given(t, old(hits), tier)
      ensures hits == old(hits) + Shown(parts) + Muted(t, old(hits), tier, parses)
      ensures Honest() <==> old(Honest()) && Muted(t, old(hits), tier, parses) <= Shown(parts)
    {
      ghost var safe := safeMode;
      var changed := ChangedBlocks(bs);
      var rest := TellRest(now, tier, t);
      parts := Message(t.at, changed, rest);
      TellMeans(page, parts, muted, bs, now, tier, t, old(blocks), old(hits), safe, parses);
      muted := muted + Muted(t, old(hits), tier, parses);
      page := page + parts;
    }

    method TellRest(now: (bool, string), tier: Tier, t: Turn) returns (parts: seq<Part>)
      modifies this`hits, this`safeMode
      ensures parts == Tail(now, tier, t, old(hits), old(safeMode), parses)
      ensures hits == old(hits) + Given(t, old(hits), tier) && safeMode == now
    {
      parts := if tier.Internal? then Events(t.events) else [];
      var safe := SafeParts(now, safeMode);
      safeMode := now;
      var given := GiveHits(tier, t);
      parts := parts + safe + given + LineParts(t);
    }

    method GiveHits(tier: Tier, t: Turn) returns (parts: seq<Part>)
      modifies this`hits
      ensures parts == HitParts(t, old(hits), tier, parses) && hits == old(hits) + Given(t, old(hits), tier)
    {
      if tier.ExternalPublic? { return []; }
      var memory, assoc := NewMemory(t, hits), NewAssociative(t, hits);
      var unseen := Unseen(t.habits, hits);
      parts := HitBlocks(memory, assoc, Parsed(unseen, parses));
      hits := hits + (Keys(memory) + Keys(assoc) + Keys(unseen));
    }

    /** The hits among `found` recorded as given on this page. */
    function HitsInContext(found: seq<Hit>): (r: seq<Hit>)
      reads this`hits
      ensures forall h :: h in r <==> h in found && HitKey(h) in hits
    {
      InContext(found, hits)
    }
  }

  function InContext(found: seq<Hit>, hits: set<Key>): (r: seq<Hit>)
    ensures forall h :: h in r <==> h in found && HitKey(h) in hits
  {
    if found == [] then []
    else InContext(found[..|found| - 1], hits) + if HitKey(found[|found| - 1]) in hits then [found[|found| - 1]] else []
  }

  /** Provenance names only what the page shows, whatever was found, exactly when
      the page is honest. */
  lemma HonestContext(seen: Seen)
    requires seen.Valid()
    ensures seen.Honest() <==>
            forall found, h | h in seen.HitsInContext(found) :: HitKey(h) in Shown(seen.page)
  {
    if !seen.Honest() {
      var k :| k in seen.muted && k !in Shown(seen.page);
      var h := if k.ChunkHash? then Hit(k.hash, "", "") else Hit("", k.source, k.content);
      assert HitKey(h) == k && h in seen.HitsInContext([h]);
    }
  }

  /** A found memory or association that is new to the page and neither shown by the
      message nor an unparsed habit is never named by provenance, whatever list it is
      looked up in; unless the turn is a stranger's, who is given none, its list's cap
      held it back. */
  lemma HeldBack(t: Turn, seen: set<Key>, tier: Tier, parses: string -> bool, h: Hit)
    requires h in t.memory || h in t.associative
    requires HitKey(h) !in seen && HitKey(h) !in Shown(HitParts(t, seen, tier, parses)) && HitKey(h) !in Muted(t, seen, tier, parses)
    ensures forall found :: h !in InContext(found, seen + Given(t, seen, tier))
    ensures h in t.memory && !tier.ExternalPublic? ==>
              |Unseen(t.memory, seen)| > MEMORY_HITS_PER_TURN && h in Unseen(t.memory, seen)[MEMORY_HITS_PER_TURN..]
    ensures h in t.associative && !tier.ExternalPublic? ==>
              |Unseen(t.associative, seen)| > ASSOCIATIVE_HITS_PER_TURN
              && h in Unseen(t.associative, seen)[ASSOCIATIVE_HITS_PER_TURN..]
  {
    HitsShown(t, seen, tier, parses);
    if tier.ExternalPublic? { return; }
    HitBlocksShow(NewMemory(t, seen), NewAssociative(t, seen), NewHabits(t, seen, parses));
    if h in t.memory { BehindCap(t.memory, seen, MEMORY_HITS_PER_TURN, h); }
    if h in t.associative { BehindCap(t.associative, seen, ASSOCIATIVE_HITS_PER_TURN, h); }
  }

  /** A new hit not among the first `n` is among the rest. */
  lemma BehindCap(hits: seq<Hit>, seen: set<Key>, n: nat, h: Hit)
    requires h in hits && HitKey(h) !in seen && HitKey(h) !in Keys(Take(Unseen(hits, seen), n))
    ensures |Unseen(hits, seen)| > n && h in Unseen(hits, seen)[n..]
  {
    var u := Unseen(hits, seen);
    if |u| > n {
      assert u == u[..n] + u[n..];
    }
  }

  lemma SomeHit(hits: seq<Hit>)
    requires hits != []
    ensures exists h :: h in hits
  {
    assert hits[0] in hits;
  }

  lemma OneHabit(h: Hit, parses: string -> bool)
    requires !parses(h.content)
    ensures var t := Turn(1, [], [], [h], [], []);
            && Shown(HitParts(t, {}, Internal, parses)) == {}
            && HitKey(h) in Given(t, {}, Internal) && HitKey(h) in Muted(t, {}, Internal, parses)
  {
    var t := Turn(1, [], [], [h], [], []);
    assert [h][..0] == [];
    assert Unseen([h], {}) == [h];
    assert NewHabits(t, {}, parses) == Parsed([h], parses) == [];
    HitBlocksShow([], [], []);
  }

  lemma GivenAlready(h: Hit, seen: set<Key>, parses: string -> bool)
    requires HitKey(h) in seen
    ensures Shown(HitParts(Turn(2, [h], [], [], [], []), seen, Internal, parses)) == {}
  {
    if Unseen([h], seen) != [] { SomeHit(Unseen([h], seen)); }
    HitBlocksShow([], [], []);
  }

  /** The page that is not honest: a habit that does not parse is never shown, and
      when it is later found as a memory too, it is withheld and yet named. */
  method NeverShown(v: View, h: Hit, parses: string -> bool) returns (seen: Seen, message: seq<Part>)
    requires !parses(h.content)
    ensures fresh(seen) && seen.Valid() && !seen.Honest()
    ensures h in seen.HitsInContext([h]) && Shown(seen.page) == {} && Shown(message) == {}
  {
    seen := OneHabitTurn(v, h, parses);
    GivenAlready(h, seen.hits, parses);
    message := seen.TurnDelta(v, Internal, Turn(2, [h], [], [], [], []));
  }

  method OneHabitTurn(v: View, h: Hit, parses: string -> bool) returns (seen: Seen)
    requires !parses(h.content)
    ensures fresh(seen) && seen.Valid() && seen.parses == parses && !seen.Honest() && HitKey(h) in seen.hits && Shown(seen.page) == {}
  {
    seen := new Seen(parses);
    var page := seen.EpochStart(v, Internal, 0, [], []);
    OneHabit(h, parses);
    page := seen.TurnDelta(v, Internal, Turn(1, [], [], [h], [], []));
  }

  /** Two pages of which the stranger has read the same. */
  ghost predicate Alike(a: Seen, b: Seen)
    reads a, b
  {
    a.page == b.page && a.blocks == b.blocks
  }

  /** A stranger's page opens the same whatever her reason, focus, agenda, open loops,
      schedule and inner state are. */
  method OpenAlike(a: Seen, b: Seen, v: View, w: View, at: int, body: seq<string>, body2: seq<string>, recap: seq<string>)
    returns (p: seq<Part>, q: seq<Part>)
    requires a != b && SameToStranger(v, w)
    modifies a, b
    ensures a.Valid() && b.Valid() && p == q && Alike(a, b)
  {
    StrangersSnapshot(v, w);
    SnapshotNames(v, ExternalPublic);
    StrangersOpening(Snapshot(v, ExternalPublic), v, w);
    p := a.EpochStart(v, ExternalPublic, at, body, recap);
    q := b.EpochStart(w, ExternalPublic, at, body2, recap);
  }

  /** And it goes on the same, whatever memories, habits and events the turns bring. */
  method TellAlike(a: Seen, b: Seen, v: View, w: View, t: Turn, u: Turn) returns (p: seq<Part>, q: seq<Part>)
    requires a != b && a.Valid() && b.Valid() && Alike(a, b)
    requires SameToStranger(v, w) && t.at == u.at && t.perceptions == u.perceptions
    modifies a, b
    ensures a.Valid() && b.Valid() && p == q && Alike(a, b)
  {
    StrangersSnapshot(v, w);
    StrangersDelta(Snapshot(v, ExternalPublic), SafeNow(v), t, u, a.blocks, a.hits, b.hits, a.safeMode, a.parses, b.parses);
    p := a.TurnDelta(v, ExternalPublic, t);
    q := b.TurnDelta(w, ExternalPublic, u);
  }
}
