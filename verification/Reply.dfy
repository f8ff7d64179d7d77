/** Reassembling one streamed reply: text deltas and tool-call fragments in, the
    tool calls and the assistant message to send back out. */
module Reply {
  import opened Wrappers
  import opened Strings

  datatype ToolCall = ToolCall(id: string, name: string, arguments: string)

  datatype Message =
    | System(content: string)
    | User(content: string)
    | Assistant(content: string, reasoning: string, calls: seq<ToolCall>)
    | ToolResult(callId: string, content: string)

  datatype Fragment = Fragment(index: nat, id: string, name: string, arguments: string)

  /** One server chunk's delta; empty strings stand for absent fields. */
  datatype Chunk = Chunk(finish: string, think: string, speech: string, frags: seq<Fragment>)

  datatype Delta = Think(text: string) | Speech(text: string)

  datatype End = End(finish: string, message: Message, dropped: nat)

  // ---- what the chunks say, independent of how they arrive ----

  function FragsOf(chunks: seq<Chunk>): seq<Fragment> {
    if chunks == [] then [] else FragsOf(chunks[..|chunks| - 1]) + chunks[|chunks| - 1].frags
  }

  function First(a: string, b: string): string { if a != "" then a else b }

  /** The call at `index`: the first id and name sent for it, every argument piece
      in order. */
  function Assembled(frags: seq<Fragment>, index: nat): ToolCall {
    if frags == [] then ToolCall("", "", "")
    else
      var c := Assembled(frags[..|frags| - 1], index);
      var f := frags[|frags| - 1];
      if f.index != index then c
      else ToolCall(First(c.id, f.id), First(c.name, f.name), c.arguments + f.arguments)
  }

  function Indices(frags: seq<Fragment>): set<nat> { set f | f in frags :: f.index }

  function Thoughts(chunks: seq<Chunk>): seq<string> {
    if chunks == [] then []
    else Thoughts(chunks[..|chunks| - 1]) + (if chunks[|chunks| - 1].think == "" then [] else [chunks[|chunks| - 1].think])
  }

  function Speeches(chunks: seq<Chunk>): seq<string> {
    if chunks == [] then []
    else Speeches(chunks[..|chunks| - 1]) + (if chunks[|chunks| - 1].speech == "" then [] else [chunks[|chunks| - 1].speech])
  }

  function Finish(chunks: seq<Chunk>): string {
    if chunks == [] then ""
    else if chunks[|chunks| - 1].finish != "" then chunks[|chunks| - 1].finish
    else Finish(chunks[..|chunks| - 1])
  }

  predicate Ascending(s: seq<nat>) { forall i, j | 0 <= i < j < |s| :: s[i] < s[j] }

  /** `calls` are the assembled calls of the indices, lowest index first. */
  ghost predicate CallsOf(frags: seq<Fragment>, calls: seq<ToolCall>) {
    exists order: seq<nat> ::
      && Ascending(order) && |order| == |calls|
      && (forall i: nat :: i in order <==> i in Indices(frags))
      && (forall k | 0 <= k < |order| :: calls[k] == Assembled(frags, order[k]))
  }

  /** There is only one such list: how the fragments were interleaved across calls
      cannot change the calls. */
  lemma CallsOfUnique(frags: seq<Fragment>, other: seq<Fragment>, a: seq<ToolCall>, b: seq<ToolCall>)
    requires CallsOf(frags, a) && CallsOf(other, b)
    requires Indices(frags) == Indices(other)
    requires forall i :: Assembled(frags, i) == Assembled(other, i)
    ensures a == b
  {
    var p: seq<nat> :|
      && Ascending(p) && |p| == |a| && (forall i: nat :: i in p <==> i in Indices(frags))
      && (forall k | 0 <= k < |p| :: a[k] == Assembled(frags, p[k]));
    var q: seq<nat> :|
      && Ascending(q) && |q| == |b| && (forall i: nat :: i in q <==> i in Indices(other))
      && (forall k | 0 <= k < |q| :: b[k] == Assembled(other, q[k]));
    AscendingUnique(p, q);
  }

  lemma {:induction false} AscendingUnique(p: seq<nat>, q: seq<nat>)
    requires Ascending(p) && Ascending(q)
    requires forall i: nat :: i in p <==> i in q
    ensures p == q
  {
    assert |p| > 0 ==> p[0] in p;
    assert |q| > 0 ==> q[0] in q;
    if p != [] {
      assert p[0] == q[0];
      forall i: nat ensures i in p[1..] <==> i in q[1..] {
        assert i in p <==> i == p[0] || i in p[1..];
        assert i in q <==> i == q[0] || i in q[1..];
        assert p[0] !in p[1..] && q[0] !in q[1..];
      }
      AscendingUnique(p[1..], q[1..]);
    }
  }

  /** Swapping neighbouring fragments of different calls changes no call. */
  lemma {:induction false} SwapFragments(a: seq<Fragment>, x: Fragment, y: Fragment, b: seq<Fragment>, i: nat)
    requires x.index != y.index
    ensures Assembled(a + [x, y] + b, i) == Assembled(a + [y, x] + b, i)
    decreases |b|
  {
    var s, t := a + [x, y] + b, a + [y, x] + b;
    if b == [] {
      assert s[..|s| - 1] == a + [x] && t[..|t| - 1] == a + [y];
      assert (a + [x])[..|a|] == a && (a + [y])[..|a|] == a;
    } else {
      var c := b[..|b| - 1];
      assert s[..|s| - 1] == a + [x, y] + c && t[..|t| - 1] == a + [y, x] + c;
      SwapFragments(a, x, y, c, i);
    }
  }

  /** What one more chunk adds. */
  lemma MoreChunks(chunks: seq<Chunk>, data: Chunk)
    ensures FragsOf(chunks + [data]) == FragsOf(chunks) + data.frags
    ensures Thoughts(chunks + [data]) == Thoughts(chunks) + if data.think == "" then [] else [data.think]
    ensures Speeches(chunks + [data]) == Speeches(chunks) + if data.speech == "" then [] else [data.speech]
    ensures Finish(chunks + [data]) == if data.finish != "" then data.finish else Finish(chunks)
  {
    assert (chunks + [data])[..|chunks|] == chunks;
  }

  // ---- the accumulator ----

  /** The map holds the assembled call of every index. */
  ghost predicate Holds(tools: map<nat, ToolCall>, frags: seq<Fragment>) {
    && tools.Keys == Indices(frags)
    && (forall i | i in tools :: tools[i] == Assembled(frags, i))
  }

  function Merged(tools: map<nat, ToolCall>, f: Fragment): ToolCall {
    var c := if f.index in tools then tools[f.index] else ToolCall("", "", "");
    ToolCall(First(c.id, f.id), First(c.name, f.name), c.arguments + f.arguments)
  }

  lemma HoldsMore(tools: map<nat, ToolCall>, frags: seq<Fragment>, f: Fragment)
    requires Holds(tools, frags)
    ensures Holds(tools[f.index := Merged(tools, f)], frags + [f])
  {
    FragmentStep(frags, f);
  }

  class Reply {
    var think: seq<string>
    var speech: seq<string>
    var tools: map<nat, ToolCall>
    var finish: string
    ghost var chunks: seq<Chunk>

    ghost predicate Valid()
      reads this
    {
      && think == Thoughts(chunks) && speech == Speeches(chunks) && finish == Finish(chunks)
      && Holds(tools, FragsOf(chunks))
    }

    constructor ()
      ensures Valid() && chunks == []
    {
      think, speech, tools, finish, chunks := [], [], map[], "", [];
    }

    method Feed(data: Chunk) returns (out: seq<Delta>)
      requires Valid()
      modifies this
      ensures Valid() && chunks == old(chunks) + [data]
      ensures out == (if data.think == "" then [] else [Think(data.think)])
                     + (if data.speech == "" then [] else [Speech(data.speech)])
    {
      MoreChunks(chunks, data);
      out := TakeText(data);
      TakeFragments(data.frags, FragsOf(chunks));
      chunks := chunks + [data];
    }

    method TakeText(data: Chunk) returns (out: seq<Delta>)
      modifies this`finish, this`think, this`speech
      ensures finish == if data.finish != "" then data.finish else old(finish)
      ensures think == old(think) + if data.think == "" then [] else [data.think]
      ensures speech == old(speech) + if data.speech == "" then [] else [data.speech]
      ensures out == (if data.think == "" then [] else [Think(data.think)])
                     + (if data.speech == "" then [] else [Speech(data.speech)])
    {
      out := [];
      if data.finish != "" { finish := data.finish; }
      if data.think != "" {
        think := think + [data.think];
        out := out + [Think(data.think)];
      }
      if data.speech != "" {
        speech := speech + [data.speech];
        out := out + [Speech(data.speech)];
      }
    }

    method TakeFragments(frags: seq<Fragment>, ghost before: seq<Fragment>)
      requires Holds(tools, before)
      modifies this`tools
      ensures Holds(tools, before + frags)
    {
      assert before + frags[..0] == before;
      for n := 0 to |frags|
        invariant Holds(tools, before + frags[..n])
      {
        HoldsMore(tools, before + frags[..n], frags[n]);
        assert before + frags[..n + 1] == before + frags[..n] + [frags[n]];
        var call := MergeInto(frags[n]);
        tools := tools[frags[n].index := call];
      }
      assert frags[..|frags|] == frags;
    }

    /** The first id and name sent stay; arguments are appended. */
    method MergeInto(frag: Fragment) returns (call: ToolCall)
      ensures call == Merged(tools, frag)
    {
      call := if frag.index in tools then tools[frag.index] else ToolCall("", "", "");
      if call.id == "" && frag.id != "" { call := call.(id := frag.id); }
      if call.name == "" && frag.name != "" { call := call.(name := frag.name); }
      call := call.(arguments := call.arguments + frag.arguments);
    }

    /** None: tool-call fragments without `finish_reason == "tool_calls"`, a server
        error. */
    method FinishReply() returns (r: Option<(seq<ToolCall>, End)>)
      requires Valid()
      ensures r.None? <==> tools != map[] && finish != "length" && finish != "tool_calls"
      ensures r.Some? ==>
        var (calls, end) := r.value;
        && end.message == Assistant(Join(Speeches(chunks)), Join(Thoughts(chunks)), calls)
        && end.finish == Finish(chunks)
        && (if finish == "length" then calls == [] && end.dropped == |tools|
            else CallsOf(FragsOf(chunks), calls) && end.dropped == 0)
    {
      var order := SortedKeys();
      var calls := seq(|order|, k requires 0 <= k < |order| reads this requires order[k] in tools => tools[order[k]]);
      var dropped := 0;
      if calls != [] && finish == "length" {
        dropped := |calls|;
        calls := [];
      } else if calls != [] && finish != "tool_calls" {
        assert order[0] in tools;
        return None;
      }
      if order == [] { assert forall i: nat :: i !in tools; }
      return Some((calls, End(finish, Assistant(Join(speech), Join(think), calls), dropped)));
    }

    /** `sorted(self.tools)`. */
    method SortedKeys() returns (order: seq<nat>)
      ensures Ascending(order) && |order| == |tools|
      ensures forall i: nat :: i in order <==> i in tools
    {
      order := [];
      var rest := tools.Keys;
      while rest != {}
        invariant rest <= tools.Keys && Ascending(order)
        invariant forall i: nat :: i in order <==> i in tools && i !in rest
        invariant forall i, j | i in order && j in rest :: i < j
        invariant |order| + |rest| == |tools|
        decreases |rest|
      {
        var least := Least(rest);
        assert forall k | 0 <= k < |order| :: order[k] in order;
        order := order + [least];
        rest := rest - {least};
      }
    }
  }

  method Least(s: set<nat>) returns (m: nat)
    requires s != {}
    ensures m in s && forall i | i in s :: m <= i
  {
    m :| m in s;
    var rest := s - {m};
    while rest != {}
      invariant m in s && rest <= s
      invariant forall i | i in s && i !in rest :: m <= i
      decreases |rest|
    {
      var i :| i in rest;
      if i < m { m := i; }
      rest := rest - {i};
    }
  }

  lemma FragmentStep(frags: seq<Fragment>, f: Fragment)
    ensures Indices(frags + [f]) == Indices(frags) + {f.index}
    ensures forall i :: Assembled(frags + [f], i) ==
              if f.index != i then Assembled(frags, i)
              else ToolCall(First(Assembled(frags, i).id, f.id), First(Assembled(frags, i).name, f.name),
                            Assembled(frags, i).arguments + f.arguments)
    ensures forall i :: i !in Indices(frags) ==> Assembled(frags, i) == ToolCall("", "", "")
  {
    assert (frags + [f])[..|frags|] == frags;
    Unsent(frags);
  }

  lemma {:induction false} Unsent(frags: seq<Fragment>)
    ensures forall i :: i !in Indices(frags) ==> Assembled(frags, i) == ToolCall("", "", "")
  {
    if frags != [] {
      var rest := frags[..|frags| - 1];
      Unsent(rest);
      assert frags[|frags| - 1].index in Indices(frags);
      assert Indices(rest) <= Indices(frags);
    }
  }

  /** Fragment `k` is the first of its call with an id. */
  predicate FirstId(frags: seq<Fragment>, k: nat) {
    k < |frags| && frags[k].id != "" && forall j | 0 <= j < k && frags[j].index == frags[k].index :: frags[j].id == ""
  }

  predicate FirstName(frags: seq<Fragment>, k: nat) {
    k < |frags| && frags[k].name != "" && forall j | 0 <= j < k && frags[j].index == frags[k].index :: frags[j].name == ""
  }

  /** The first id and the first name sent for a call are its own, whatever comes
      behind them. */
  lemma {:induction false} FirstWins(frags: seq<Fragment>, k: nat)
    ensures FirstId(frags, k) ==> Assembled(frags, frags[k].index).id == frags[k].id
    ensures FirstName(frags, k) ==> Assembled(frags, frags[k].index).name == frags[k].name
  {
    if k < |frags| {
      var init, index := frags[..|frags| - 1], frags[k].index;
      if k < |init| {
        FirstWins(init, k);
      } else {
        NoneSent(init, index);
      }
    }
  }

  lemma {:induction false} NoneSent(frags: seq<Fragment>, index: nat)
    ensures (forall j | 0 <= j < |frags| && frags[j].index == index :: frags[j].id == "") ==> Assembled(frags, index).id == ""
    ensures (forall j | 0 <= j < |frags| && frags[j].index == index :: frags[j].name == "") ==> Assembled(frags, index).name == ""
  {
    if frags != [] { NoneSent(frags[..|frags| - 1], index); }
  }
}
