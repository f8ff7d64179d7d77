/** The sentence chunker between the model's speech deltas and the sink. */
module Chunker {
  import opened Strings

  predicate FullStop(c: char) { c == '\U{3002}' || c == '\U{FF1F}' || c == '\U{FF01}' || c == '\n' }
  predicate HalfStop(c: char) { c == '.' || c == '?' || c == '!' }
  predicate Gap(c: char) { c == ' ' || c == '\n' }

  /** A sentence ends at `i`, and the character that decides it is there. */
  predicate EndsAt(s: string, i: nat)
    requires i < |s|
  {
    FullStop(s[i]) || (HalfStop(s[i]) && i + 1 < |s| && Gap(s[i + 1]))
  }

  predicate NoEnd(s: string) { forall i: nat | i < |s| :: !EndsAt(s, i) }

  /** After a sentence end the piece holds nothing but gaps. */
  predicate OneSentence(s: string) {
    forall i: nat, j: nat | i < j < |s| && EndsAt(s, i) :: Gap(s[j])
  }

  predicate Pieces(cuts: seq<string>) {
    forall k | 0 <= k < |cuts| :: cuts[k] != "" && OneSentence(cuts[k])
  }

  /** A forced cut ends right behind a space, or there was none to cut at. */
  predicate Forced(p: string, max: nat) {
    0 < |p| <= max + 1 && (p[|p| - 1] == ' ' || (|p| == max && ' ' !in p))
  }

  /** `s.rfind(" ", 0, limit)`. */
  method LastSpace(s: string, limit: nat) returns (p: int)
    ensures -1 <= p < |s| && p < limit
    ensures p >= 0 ==> s[p] == ' '
    ensures forall j :: p < j < |s| && j < limit ==> s[j] != ' '
  {
    p := (if limit < |s| then limit else |s|) - 1;
    while p >= 0 && s[p] != ' '
      invariant -1 <= p < |s| && p < limit
      invariant forall j :: p < j < |s| && j < limit ==> s[j] != ' '
    {
      p := p - 1;
    }
  }

  class SentenceChunker {
    const max: nat
    var buf: string

    constructor (max: nat := 120)
      ensures this.max == max && buf == ""
    {
      this.max, buf := max, "";
    }

    /** `cuts` are the pieces taken off the buffer, the blank ones included. */
    method Feed(text: string) returns (out: seq<string>, ghost cuts: seq<string>)
      requires max >= 1
      modifies this
      ensures Join(cuts) + buf == old(buf) + text
      ensures out == Spoken(cuts) && Pieces(cuts)
      ensures |buf| < max && NoEnd(buf)
    {
      buf := buf + text;
      ghost var whole := buf;
      var more;
      ghost var forced;
      out, cuts := TakeSentences();
      more, forced := ForceCuts();
      JoinAppend(cuts, forced);
      SpokenAppend(cuts, forced);
      assert Join(cuts) + (Join(forced) + buf) == Join(cuts + forced) + buf;
      out, cuts := out + more, cuts + forced;
    }

    /** The scan for sentence ends. */
    method TakeSentences() returns (out: seq<string>, ghost cuts: seq<string>)
      modifies this
      ensures Join(cuts) + buf == old(buf)
      ensures out == Spoken(cuts) && Pieces(cuts) && NoEnd(buf)
    {
      out, cuts := [], [];
      var i := 0;
      while i < |buf|
        invariant 0 <= i <= |buf|
        invariant Join(cuts) + buf == old(buf) && out == Spoken(cuts) && Pieces(cuts)
        invariant forall j: nat | j < i :: !EndsAt(buf, j)
        decreases |buf|, |buf| - i
      {
        var ch := buf[i];
        var end := i + 1;
        if HalfStop(ch) {
          while end < |buf| && HalfStop(buf[end])
            invariant i < end <= |buf|
            invariant forall j | i <= j < end :: HalfStop(buf[j])
          {
            end := end + 1;
          }
          if end == |buf| {
            break;
          }
          if !Gap(buf[end]) {
            i := end;
            continue;
          }
        } else if !FullStop(ch) {
          i := i + 1;
          continue;
        }
        ghost var stop := end;
        while end < |buf| && Gap(buf[end])
          invariant stop <= end <= |buf|
          invariant forall j | stop <= j < end :: Gap(buf[j])
        {
          end := end + 1;
        }
        SentencePiece(buf, stop, end);
        var sentence := buf[..end];
        CutPiece(cuts, buf, end);
        cuts := cuts + [sentence];
        buf := buf[end..];
        if !Blank(sentence) { out := out + [sentence]; }
        i := 0;
      }
    }

    /** The forced cuts of a run without sentence ends. */
    method ForceCuts() returns (out: seq<string>, ghost cuts: seq<string>)
      requires max >= 1 && NoEnd(buf)
      modifies this
      ensures Join(cuts) + buf == old(buf)
      ensures out == Spoken(cuts) && Pieces(cuts)
      ensures forall x | x in cuts :: Forced(x, max)
      ensures |buf| < max && NoEnd(buf)
    {
      out, cuts := [], [];
      while |buf| >= max
        invariant Join(cuts) + buf == old(buf) && out == Spoken(cuts) && Pieces(cuts)
        invariant NoEnd(buf) && (forall x | x in cuts :: Forced(x, max))
      {
        var p := LastSpace(buf, max + 1);
        var cut := if p + 1 == 0 then max else p + 1;
        var chunk := buf[..cut];
        ForcedCut(buf, max, p);
        SuffixNoEnd(buf, cut);
        CutPiece(cuts, buf, cut);
        AllForced(cuts, chunk, max);
        cuts := cuts + [chunk];
        buf := buf[cut..];
        if !Blank(chunk) { out := out + [chunk]; }
      }
    }

    method Flush() returns (out: seq<string>)
      modifies this
      ensures buf == ""
      ensures out == if Blank(old(buf)) then [] else [old(buf)]
    {
      if buf != "" {
        var tail := buf;
        buf := "";
        if !Blank(tail) { return [tail]; }
      }
      return [];
    }
  }

  lemma CutPiece(cuts: seq<string>, buf: string, end: nat)
    requires 0 < end <= |buf| && Pieces(cuts) && OneSentence(buf[..end])
    ensures Join(cuts + [buf[..end]]) + buf[end..] == Join(cuts) + buf
    ensures Spoken(cuts + [buf[..end]]) == if Blank(buf[..end]) then Spoken(cuts) else Spoken(cuts) + [buf[..end]]
    ensures Pieces(cuts + [buf[..end]])
  {
    JoinSnoc(cuts, buf[..end]);
    SpokenSnoc(cuts, buf[..end]);
    Regroup(Join(cuts), buf[..end], buf[end..]);
    assert buf == buf[..end] + buf[end..];
  }

  /** The first end of the buffer is at `stop - 1`, then only gaps up to `end`. */
  lemma SentencePiece(buf: string, stop: nat, end: nat)
    requires 0 < stop <= end <= |buf|
    requires forall k: nat | k + 1 < stop :: !EndsAt(buf, k)
    requires forall k | stop <= k < end :: Gap(buf[k])
    ensures OneSentence(buf[..end])
  {
    forall i: nat | i < end && EndsAt(buf[..end], i) ensures EndsAt(buf, i) {}
  }

  /** Behind the last space within reach, or at the limit when there is none. */
  lemma ForcedCut(buf: string, max: nat, p: int)
    requires max >= 1 && |buf| >= max && -1 <= p < |buf| && p <= max
    requires p >= 0 ==> buf[p] == ' '
    requires p < 0 ==> forall i | 0 <= i < |buf| && i < max + 1 :: buf[i] != ' '
    ensures Forced(buf[..if p + 1 == 0 then max else p + 1], max)
  {
  }

  lemma AllForced(cuts: seq<string>, chunk: string, max: nat)
    requires (forall x | x in cuts :: Forced(x, max)) && Forced(chunk, max)
    ensures forall x | x in cuts + [chunk] :: Forced(x, max)
  {
  }

  lemma SuffixNoEnd(s: string, cut: nat)
    requires NoEnd(s) && cut <= |s|
    ensures NoEnd(s[cut..]) && OneSentence(s[..cut])
  {
    forall i: nat | i < |s| - cut ensures !EndsAt(s[cut..], i) {
      assert !EndsAt(s, i + cut);
    }
    forall i: nat | i < cut ensures !EndsAt(s[..cut], i) {
      assert !EndsAt(s, i);
    }
  }

  /** One more delta: what was cut and what is buffered are still the whole text. */
  lemma KeepsText(cuts: seq<string>, before: string, deltas: seq<string>, delta: string, more: seq<string>, after: string)
    requires Join(cuts) + before == Join(deltas) && Join(more) + after == before + delta
    ensures Join(cuts + more) + after == Join(deltas + [delta])
  {
    JoinAppend(cuts, more);
    JoinSnoc(deltas, delta);
    Regroup(Join(cuts), Join(more), after);
    Regroup(Join(cuts), before, delta);
  }

  lemma Regroup(a: string, b: string, c: string)
    ensures a + b + c == a + (b + c)
  {
  }

  /** A whole reply, in whatever deltas it came: the pieces handed out are never
      blank, hold one sentence each, and together are the reply up to whitespace;
      with the blank pieces put back they are the reply itself. */
  method SpeakReply(deltas: seq<string>, max: nat) returns (said: seq<string>, ghost cuts: seq<string>)
    requires max >= 1
    ensures Join(cuts) == Join(deltas) && said == Spoken(cuts) && Pieces(cuts)
    ensures forall k | 0 <= k < |said| :: !Blank(said[k]) && OneSentence(said[k])
    ensures Squeeze(Join(said)) == Squeeze(Join(deltas))
  {
    var chunker := new SentenceChunker(max);
    said, cuts := [], [];
    for n := 0 to |deltas|
      invariant chunker.max == max && fresh(chunker)
      invariant Join(cuts) + chunker.buf == Join(deltas[..n])
      invariant said == Spoken(cuts) && Pieces(cuts) && NoEnd(chunker.buf)
    {
      ghost var before := chunker.buf;
      var out;
      ghost var more;
      out, more := chunker.Feed(deltas[n]);
      SpokenAppend(cuts, more);
      assert deltas[..n + 1] == deltas[..n] + [deltas[n]];
      KeepsText(cuts, before, deltas[..n], deltas[n], more, chunker.buf);
      said := said + out;
      cuts := cuts + more;
    }
    assert deltas[..|deltas|] == deltas;
    ghost var tail := chunker.buf;
    var out := chunker.Flush();
    said := said + out;
    Ending(cuts, tail);
    cuts := cuts + if tail == "" then [] else [tail];
  }

  /** The flushed tail is the last piece. */
  lemma Ending(cuts: seq<string>, tail: string)
    requires Pieces(cuts) && NoEnd(tail)
    ensures var all := cuts + if tail == "" then [] else [tail];
            && Join(all) == Join(cuts) + tail && Pieces(all)
            && Spoken(all) == Spoken(cuts) + (if Blank(tail) then [] else [tail])
            && (forall k | 0 <= k < |Spoken(all)| :: !Blank(Spoken(all)[k]) && OneSentence(Spoken(all)[k]))
            && Squeeze(Join(Spoken(all))) == Squeeze(Join(all))
  {
    var all := cuts + if tail == "" then [] else [tail];
    if tail == "" {
      assert all == cuts;
    } else {
      JoinSnoc(cuts, tail);
      SpokenSnoc(cuts, tail);
    }
    SpokenSqueeze(all);
    SpokenPieces(all);
  }

  lemma {:induction false} SpokenPieces(cuts: seq<string>)
    requires Pieces(cuts)
    ensures forall k | 0 <= k < |Spoken(cuts)| :: !Blank(Spoken(cuts)[k]) && OneSentence(Spoken(cuts)[k])
  {
    if cuts != [] {
      assert Pieces(cuts[1..]);
      SpokenPieces(cuts[1..]);
    }
  }
}
