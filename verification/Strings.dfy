/** Strings as the sources use them: joining, whitespace, blank pieces. */
module Strings {
  /** `"".join(parts)`. */
  function Join(parts: seq<string>): string {
    if parts == [] then "" else parts[0] + Join(parts[1..])
  }

  lemma {:induction false} JoinAppend(a: seq<string>, b: seq<string>)
    ensures Join(a + b) == Join(a) + Join(b)
  {
    if a == [] {
      assert a + b == b;
    } else {
      assert (a + b)[1..] == a[1..] + b;
      JoinAppend(a[1..], b);
    }
  }

  lemma JoinSnoc(a: seq<string>, p: string)
    ensures Join(a + [p]) == Join(a) + p
  {
    JoinAppend(a, [p]);
    assert Join([p]) == p + Join([p][1..]) == p;
  }

  /** What `str.strip()` strips. */
  predicate Whitespace(c: char) {
    var n := c as int;
    || 0x09 <= n <= 0x0d || 0x1c <= n <= 0x20 || n == 0x85 || n == 0xa0 || n == 0x1680
    || 0x2000 <= n <= 0x200a || n == 0x2028 || n == 0x2029 || n == 0x202f || n == 0x205f || n == 0x3000
  }

  predicate Blank(s: string) { forall i | 0 <= i < |s| :: Whitespace(s[i]) }

  /** The text without its whitespace. */
  function Squeeze(s: string): string {
    if s == "" then "" else (if Whitespace(s[0]) then "" else [s[0]]) + Squeeze(s[1..])
  }

  lemma {:induction false} SqueezeAppend(a: string, b: string)
    ensures Squeeze(a + b) == Squeeze(a) + Squeeze(b)
  {
    if a == "" {
      assert a + b == b;
    } else {
      assert (a + b)[1..] == a[1..] + b;
      SqueezeAppend(a[1..], b);
    }
  }

  lemma {:induction false} SqueezeBlank(s: string)
    requires Blank(s)
    ensures Squeeze(s) == ""
  {
    if s != "" { SqueezeBlank(s[1..]); }
  }

  /** The pieces that carry something. */
  function Spoken(cuts: seq<string>): seq<string> {
    if cuts == [] then [] else (if Blank(cuts[0]) then [] else [cuts[0]]) + Spoken(cuts[1..])
  }

  lemma {:induction false} SpokenAppend(a: seq<string>, b: seq<string>)
    ensures Spoken(a + b) == Spoken(a) + Spoken(b)
  {
    if a == [] {
      assert a + b == b;
    } else {
      assert (a + b)[1..] == a[1..] + b;
      SpokenAppend(a[1..], b);
    }
  }

  lemma SpokenSnoc(a: seq<string>, p: string)
    ensures Spoken(a + [p]) == if Blank(p) then Spoken(a) else Spoken(a) + [p]
  {
    SpokenAppend(a, [p]);
    assert Spoken([p]) == (if Blank(p) then [] else [p]) + Spoken([p][1..]);
  }

  /** Leaving the blank pieces out loses whitespace only. */
  lemma {:induction false} SpokenSqueeze(cuts: seq<string>)
    ensures Squeeze(Join(Spoken(cuts))) == Squeeze(Join(cuts))
  {
    if cuts != [] {
      SpokenSqueeze(cuts[1..]);
      SqueezeAppend(cuts[0], Join(cuts[1..]));
      if Blank(cuts[0]) {
        SqueezeBlank(cuts[0]);
        assert Spoken(cuts) == Spoken(cuts[1..]);
      } else {
        assert Spoken(cuts)[1..] == Spoken(cuts[1..]);
        SqueezeAppend(cuts[0], Join(Spoken(cuts[1..])));
      }
    }
  }

  /** The pieces that carry nothing. */
  function Blanks(cuts: seq<string>): (r: seq<string>)
    ensures forall x | x in r :: x in cuts && Blank(x)
  {
    if cuts == [] then [] else (if Blank(cuts[0]) then [cuts[0]] else []) + Blanks(cuts[1..])
  }

  /** `spoken` is `text` without the blank pieces `dropped`. */
  ghost predicate Agrees(text: string, spoken: string, dropped: seq<string>) {
    && Squeeze(text) == Squeeze(spoken)
    && |text| == |spoken| + |Join(dropped)|
    && (dropped == [] ==> text == spoken)
    && (forall x | x in dropped :: x != "" && Blank(x))
  }

  lemma {:induction false} SpokenLength(cuts: seq<string>)
    ensures |Join(cuts)| == |Join(Spoken(cuts))| + |Join(Blanks(cuts))|
    ensures Blanks(cuts) == [] ==> Spoken(cuts) == cuts
  {
    if cuts != [] {
      SpokenLength(cuts[1..]);
      if Blank(cuts[0]) {
        assert Blanks(cuts)[1..] == Blanks(cuts[1..]) && Spoken(cuts) == Spoken(cuts[1..]);
      } else {
        assert Spoken(cuts)[1..] == Spoken(cuts[1..]) && Blanks(cuts) == Blanks(cuts[1..]);
      }
    }
  }

  lemma AgreesSpoken(cuts: seq<string>)
    requires forall x | x in cuts :: x != ""
    ensures Agrees(Join(cuts), Join(Spoken(cuts)), Blanks(cuts))
  {
    SpokenSqueeze(cuts);
    SpokenLength(cuts);
  }

  lemma AgreesSame(text: string)
    ensures Agrees(text, text, [])
  {
  }

  lemma AgreesAppend(t1: string, s1: string, d1: seq<string>, t2: string, s2: string, d2: seq<string>)
    requires Agrees(t1, s1, d1) && Agrees(t2, s2, d2)
    ensures Agrees(t1 + t2, s1 + s2, d1 + d2)
  {
    SqueezeAppend(t1, t2);
    SqueezeAppend(s1, s2);
    JoinAppend(d1, d2);
  }

  /** They are equal exactly when nothing was dropped. */
  lemma AgreesVerbatim(text: string, spoken: string, dropped: seq<string>)
    requires Agrees(text, spoken, dropped)
    ensures text == spoken <==> dropped == []
  {
    if dropped != [] { assert dropped[0] in dropped && Join(dropped) == dropped[0] + Join(dropped[1..]); }
  }
}
