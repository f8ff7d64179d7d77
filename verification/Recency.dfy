/** Lists in order of last use. */
module Recency {
  function Without<T(==)>(s: seq<T>, k: T): seq<T> {
    if s == [] then [] else Without(s[..|s| - 1], k) + if s[|s| - 1] == k then [] else [s[|s| - 1]]
  }

  /** Everything used, each once, the most recently used last. */
  function Recent<T(==)>(used: seq<T>): seq<T> {
    if used == [] then [] else Without(Recent(used[..|used| - 1]), used[|used| - 1]) + [used[|used| - 1]]
  }

  function Last<T>(s: seq<T>, n: nat): seq<T> { if |s| <= n then s else s[|s| - n..] }

  /** Where `k` was last used. */
  function LastUse<T(==)>(used: seq<T>, k: T): (n: nat)
    requires k in used
    ensures n < |used| && used[n] == k && k !in used[n + 1..]
  {
    if used[|used| - 1] == k then |used| - 1
    else
      var n := LastUse(used[..|used| - 1], k);
      assert used[n + 1..] == used[..|used| - 1][n + 1..] + [used[|used| - 1]];
      n
  }

  predicate NoRepeats<T(==)>(s: seq<T>) {
    s == [] || (NoRepeats(s[..|s| - 1]) && s[|s| - 1] !in s[..|s| - 1])
  }

  /** Every element was used later than those before it. */
  predicate Ordered<T(==)>(used: seq<T>, s: seq<T>) {
    s == [] ||
    (var e := s[|s| - 1];
     && Ordered(used, s[..|s| - 1]) && e in used
     && forall x | x in s[..|s| - 1] :: x in used && LastUse(used, x) < LastUse(used, e))
  }

  lemma {:induction false} WithoutAll<T>(s: seq<T>, k: T)
    ensures forall x :: x in Without(s, k) <==> x in s && x != k
  {
    if s != [] {
      WithoutAll(s[..|s| - 1], k);
      assert s == s[..|s| - 1] + [s[|s| - 1]];
    }
  }

  lemma {:induction false} WithoutAppend<T>(a: seq<T>, b: seq<T>, k: T)
    ensures Without(a + b, k) == Without(a, k) + Without(b, k)
  {
    if b == [] {
      assert a + b == a;
    } else {
      assert (a + b)[..|a + b| - 1] == a + b[..|b| - 1];
      WithoutAppend(a, b[..|b| - 1], k);
    }
  }

  lemma {:induction false} WithoutLength<T>(s: seq<T>, k: T)
    requires NoRepeats(s)
    ensures |Without(s, k)| == if k in s then |s| - 1 else |s|
  {
    if s != [] {
      var t := s[..|s| - 1];
      WithoutLength(t, k);
      assert k in s <==> k in t || k == s[|s| - 1] by { assert s == t + [s[|s| - 1]]; }
    }
  }

  lemma {:induction false} WithoutOnce<T>(s: seq<T>, k: T)
    requires NoRepeats(s)
    ensures NoRepeats(Without(s, k))
  {
    if s != [] {
      var t, last := s[..|s| - 1], s[|s| - 1];
      WithoutOnce(t, k);
      WithoutAll(t, k);
      if last == k {
        assert Without(s, k) == Without(t, k);
      } else {
        NoRepeatsMore(Without(t, k), last);
      }
    }
  }

  lemma WithoutOne<T>(s: seq<T>, k: T)
    requires NoRepeats(s)
    ensures |Without(s, k)| == if k in s then |s| - 1 else |s|
    ensures NoRepeats(Without(s, k))
  {
    WithoutLength(s, k);
    WithoutOnce(s, k);
  }

  lemma NoRepeatsMore<T>(s: seq<T>, x: T)
    requires NoRepeats(s) && x !in s
    ensures NoRepeats(s + [x])
  {
    assert (s + [x])[..|s|] == s;
  }

  lemma {:induction false} NoRepeatsParts<T>(a: seq<T>, b: seq<T>)
    requires NoRepeats(a + b)
    ensures NoRepeats(a) && NoRepeats(b) && forall x | x in b :: x !in a
  {
    if b == [] {
      assert a + b == a;
    } else {
      var c := b[..|b| - 1];
      assert (a + b)[..|a + b| - 1] == a + c;
      NoRepeatsParts(a, c);
      assert b == c + [b[|b| - 1]];
    }
  }

  lemma {:induction false} OrderedWithout<T>(used: seq<T>, s: seq<T>, k: T)
    requires Ordered(used, s)
    ensures Ordered(used, Without(s, k))
  {
    if s != [] {
      var t := s[..|s| - 1];
      OrderedWithout(used, t, k);
      WithoutAll(t, k);
      if s[|s| - 1] == k {
        assert Without(s, k) == Without(t, k);
      } else {
        assert Without(s, k)[..|Without(s, k)| - 1] == Without(t, k);
      }
    }
  }

  /** A use of `k` moves nothing else. */
  lemma {:induction false} OrderedMore<T>(used: seq<T>, s: seq<T>, k: T)
    requires Ordered(used, s) && k !in s
    ensures Ordered(used + [k], s)
  {
    if s != [] {
      var t := s[..|s| - 1];
      assert s == t + [s[|s| - 1]];
      OrderedMore(used, t, k);
      assert (used + [k])[..|used|] == used;
    }
  }

  lemma {:induction false} OrderedOnce<T>(used: seq<T>, s: seq<T>)
    requires Ordered(used, s)
    ensures NoRepeats(s)
  {
    if s != [] { OrderedOnce(used, s[..|s| - 1]); }
  }

  /** `Recent` lists exactly what was used, in the order of last use. */
  lemma {:induction false} RecentOrdered<T>(used: seq<T>)
    ensures forall k :: k in Recent(used) <==> k in used
    ensures Ordered(used, Recent(used)) && NoRepeats(Recent(used))
  {
    if used != [] {
      var before, k := used[..|used| - 1], used[|used| - 1];
      assert used == before + [k];
      RecentOrdered(before);
      WithoutAll(Recent(before), k);
      RecentOrderedStep(before, Recent(before), k);
    }
    OrderedOnce(used, Recent(used));
  }

  lemma RecentOrderedStep<T>(before: seq<T>, s: seq<T>, k: T)
    requires Ordered(before, s) && forall x :: x in s <==> x in before
    ensures Ordered(before + [k], Without(s, k) + [k])
  {
    var rest := Without(s, k);
    WithoutAll(s, k);
    OrderedWithout(before, s, k);
    OrderedMore(before, rest, k);
    assert (rest + [k])[..|rest|] == rest;
    forall x | x in rest ensures LastUse(before + [k], x) < LastUse(before + [k], k) {
      LastUseMore(before, k, x);
    }
  }

  lemma LastUseMore<T>(before: seq<T>, k: T, x: T)
    requires x in before && x != k
    ensures LastUse(before + [k], x) == LastUse(before, x) < |before| == LastUse(before + [k], k)
  {
    assert (before + [k])[..|before|] == before;
  }

  lemma LastAppend<T>(a: seq<T>, b: seq<T>, n: nat)
    requires |b| >= n
    ensures Last(a + b, n) == Last(b, n)
  {
  }

  lemma LruParts<T>(gone: seq<T>, kept: seq<T>, k: T)
    requires NoRepeats(kept)
    ensures Last(Without(kept, k) + [k], |kept|) == Last(Without(gone + kept, k) + [k], |kept|)
  {
    var rest := Without(kept, k) + [k];
    WithoutAppend(gone, kept, k);
    WithoutOne(kept, k);
    assert Without(gone + kept, k) + [k] == Without(gone, k) + rest;
    LastAppend(Without(gone, k), rest, |kept|);
  }

  /** Keeping only the last `n` and forgetting the rest loses nothing: one more use
      leaves the last `n` of the full list. */
  lemma LruStep<T>(full: seq<T>, k: T, n: nat)
    requires NoRepeats(full)
    ensures Last(Without(Last(full, n), k) + [k], n) == Last(Without(full, k) + [k], n)
  {
    if |full| > n {
      var gone := full[..|full| - n];
      assert full == gone + Last(full, n);
      NoRepeatsParts(gone, Last(full, n));
      LruParts(gone, Last(full, n), k);
    }
  }

  /** `kept`: the last `n` used. */
  predicate Keeps<T(==)>(kept: seq<T>, used: seq<T>, n: nat) { kept == Last(Recent(used), n) }

  /** One more use of a bounded list. */
  lemma UseMore<T>(kept: seq<T>, used: seq<T>, k: T, n: nat)
    requires Keeps(kept, used, n)
    ensures Moved(kept, k, Without(kept, k) + [k])
    ensures Keeps(Last(Without(kept, k) + [k], n), used + [k], n)
    ensures k in kept ==> Keeps(Without(kept, k) + [k], used + [k], n)
  {
    assert (used + [k])[..|used|] == used;
    RecentOrdered(used);
    LruStep(Recent(used), k, n);
    LastOnce(Recent(used), n);
    MovedLast(kept, k);
  }

  /** `now` is `kept` with `k` at its end. */
  predicate Moved<T(==)>(kept: seq<T>, k: T, now: seq<T>) {
    && NoRepeats(now) && (forall x | x in now :: x in kept || x == k)
    && (forall x | x in kept :: x in now) && now != [] && now[|now| - 1] == k
    && |now| == if k in kept then |kept| else |kept| + 1
  }

  lemma MovedLast<T>(kept: seq<T>, k: T)
    requires NoRepeats(kept)
    ensures Moved(kept, k, Without(kept, k) + [k])
  {
    WithoutOne(kept, k);
    WithoutAll(kept, k);
    Pushed(kept, Without(kept, k), k);
  }

  lemma Pushed<T>(kept: seq<T>, rest: seq<T>, k: T)
    requires NoRepeats(rest) && forall x :: x in rest <==> x in kept && x != k
    requires |rest| == if k in kept then |kept| - 1 else |kept|
    ensures Moved(kept, k, rest + [k])
  {
    assert (rest + [k])[..|rest|] == rest;
    assert NoRepeats(rest + [k]);
    assert forall x :: x in rest + [k] <==> x in rest || x == k;
  }

  lemma LastOnce<T>(full: seq<T>, n: nat)
    requires NoRepeats(full)
    ensures NoRepeats(Last(full, n))
  {
    if |full| > n {
      assert full == full[..|full| - n] + full[|full| - n..];
      NoRepeatsParts(full[..|full| - n], full[|full| - n..]);
    }
  }
}
