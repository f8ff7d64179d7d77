/** Editing the day's schedule and firing its entries. */
module Planning {
  import opened Wrappers
  import opened Schedule

  // ---- lists of entries, time by time ----

  /** The entries at one time, in order. */
  function At(es: seq<Entry>, t: Time): seq<Entry> {
    if es == [] then [] else At(es[..|es| - 1], t) + if es[|es| - 1].time == t then [es[|es| - 1]] else []
  }

  predicate ByTime(es: seq<Entry>) { forall i, j | 0 <= i < j < |es| :: es[i].time <= es[j].time }

  function Times(es: seq<Entry>): set<Time> { set e | e in es :: e.time }

  predicate OnePerTime(es: seq<Entry>) { forall t :: |At(es, t)| <= 1 }

  lemma {:induction false} AtAppend(a: seq<Entry>, b: seq<Entry>, t: Time)
    ensures At(a + b, t) == At(a, t) + At(b, t)
  {
    if b == [] {
      assert a + b == a;
    } else {
      assert (a + b)[..|a + b| - 1] == a + b[..|b| - 1];
      AtAppend(a, b[..|b| - 1], t);
    }
  }

  lemma AtOne(e: Entry, t: Time)
    ensures At([e], t) == if e.time == t then [e] else []
  {
    assert [e][..0] == [];
  }

  lemma {:induction false} AtNone(es: seq<Entry>, t: Time)
    ensures At(es, t) == [] <==> t !in Times(es)
  {
    if es != [] {
      AtNone(es[..|es| - 1], t);
      assert es == es[..|es| - 1] + [es[|es| - 1]];
      assert Times(es) == Times(es[..|es| - 1]) + {es[|es| - 1].time};
    }
  }

  /** `sorted(es, key=time)`, which keeps equal times in order. */
  function Sorted(es: seq<Entry>): seq<Entry> {
    if es == [] then [] else Insert(Sorted(es[..|es| - 1]), es[|es| - 1])
  }

  function Insert(s: seq<Entry>, e: Entry): seq<Entry> {
    if s == [] then [e]
    else if s[|s| - 1].time <= e.time then s + [e]
    else Insert(s[..|s| - 1], e) + [s[|s| - 1]]
  }

  lemma {:induction false} InsertAt(s: seq<Entry>, e: Entry, t: Time)
    ensures At(Insert(s, e), t) == At(s, t) + At([e], t)
  {
    if s == [] {
      assert At([], t) + At([e], t) == At([e], t);
    } else if s[|s| - 1].time <= e.time {
      AtAppend(s, [e], t);
    } else {
      var init, last := s[..|s| - 1], s[|s| - 1];
      assert s == init + [last];
      InsertAt(init, e, t);
      InsertBefore(init, last, Insert(init, e), e, t);
    }
  }

  lemma InsertBefore(init: seq<Entry>, last: Entry, rest: seq<Entry>, e: Entry, t: Time)
    requires last.time != e.time && At(rest, t) == At(init, t) + At([e], t)
    ensures At(rest + [last], t) == At(init + [last], t) + At([e], t)
  {
    AtAppend(init, [last], t);
    AtAppend(rest, [last], t);
    AtOne(e, t);
    AtOne(last, t);
    Swap(At(init, t), At([e], t), At([last], t));
  }

  lemma Swap<T>(a: seq<T>, b: seq<T>, c: seq<T>)
    requires b == [] || c == []
    ensures a + b + c == a + c + b
  {
  }

  lemma {:induction false} InsertByTime(s: seq<Entry>, e: Entry)
    requires ByTime(s)
    ensures ByTime(Insert(s, e))
    ensures forall x | x in Insert(s, e) :: x in s || x == e
  {
    if s != [] && s[|s| - 1].time > e.time {
      var r := Insert(s[..|s| - 1], e);
      InsertByTime(s[..|s| - 1], e);
      forall i | 0 <= i < |r| ensures r[i].time <= s[|s| - 1].time { assert r[i] in r; }
    }
  }

  /** The sort keeps what is at each time, and there is one such list by time. */
  lemma {:induction false} SortedAt(es: seq<Entry>, t: Time)
    ensures At(Sorted(es), t) == At(es, t) && ByTime(Sorted(es))
  {
    if es != [] {
      var init, e := es[..|es| - 1], es[|es| - 1];
      SortedAt(init, t);
      InsertAt(Sorted(init), e, t);
      InsertByTime(Sorted(init), e);
      AtOne(e, t);
    }
  }

  lemma {:induction false} ByTimeUnique(a: seq<Entry>, b: seq<Entry>)
    requires ByTime(a) && ByTime(b) && forall t :: At(a, t) == At(b, t)
    ensures a == b
  {
    if a == [] || b == [] {
      if a != [] { Filled(a); }
      if b != [] { Filled(b); }
    } else {
      var x, y := a[|a| - 1], b[|b| - 1];
      LastIsLatest(a, b);
      LastIsLatest(b, a);
      var c, d := a[..|a| - 1], b[..|b| - 1];
      assert At(a, x.time) == At(c, x.time) + [x] && At(b, x.time) == At(d, x.time) + [y];
      var last := At(a, x.time);
      assert last == At(b, x.time);
      assert x == last[|last| - 1] == y;
      forall t ensures At(c, t) == At(d, t) {
        AtOne(x, t);
        assert At(a, t) == At(c, t) + At([x], t) && At(b, t) == At(d, t) + At([x], t);
        assert At(a, t) == At(b, t);
        Cancel(At(c, t), At(d, t), At([x], t));
      }
      ByTimeUnique(c, d);
    }
  }

  lemma Filled(s: seq<Entry>)
    requires s != []
    ensures exists t :: At(s, t) != []
  {
    assert s[0] in s;
    AtNone(s, s[0].time);
  }

  lemma Cancel<T>(a: seq<T>, b: seq<T>, c: seq<T>)
    requires a + c == b + c
    ensures a == b
  {
    assert |a| == |b|;
    assert a == (a + c)[..|a|] && b == (b + c)[..|b|];
  }

  lemma LastIsLatest(a: seq<Entry>, b: seq<Entry>)
    requires a != [] && b != [] && ByTime(b) && forall t :: At(a, t) == At(b, t)
    ensures a[|a| - 1].time <= b[|b| - 1].time
  {
    var t := a[|a| - 1].time;
    AtNone(a, t);
    AtNone(b, t);
    assert a[|a| - 1] in a;
    var e :| e in b && e.time == t;
  }

  // ---- the edit ----

  function Without(es: seq<Entry>, gone: set<Time>): seq<Entry> {
    if es == [] then [] else Without(es[..|es| - 1], gone) + if es[|es| - 1].time in gone then [] else [es[|es| - 1]]
  }

  lemma {:induction false} WithoutAt(es: seq<Entry>, gone: set<Time>, t: Time)
    ensures At(Without(es, gone), t) == if t in gone then [] else At(es, t)
  {
    if es != [] {
      var init, e := es[..|es| - 1], es[|es| - 1];
      WithoutAt(init, gone, t);
      if e.time in gone {
        assert Without(es, gone) == Without(init, gone);
      } else {
        AtAppend(Without(init, gone), [e], t);
        AtOne(e, t);
      }
    }
  }

  function Edit(before: seq<Entry>, add: seq<Entry>, remove: set<Time>): seq<Entry> {
    Sorted(Without(before, remove + Times(add)) + add)
  }

  /** What the edit does to the day, read as a map from times; one entry a time stays
      one. */
  lemma EditMeans(before: seq<Entry>, add: seq<Entry>, remove: set<Time>)
    ensures ByTime(Edit(before, add, remove))
    ensures forall t :: At(Edit(before, add, remove), t) == Edited(before, add, remove, t)
    ensures OnePerTime(before) && OnePerTime(add) ==> OnePerTime(Edit(before, add, remove))
  {
    forall t ensures ByTime(Edit(before, add, remove))
      && At(Edit(before, add, remove), t) == Edited(before, add, remove, t)
    {
      EditAt(before, add, remove, t);
    }
    EditAt(before, add, remove, 0);
  }

  /** What the edit leaves at a time: the added entries over what was there without
      the removed ones. */
  function Edited(before: seq<Entry>, add: seq<Entry>, remove: set<Time>, t: Time): seq<Entry> {
    if t in Times(add) then At(add, t) else if t in remove then [] else At(before, t)
  }

  lemma EditAt(before: seq<Entry>, add: seq<Entry>, remove: set<Time>, t: Time)
    ensures ByTime(Edit(before, add, remove)) && At(Edit(before, add, remove), t) == Edited(before, add, remove, t)
  {
    var gone := remove + Times(add);
    SortedAt(Without(before, gone) + add, t);
    AtAppend(Without(before, gone), add, t);
    WithoutAt(before, gone, t);
    AtNone(add, t);
  }

  datatype Outcome =
    | Unreadable                          // the file could not be read; nothing changed
    | Twice(times: set<Time>)             // `add` names a time twice
    | Nothing                             // neither `add` nor `remove`
    | Done(entries: seq<Entry>, missing: set<Time>)

  /** What reads schedule files: whatever else it accepts, it reads written ones. */
  ghost predicate Reads(load: string -> Option<seq<Entry>>) {
    forall today, es | Plain(today) :: load(Schedule.WriteSchedule(today, es)) == Some(ToSeconds(es))
  }

  /** The reader of the written part of TOML does. */
  lemma LoadScheduleReads()
    ensures Reads(LoadSchedule)
  {
    forall today, es | Plain(today) ensures LoadSchedule(Schedule.WriteSchedule(today, es)) == Some(ToSeconds(es)) {
      FileRoundTrip(today, es);
    }
  }

  /** `WriteSchedule`, on today's file (None: there is none), which may be edited by
      hand. */
  method RunWriteSchedule(file: Option<string>, today: string, add: seq<Entry>, remove: set<Time>,
                          load: string -> Option<seq<Entry>>)
    returns (outcome: Outcome, after: Option<string>)
    requires Plain(today) && Reads(load)
    ensures !outcome.Done? ==> after == file
    ensures outcome.Twice? <==> !OnePerTime(add)
    ensures outcome.Nothing? <==> add == [] && remove == {}
    ensures outcome.Unreadable? <==> OnePerTime(add) && (add != [] || remove != {}) && file.Some? && load(file.value).None?
    ensures outcome.Done? ==>
      var before := if file.Some? then load(file.value) else Some([]);
      && before.Some? && outcome.entries == Edit(before.value, add, remove)
      && outcome.missing == remove - Times(before.value)
      && (if outcome.entries == before.value then after == file
          else && after.Some? && load(after.value) == Some(ToSeconds(outcome.entries))
               && (load(after.value) == Some(outcome.entries) <==> forall e | e in outcome.entries :: e.time % SECOND == 0))
  {
    after := file;
    var twice := RepeatedTimes(add);
    if twice != {} { return Twice(twice), file; }
    AtEmpty();
    if add == [] && remove == {} { return Nothing, file; }
    var before := [];
    if file.Some? {
      var loaded := load(file.value);
      if loaded.None? { return Unreadable, file; }
      before := loaded.value;
    }
    var entries := Edit(before, add, remove);
    if entries != before {
      after := Some(Schedule.WriteSchedule(today, entries));
      WholeSeconds(entries);
    }
    outcome := Done(entries, remove - Times(before));
  }

  lemma AtEmpty()
    ensures OnePerTime([])
  {
  }

  method RepeatedTimes(es: seq<Entry>) returns (twice: set<Time>)
    ensures twice == set e | e in es && |At(es, e.time)| > 1 :: e.time
    ensures twice == {} <==> OnePerTime(es)
  {
    twice := set e | e in es && |At(es, e.time)| > 1 :: e.time;
    forall t ensures |At(es, t)| > 1 ==> t in twice {
      AtNone(es, t);
      if |At(es, t)| > 1 { var e :| e in es && e.time == t; }
    }
  }

  /** Two added times that differ below the second pass the check for one entry a
      time, and are the same time in the file. */
  lemma HalfSecondCollides(today: string, a: string, b: string)
    requires Plain(today)
    ensures var noon: Time := 43200 * SECOND;
            var add := [Entry(noon, a), Entry(noon + SECOND / 2, b)];
            && OnePerTime(add) && Edit([], add, {}) == add
            && LoadSchedule(Schedule.WriteSchedule(today, add)) == Some([Entry(noon, a), Entry(noon, b)])
  {
    var noon: Time := 43200 * SECOND;
    var half: Time := noon + SECOND / 2;
    TwoTimes(Entry(noon, a), Entry(half, b));
    CutToNoon(a, b);
    FileRoundTrip(today, [Entry(noon, a), Entry(half, b)]);
  }

  lemma TwoTimes(x: Entry, y: Entry)
    requires x.time < y.time
    ensures OnePerTime([x, y]) && Edit([], [x, y], {}) == [x, y]
  {
    var add := [x, y];
    assert add == [x] + [y];
    forall t ensures |At(add, t)| <= 1 {
      AtAppend([x], [y], t);
      AtOne(x, t);
      AtOne(y, t);
    }
    assert add[..1] == [x] && [x][..0] == [];
    assert Sorted([x]) == [x];
    assert Sorted(add) == Insert([x], y) == [x, y];
    assert Without([], {} + Times(add)) + add == add;
  }

  lemma CutToNoon(a: string, b: string)
    ensures var noon: Time := 43200 * SECOND;
            ToSeconds([Entry(noon, a), Entry(noon + SECOND / 2, b)]) == [Entry(noon, a), Entry(noon, b)]
  {
    var noon: Time := 43200 * SECOND;
    var half: Time := noon + SECOND / 2;
    var y := Entry(half, b);
    assert [Entry(noon, a), y][1..] == [y] && [y][1..] == [];
    assert Whole(half) == noon && Whole(noon) == noon;
    assert ToSeconds([y]) == [Entry(noon, b)];
  }
}
