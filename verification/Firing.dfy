/** The poll that fires the day's entries when their time comes. */
module Firing {
  import opened Wrappers
  import opened Schedule

  /** `due_entries`: arrived within the last minute, and not fired yet. */
  predicate DueNow(e: Entry, now: Time, fired: set<Time>) {
    e.time !in fired && e.time <= now && now - MINUTE <= e.time
  }

  function Due(es: seq<Entry>, now: Time, fired: set<Time>): (r: seq<Entry>)
    ensures forall e :: e in r <==> e in es && DueNow(e, now, fired)
  {
    if es == [] then []
    else
      var rest := Due(es[..|es| - 1], now, fired);
      assert es == es[..|es| - 1] + [es[|es| - 1]];
      rest + if DueNow(es[|es| - 1], now, fired) then [es[|es| - 1]] else []
  }

  function TimesOf(es: seq<Entry>): set<Time> { set e | e in es :: e.time }

  /** One poll of a day: the time, and the entries in the file (none: no file, or one
      that cannot be read). */
  datatype Poll = Poll(now: Time, entries: seq<Entry>)

  /** The times fired by the first `k` polls. */
  function FiredBefore(polls: seq<Poll>, k: nat): set<Time>
    requires k <= |polls|
    decreases k, 0
  {
    if k == 0 then {} else FiredBefore(polls, k - 1) + TimesOf(Fires(polls, k - 1))
  }

  function Fires(polls: seq<Poll>, k: nat): (r: seq<Entry>)
    requires k < |polls|
    decreases k, 1
  {
    Due(polls[k].entries, polls[k].now, FiredBefore(polls, k))
  }

  predicate FiresAt(polls: seq<Poll>, k: nat, t: Time)
    requires k < |polls|
  {
    t in TimesOf(Fires(polls, k))
  }

  /** The window of a poll holds the entry's time. */
  predicate Reaches(p: Poll, t: Time) { t <= p.now && p.now - MINUTE <= t && t in TimesOf(p.entries) }

  lemma {:induction false} FiredTimes(polls: seq<Poll>, k: nat, t: Time)
    requires k <= |polls|
    ensures t in FiredBefore(polls, k) <==> exists i :: 0 <= i < k && Reaches(polls[i], t)
  {
    if k > 0 {
      FiredTimes(polls, k - 1, t);
      if Reaches(polls[k - 1], t) && t !in FiredBefore(polls, k - 1) {
        var e :| e in polls[k - 1].entries && e.time == t;
        assert e in Fires(polls, k - 1);
      }
    }
  }

  /** A time fires at the first poll that reaches it, with every entry the file then
      has at that time, and at no other poll. */
  lemma FiresExactly(polls: seq<Poll>, k: nat, e: Entry)
    requires k < |polls|
    ensures e in Fires(polls, k) <==>
            e in polls[k].entries && Reaches(polls[k], e.time) && forall i | 0 <= i < k :: !Reaches(polls[i], e.time)
  {
    FiredTimes(polls, k, e.time);
  }

  lemma FiresOnce(polls: seq<Poll>, i: nat, j: nat, d: Entry, e: Entry)
    requires i < j < |polls| && d in Fires(polls, i) && e in Fires(polls, j)
    ensures d.time != e.time
  {
    FiresExactly(polls, i, d);
    FiresExactly(polls, j, e);
  }

  /** Polls of one day, at most a minute apart. */
  predicate Steady(polls: seq<Poll>) {
    forall i | 0 < i < |polls| :: polls[i - 1].now <= polls[i].now <= polls[i - 1].now + MINUTE
  }

  /** The first poll at or behind a time. */
  function FirstAt(polls: seq<Poll>, t: Time): (k: nat)
    requires polls != [] && t <= polls[|polls| - 1].now
    ensures k < |polls| && t <= polls[k].now && forall i | 0 <= i < k :: polls[i].now < t
    decreases |polls|
  {
    if t <= polls[0].now then 0
    else
      var k := FirstAt(polls[1..], t);
      assert forall i | 0 < i <= k :: polls[i] == polls[1..][i - 1];
      k + 1
  }

  /** An entry between the first poll and the last fires exactly once: at the first
      poll behind it, when that poll's file has it. */
  lemma BetweenPollsFires(polls: seq<Poll>, e: Entry)
    requires polls != [] && Steady(polls) && polls[0].now < e.time <= polls[|polls| - 1].now
    ensures var k := FirstAt(polls, e.time);
            && (e in polls[k].entries <==> e in Fires(polls, k))
            && (e in polls[k].entries ==> forall i | 0 <= i < |polls| && i != k :: !FiresAt(polls, i, e.time))
  {
    var k := FirstAt(polls, e.time);
    assert polls[k - 1].now < e.time;
    forall i | 0 <= i < k ensures !Reaches(polls[i], e.time) {}
    FiresExactly(polls, k, e);
    forall i | 0 <= i < |polls| && i != k && e in polls[k].entries ensures !FiresAt(polls, i, e.time) {
      if d :| d in Fires(polls, i) && d.time == e.time {
        FiresOnce(polls, if i < k then i else k, if i < k then k else i, if i < k then d else e, if i < k then e else d);
      }
    }
  }

  /** Over a whole day, however the file changes and however long the gaps: a time
      fires exactly when some poll in the minute behind it finds it in the file. */
  lemma FiresSometime(polls: seq<Poll>, t: Time)
    ensures (exists k :: 0 <= k < |polls| && FiresAt(polls, k, t)) <==>
            exists i :: 0 <= i < |polls| && Reaches(polls[i], t)
  {
    FiredTimes(polls, |polls|, t);
    FiredSomewhere(polls, |polls|, t);
  }

  lemma {:induction false} FiredSomewhere(polls: seq<Poll>, n: nat, t: Time)
    requires n <= |polls|
    ensures t in FiredBefore(polls, n) <==> exists k :: 0 <= k < n && FiresAt(polls, k, t)
  {
    if n > 0 {
      FiredSomewhere(polls, n - 1, t);
      if FiresAt(polls, n - 1, t) { assert t in FiredBefore(polls, n); }
    }
  }

  // ---- the runner ----

  class ScheduleRunner {
    var firedToday: map<nat, set<Time>>       // by day
    ghost var polls: map<nat, seq<Poll>>      // each day's polls
    ghost var latest: nat

    /** What was fired today is what the day's polls fired. */
    ghost predicate Valid()
      reads this
    {
      && (forall d | d in polls :: d <= latest)
      && (forall d | d in firedToday :: d <= latest)
      && FiredOn(latest) == FiredBefore(PollsOn(latest), |PollsOn(latest)|)
    }

    ghost function PollsOn(day: nat): seq<Poll>
      reads this`polls
    {
      if day in polls then polls[day] else []
    }

    function FiredOn(day: nat): set<Time>
      reads this`firedToday
    {
      if day in firedToday then firedToday[day] else {}
    }

    constructor ()
      ensures Valid() && polls == map[] && latest == 0
    {
      firedToday, polls, latest := map[], map[], 0;
    }

    /** One poll: `entries` None when today's file is missing or unreadable. */
    method PollOnce(today: nat, now: Time, entries: Option<seq<Entry>>) returns (out: seq<Entry>)
      requires Valid() && latest <= today
      modifies this
      ensures Valid() && latest == today
      ensures var before := old(PollsOn(today));
              && polls == old(polls)[today := before + [Poll(now, entries.GetOr([]))]]
              && out == Fires(PollsOn(today), |before|)
      ensures forall d | d in firedToday :: d == today
    {
      ghost var before := PollsOn(today);
      ghost var poll := Poll(now, entries.GetOr([]));
      var fired := FiredOn(today);
      assert fired == FiredBefore(before, |before|);
      PruneStale(today);
      More(before, poll);
      out := [];
      if entries.Some? { out := FireDue(today, entries.value, now, fired); }
      assert FiredOn(today) == fired + TimesOf(out);
      polls := polls[today := before + [poll]];
      latest := today;
    }

    method PruneStale(today: nat)
      requires forall d | d in firedToday :: d <= today
      modifies this`firedToday
      ensures FiredOn(today) == old(FiredOn(today)) && forall d | d in firedToday :: d == today
    {
      firedToday := map d | d in firedToday && d >= today :: firedToday[d];
    }

    method FireDue(today: nat, entries: seq<Entry>, now: Time, fired: set<Time>) returns (out: seq<Entry>)
      modifies this`firedToday
      ensures out == Due(entries, now, fired) && firedToday == old(firedToday)[today := fired + TimesOf(out)]
    {
      out := DueEntries(entries, now, fired);
      firedToday := firedToday[today := fired + TimesOf(out)];
    }

    /** `due_entries`. */
    method DueEntries(entries: seq<Entry>, now: Time, fired: set<Time>) returns (out: seq<Entry>)
      ensures out == Due(entries, now, fired)
    {
      out := [];
      for n := 0 to |entries|
        invariant out == Due(entries[..n], now, fired)
      {
        var e := entries[n];
        assert entries[..n + 1][..n] == entries[..n];
        if e.time in fired { continue; }
        if e.time > now { continue; }
        if e.time < now - MINUTE { continue; }
        out := out + [e];
      }
      assert entries[..|entries|] == entries;
    }
  }

  /** A later poll changes nothing of the earlier ones. */
  lemma {:induction false} Earlier(polls: seq<Poll>, p: Poll, k: nat)
    requires k <= |polls|
    ensures FiredBefore(polls + [p], k) == FiredBefore(polls, k)
  {
    if k > 0 { Earlier(polls, p, k - 1); }
  }

  lemma More(polls: seq<Poll>, p: Poll)
    ensures FiredBefore(polls + [p], |polls|) == FiredBefore(polls, |polls|)
    ensures Fires(polls + [p], |polls|) == Due(p.entries, p.now, FiredBefore(polls, |polls|))
    ensures FiredBefore(polls + [p], |polls| + 1)
            == FiredBefore(polls, |polls|) + TimesOf(Due(p.entries, p.now, FiredBefore(polls, |polls|)))
  {
    Earlier(polls, p, |polls|);
  }
}
