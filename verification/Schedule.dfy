/** The day's schedule: its file, editing it, and firing its entries. */
module Schedule {
  import opened Wrappers
  import opened Toml

  const SECOND := 1_000_000
  const MINUTE := 60 * SECOND
  const DAY := 24 * 60 * MINUTE

  /** A local time of day, in microseconds. */
  type Time = t: int | 0 <= t < DAY

  datatype Entry = Entry(time: Time, intent: string)

  // ---- the file ----

  function Digit(n: nat): char
    requires n < 10
  {
    ('0' as int + n) as char
  }

  function Value(c: char): Option<nat> { if '0' <= c <= '9' then Some(c as int - '0' as int) else None }

  function Whole(t: Time): Time { t / SECOND * SECOND }

  /** `{t:%H:%M:%S}`: what is below a second is cut. */
  function TimeText(t: Time): string {
    var s := t / SECOND;
    var h, m, sec := s / 60 / 60, s / 60 % 60, s % 60;
    [Digit(h / 10), Digit(h % 10), ':', Digit(m / 10), Digit(m % 10), ':', Digit(sec / 10), Digit(sec % 10)]
  }

  function ReadTwo(a: char, b: char, below: nat): Option<nat> {
    var x, y := Value(a), Value(b);
    if x.Some? && y.Some? && x.value * 10 + y.value < below then Some(x.value * 10 + y.value) else None
  }

  /** `HH:MM:SS`. */
  function ReadTime(s: string): Option<Time> {
    if |s| != 8 || s[2] != ':' || s[5] != ':' then None
    else
      var h, m, sec := ReadTwo(s[0], s[1], 24), ReadTwo(s[3], s[4], 60), ReadTwo(s[6], s[7], 60);
      if h.None? || m.None? || sec.None? then None
      else Some((h.value * 3600 + m.value * 60 + sec.value) * SECOND)
  }

  lemma DigitValue(n: nat)
    requires n < 10
    ensures Value(Digit(n)) == Some(n)
  {
  }

  lemma TwoRoundTrip(n: nat, below: nat)
    requires n < below <= 100
    ensures ReadTwo(Digit(n / 10), Digit(n % 10), below) == Some(n)
  {
    DigitValue(n / 10);
    DigitValue(n % 10);
  }

  /** Hours, minutes and seconds of a count of seconds. */
  lemma SplitSeconds(s: nat)
    ensures s / 60 / 60 * 3600 + s / 60 % 60 * 60 + s % 60 == s
  {
    var m := s / 60;
    assert m == m / 60 * 60 + m % 60;
  }

  lemma TextOfTime(h: nat, m: nat, s: nat, text: string)
    requires h < 24 && m < 60 && s < 60
    requires text == [Digit(h / 10), Digit(h % 10), ':', Digit(m / 10), Digit(m % 10), ':', Digit(s / 10), Digit(s % 10)]
    ensures ReadTime(text) == Some((h * 3600 + m * 60 + s) * SECOND)
  {
    TwoRoundTrip(h, 24);
    TwoRoundTrip(m, 60);
    TwoRoundTrip(s, 60);
  }

  lemma TimeRoundTrip(t: Time)
    ensures ReadTime(TimeText(t)) == Some(Whole(t))
  {
    var s := t / SECOND;
    SplitSeconds(s);
    TextOfTime(s / 60 / 60, s / 60 % 60, s % 60, TimeText(t));
  }

  const HEADER := "[[entry]]\n"
  const TIME_KEY := "time = \""
  const INTENT_KEY := "intent = \""

  function RenderEntry(e: Entry): string {
    HEADER + (TIME_KEY + TimeText(e.time) + "\"" + ("\n" + (INTENT_KEY + Escape(e.intent) + "\"" + "\n\n")))
  }

  function RenderEntries(es: seq<Entry>): string {
    if es == [] then "" else RenderEntry(es[0]) + RenderEntries(es[1..])
  }

  function WriteSchedule(today: string, es: seq<Entry>): string { "# " + today + "\n\n" + RenderEntries(es) }

  /** One `[[entry]]` table as read. */
  datatype Table = Table(time: Option<string>, intent: Option<string>)

  predicate Starts(s: string, p: string) { |p| <= |s| && s[..|p|] == p }

  /** Behind a comment: a control character other than tab may not stand in it. */
  function SkipLine(s: string): (r: Option<string>)
    ensures r.Some? ==> |r.value| <= |s|
  {
    if s == "" then Some("")
    else if s[0] == '\n' then Some(s[1..])
    else if Control(s[0]) && s[0] != '\t' then None
    else SkipLine(s[1..])
  }

  /** `key = "value"`, from behind the opening quote, to the end of its line. */
  function ReadValue(s: string): (r: Option<(string, string)>)
    ensures r.Some? ==> |r.value.1| < |s|
  {
    var v := ReadString(s);
    if v.None? || v.value.1 == "" || v.value.1[0] != '\n' then None else Some((v.value.0, v.value.1[1..]))
  }

  /** The part of TOML the schedule is written in: comments, empty lines, entry
      tables, and their two string keys. */
  function ReadTables(s: string, acc: seq<Table>): Option<seq<Table>>
    decreases |s|
  {
    if s == "" then Some(acc)
    else if s[0] == '\n' then ReadTables(s[1..], acc)
    else if s[0] == '#' then
      var rest := SkipLine(s[1..]);
      if rest.None? then None else ReadTables(rest.value, acc)
    else if s[0] == '[' then
      if Starts(s, HEADER) then ReadTables(s[|HEADER|..], acc + [Table(None, None)]) else None
    else if acc == [] then None
    else
      var last := acc[|acc| - 1];
      if s[0] == 't' then
        if !Starts(s, TIME_KEY) || last.time.Some? then None
        else
          var v := ReadValue(s[|TIME_KEY|..]);
          if v.None? then None else ReadTables(v.value.1, acc[..|acc| - 1] + [last.(time := Some(v.value.0))])
      else
        if !Starts(s, INTENT_KEY) || last.intent.Some? then None
        else
          var v := ReadValue(s[|INTENT_KEY|..]);
          if v.None? then None else ReadTables(v.value.1, acc[..|acc| - 1] + [last.(intent := Some(v.value.0))])
  }

  function EntryOf(t: Table): Option<Entry> {
    if t.intent.None? || t.time.None? || ReadTime(t.time.value).None? then None
    else Some(Entry(ReadTime(t.time.value).value, t.intent.value))
  }

  function EntriesOf(ts: seq<Table>): Option<seq<Entry>> {
    if ts == [] then Some([])
    else
      var e, rest := EntryOf(ts[0]), EntriesOf(ts[1..]);
      if e.None? || rest.None? then None else Some([e.value] + rest.value)
  }

  /** None: the file does not hold a schedule. */
  function LoadSchedule(text: string): Option<seq<Entry>> {
    var ts := ReadTables(text, []);
    if ts.None? then None else EntriesOf(ts.value)
  }

  lemma {:induction false} PlainString(s: string, rest: string)
    requires forall c | c in s :: !Control(c) && c != '\\' && c != '\"'
    ensures ReadString(s + "\"" + rest) == Some((s, rest))
  {
    if s == "" {
      assert s + "\"" + rest == "\"" + rest;
      assert ("\"" + rest)[1..] == rest;
    } else {
      var t := s + "\"" + rest;
      assert t[0] == s[0] && s[0] in s;
      forall c | c in s[1..] ensures c in s {}
      PlainString(s[1..], rest);
      assert t[1..] == s[1..] + "\"" + rest;
      assert s == [s[0]] + s[1..];
    }
  }

  lemma Behind(p: string, rest: string)
    ensures (p + rest)[|p|..] == rest && Starts(p + rest, p) && (p != "" ==> (p + rest)[0] == p[0])
  {
  }

  lemma ReadHeader(rest: string, acc: seq<Table>)
    ensures ReadTables(HEADER + rest, acc) == ReadTables(rest, acc + [Table(None, None)])
  {
    Behind(HEADER, rest);
  }

  /** A line whose key was matched: its value, up to the line's end. */
  lemma ReadLine(key: string, v: string, s: string, rest: string)
    requires key != "" && ReadString(s + "\"" + ("\n" + rest)) == Some((v, "\n" + rest))
    ensures var text := key + s + "\"" + ("\n" + rest);
            Starts(text, key) && text[0] == key[0] && ReadValue(text[|key|..]) == Some((v, rest))
  {
    var tail := s + "\"" + ("\n" + rest);
    assert key + s + "\"" + ("\n" + rest) == key + tail;
    Behind(key, tail);
    Behind("\n", rest);
  }

  lemma ReadTimeLine(v: string, s: string, rest: string, acc: seq<Table>)
    requires ReadString(s + "\"" + ("\n" + rest)) == Some((v, "\n" + rest))
    ensures ReadTables(TIME_KEY + s + "\"" + ("\n" + rest), acc + [Table(None, None)]) == ReadTables(rest, acc + [Table(Some(v), None)])
  {
    ReadLine(TIME_KEY, v, s, rest);
    var all := acc + [Table(None, None)];
    assert all[..|all| - 1] == acc && all[|all| - 1] == Table(None, None);
  }

  lemma ReadIntentLine(v: string, t: string, s: string, rest: string, acc: seq<Table>)
    requires ReadString(s + "\"" + ("\n" + rest)) == Some((v, "\n" + rest))
    ensures ReadTables(INTENT_KEY + s + "\"" + ("\n" + rest), acc + [Table(Some(t), None)]) == ReadTables(rest, acc + [Table(Some(t), Some(v))])
  {
    ReadLine(INTENT_KEY, v, s, rest);
    var all := acc + [Table(Some(t), None)];
    assert all[..|all| - 1] == acc && all[|all| - 1] == Table(Some(t), None);
  }

  lemma TimePlain(t: Time)
    ensures forall c | c in TimeText(t) :: !Control(c) && c != '\\' && c != '\"'
  {
  }

  /** One entry's text reads as its table. */
  lemma ReadEntry(e: Entry, rest: string, acc: seq<Table>)
    ensures ReadTables(RenderEntry(e) + rest, acc) == ReadTables(rest, acc + [TableOf(e)])
  {
    var intentLine := INTENT_KEY + Escape(e.intent) + "\"" + ("\n" + ("\n" + rest));
    var timeLine := TIME_KEY + TimeText(e.time) + "\"" + ("\n" + intentLine);
    assert RenderEntry(e) + rest == HEADER + timeLine;
    ReadHeader(timeLine, acc);
    TimePlain(e.time);
    PlainString(TimeText(e.time), "\n" + intentLine);
    ReadTimeLine(TimeText(e.time), TimeText(e.time), intentLine, acc);
    StringRoundTrip(e.intent, "\n" + ("\n" + rest));
    ReadIntentLine(e.intent, TimeText(e.time), Escape(e.intent), "\n" + rest, acc);
    Behind("\n", rest);
  }

  function Tables(es: seq<Entry>): seq<Table> {
    if es == [] then [] else [TableOf(es[0])] + Tables(es[1..])
  }

  /** The entries as a file can hold them: to the second. */
  function ToSeconds(es: seq<Entry>): (r: seq<Entry>) {
    if es == [] then [] else [Entry(Whole(es[0].time), es[0].intent)] + ToSeconds(es[1..])
  }

  function TableOf(e: Entry): Table { Table(Some(TimeText(e.time)), Some(e.intent)) }

  lemma ReadFirst(es: seq<Entry>, acc: seq<Table>)
    requires es != []
    ensures ReadTables(RenderEntries(es), acc) == ReadTables(RenderEntries(es[1..]), acc + [TableOf(es[0])])
  {
    ReadEntry(es[0], RenderEntries(es[1..]), acc);
  }

  /** A reader that takes one entry at a time takes them all. */
  lemma {:induction false} OneByOne(read: (seq<Entry>, seq<Table>) -> Option<seq<Table>>, es: seq<Entry>, acc: seq<Table>)
    requires forall xs, a | xs != [] :: read(xs, a) == read(xs[1..], a + [TableOf(xs[0])])
    requires forall a :: read([], a) == Some(a)
    ensures read(es, acc) == Some(acc + Tables(es))
  {
    if es == [] {
      assert acc + [] == acc;
    } else {
      var rest, more := es[1..], acc + [TableOf(es[0])];
      OneByOne(read, rest, more);
      assert more + Tables(rest) == acc + Tables(es);
    }
  }

  lemma ReadEntries(es: seq<Entry>, acc: seq<Table>)
    ensures ReadTables(RenderEntries(es), acc) == Some(acc + Tables(es))
  {
    var read := (xs, a) => ReadTables(RenderEntries(xs), a);
    forall xs, a | xs != [] ensures read(xs, a) == read(xs[1..], a + [TableOf(xs[0])]) { ReadFirst(xs, a); }
    OneByOne(read, es, acc);
  }

  lemma {:induction false} EntriesOfTables(es: seq<Entry>)
    ensures EntriesOf(Tables(es)) == Some(ToSeconds(es))
  {
    if es != [] {
      TimeRoundTrip(es[0].time);
      EntriesOfTables(es[1..]);
      assert Tables(es)[1..] == Tables(es[1..]);
    }
  }

  /** Without control characters, as an ISO date is. */
  predicate Plain(s: string) { forall c | c in s :: !Control(c) }

  lemma {:induction false} SkipComment(s: string, rest: string)
    requires Plain(s)
    ensures SkipLine(s + "\n" + rest) == Some(rest)
  {
    if s == "" {
      assert s + "\n" + rest == "\n" + rest;
      Behind("\n", rest);
    } else {
      assert (s + "\n" + rest)[1..] == s[1..] + "\n" + rest;
      assert s[0] in s;
      forall c | c in s[1..] ensures c in s {}
      SkipComment(s[1..], rest);
    }
  }

  lemma ReadComment(today: string, body: string)
    requires Plain(today)
    ensures ReadTables("# " + today + "\n\n" + body, []) == ReadTables(body, [])
  {
    var text := "# " + today + "\n\n" + body;
    assert text[0] == '#' && text[1..] == (" " + today) + "\n" + ("\n" + body);
    assert Plain(" " + today);
    SkipComment(" " + today, "\n" + body);
    Behind("\n", body);
  }

  /** Loading a written schedule gives its entries, to the second. */
  lemma FileRoundTrip(today: string, es: seq<Entry>)
    requires Plain(today)
    ensures LoadSchedule(WriteSchedule(today, es)) == Some(ToSeconds(es))
  {
    ReadComment(today, RenderEntries(es));
    ReadEntries(es, []);
    assert [] + Tables(es) == Tables(es);
    EntriesOfTables(es);
  }

  /** It gives the same entries exactly when every time is a whole second. */
  lemma {:induction false} WholeSeconds(es: seq<Entry>)
    ensures ToSeconds(es) == es <==> forall e | e in es :: e.time % SECOND == 0
  {
    if es != [] {
      WholeSeconds(es[1..]);
      assert es == [es[0]] + es[1..];
      assert ToSeconds(es)[0] == Entry(Whole(es[0].time), es[0].intent) && ToSeconds(es)[1..] == ToSeconds(es[1..]);
    }
  }
}
