/** TOML basic strings: the escaping the schedule is written with, and the reading
    of them by "String" of TOML v1.0.0. */
module Toml {
  import opened Wrappers
  import opened Like

  predicate Control(c: char) { c < ' ' || c == '\U{7f}' }

  function HexDigit(n: nat): char
    requires n < 16
  {
    if n < 10 then ('0' as int + n) as char else ('a' as int + n - 10) as char
  }

  function HexValue(c: char): Option<nat> {
    if '0' <= c <= '9' then Some(c as int - '0' as int)
    else if 'a' <= c <= 'f' then Some(c as int - 'a' as int + 10)
    else if 'A' <= c <= 'F' then Some(c as int - 'A' as int + 10)
    else None
  }

  /** `\uXXXX` of a control character. */
  function ControlEscape(c: char): string
    requires Control(c)
  {
    ['\\', 'u', '0', '0', HexDigit(c as int / 16), HexDigit(c as int % 16)]
  }

  /** `_CONTROL_RE.sub`. */
  function Controls(s: string): string {
    if s == "" then "" else (if Control(s[0]) then ControlEscape(s[0]) else [s[0]]) + Controls(s[1..])
  }

  /** What `write_schedule` does to an intent. */
  function Escape(s: string): string {
    Controls(Replace(Replace(Replace(Replace(Replace(s, '\\', "\\\\"), '\"', "\\\""), '\n', "\\n"), '\r', "\\r"), '\t', "\\t"))
  }

  /** Each character on its own. */
  function EscapeOf(c: char): string {
    if c == '\\' then "\\\\"
    else if c == '\"' then "\\\""
    else if c == '\n' then "\\n"
    else if c == '\r' then "\\r"
    else if c == '\t' then "\\t"
    else if Control(c) then ControlEscape(c)
    else [c]
  }

  lemma {:induction false} ControlsAppend(a: string, b: string)
    ensures Controls(a + b) == Controls(a) + Controls(b)
  {
    if a == "" {
      assert a + b == b;
    } else {
      assert (a + b)[1..] == a[1..] + b;
      ControlsAppend(a[1..], b);
    }
  }

  /** The passes that come after leave an escape alone. */
  lemma ReplaceAbsent(x: char, y: char, c: char, put: string)
    requires x != c && y != c
    ensures Replace([x, y], c, put) == [x, y]
  {
    ReplaceTwo(x, y, c, put);
  }

  lemma ControlsPlain(x: char, y: char)
    requires !Control(x) && !Control(y)
    ensures Controls([x, y]) == [x, y] && Controls([x]) == [x]
  {
    assert [y][1..] == "" && [x][1..] == "";
    assert Controls([y]) == [y] && Controls([x]) == [x];
    ControlsAppend([x], [y]);
    assert [x, y] == [x] + [y];
  }

  lemma EscapeOne(c: char)
    ensures Escape([c]) == EscapeOf(c)
  {
    ReplaceOne(c, '\\', "\\\\");
    if c == '\\' {
      ReplaceAbsent('\\', '\\', '\"', "\\\"");
      ReplaceAbsent('\\', '\\', '\n', "\\n");
      ReplaceAbsent('\\', '\\', '\r', "\\r");
      ReplaceAbsent('\\', '\\', '\t', "\\t");
      ControlsPlain('\\', '\\');
    } else {
      EscapeQuote(c);
    }
  }

  lemma EscapeQuote(c: char)
    requires c != '\\'
    ensures Controls(Replace(Replace(Replace(Replace([c], '\"', "\\\""), '\n', "\\n"), '\r', "\\r"), '\t', "\\t")) == EscapeOf(c)
  {
    ReplaceOne(c, '\"', "\\\"");
    ReplaceOne(c, '\n', "\\n");
    ReplaceOne(c, '\r', "\\r");
    ReplaceOne(c, '\t', "\\t");
    if c == '\"' {
      ReplaceAbsent('\\', '\"', '\n', "\\n");
      ReplaceAbsent('\\', '\"', '\r', "\\r");
      ReplaceAbsent('\\', '\"', '\t', "\\t");
      ControlsPlain('\\', '\"');
    } else if c == '\n' {
      ReplaceAbsent('\\', 'n', '\r', "\\r");
      ReplaceAbsent('\\', 'n', '\t', "\\t");
      ControlsPlain('\\', 'n');
    } else if c == '\r' {
      ReplaceAbsent('\\', 'r', '\t', "\\t");
      ControlsPlain('\\', 'r');
    } else if c == '\t' {
      ControlsPlain('\\', 't');
    } else {
      assert [c][1..] == "";
    }
  }

  lemma EscapeCons(c: char, rest: string)
    ensures Escape([c] + rest) == EscapeOf(c) + Escape(rest)
  {
    EscapeOne(c);
    ReplaceAppend([c], rest, '\\', "\\\\");
    var a1, b1 := Replace([c], '\\', "\\\\"), Replace(rest, '\\', "\\\\");
    ReplaceAppend(a1, b1, '\"', "\\\"");
    var a2, b2 := Replace(a1, '\"', "\\\""), Replace(b1, '\"', "\\\"");
    ReplaceAppend(a2, b2, '\n', "\\n");
    var a3, b3 := Replace(a2, '\n', "\\n"), Replace(b2, '\n', "\\n");
    ReplaceAppend(a3, b3, '\r', "\\r");
    var a4, b4 := Replace(a3, '\r', "\\r"), Replace(b3, '\r', "\\r");
    ReplaceAppend(a4, b4, '\t', "\\t");
    ControlsAppend(Replace(a4, '\t', "\\t"), Replace(b4, '\t', "\\t"));
  }

  // ---- reading ----

  function Hex(s: string): Option<nat> {
    if s == "" then Some(0)
    else
      var high, low := Hex(s[..|s| - 1]), HexValue(s[|s| - 1]);
      if high.None? || low.None? then None else Some(high.value * 16 + low.value)
  }

  /** A Unicode scalar value. */
  function Scalar(n: Option<nat>): Option<char> {
    if n.Some? && (n.value < 0xD800 || 0xE000 <= n.value < 0x11_0000) then Some(n.value as char) else None
  }

  /** The escape behind a backslash: its character, and how many characters it took. */
  function Unescape(s: string): Option<(char, nat)> {
    if s == "" then None
    else if s[0] == 'b' then Some(('\U{8}', 1))
    else if s[0] == 't' then Some(('\t', 1))
    else if s[0] == 'n' then Some(('\n', 1))
    else if s[0] == 'f' then Some(('\U{c}', 1))
    else if s[0] == 'r' then Some(('\r', 1))
    else if s[0] == '\"' then Some(('\"', 1))
    else if s[0] == '\\' then Some(('\\', 1))
    else if s[0] == 'u' && |s| >= 5 && Scalar(Hex(s[1..5])).Some? then Some((Scalar(Hex(s[1..5])).value, 5))
    else if s[0] == 'U' && |s| >= 9 && Scalar(Hex(s[1..9])).Some? then Some((Scalar(Hex(s[1..9])).value, 9))
    else None
  }

  /** A basic string, from behind its opening quote: the value, and what follows the
      closing quote. */
  function ReadString(s: string): (r: Option<(string, string)>)
    ensures r.Some? ==> |r.value.1| < |s|
    decreases |s|
  {
    if s == "" then None
    else if s[0] == '\"' then Some(("", s[1..]))
    else if s[0] == '\\' then
      var e := Unescape(s[1..]);
      if e.None? || e.value.1 + 1 > |s| then None
      else
        var r := ReadString(s[e.value.1 + 1..]);
        if r.None? then None else Some(([e.value.0] + r.value.0, r.value.1))
    else if Control(s[0]) && s[0] != '\t' then None
    else
      var r := ReadString(s[1..]);
      if r.None? then None else Some(([s[0]] + r.value.0, r.value.1))
  }

  lemma HexFour(n: nat)
    requires n < 0x80
    ensures Hex(['0', '0', HexDigit(n / 16), HexDigit(n % 16)]) == Some(n)
  {
    var s := ['0', '0', HexDigit(n / 16), HexDigit(n % 16)];
    assert s[..3] == ['0', '0', HexDigit(n / 16)];
    assert s[..3][..2] == ['0', '0'];
    assert s[..2] == ['0', '0'] && ['0', '0'][..1] == ['0'] && ['0'][..0] == [];
    assert Hex(['0']) == Some(0) && Hex(['0', '0']) == Some(0);
    assert Hex(s[..3]) == Some(n / 16);
  }

  /** One escaped character reads back as itself. */
  lemma ReadOne(c: char, rest: string)
    ensures var r := ReadString(rest);
            ReadString(EscapeOf(c) + rest) == if r.None? then None else Some(([c] + r.value.0, r.value.1))
  {
    var e := EscapeOf(c);
    var s := e + rest;
    if c == '\\' || c == '\"' || c == '\n' || c == '\r' || c == '\t' {
      assert s[0] == '\\' && s[1..][0] == e[1] && s[2..] == rest;
      assert Unescape(s[1..]) == Some((c, 1));
    } else if Control(c) {
      HexFour(c as int);
      assert e[2..6] == ['0', '0', HexDigit(c as int / 16), HexDigit(c as int % 16)];
      assert s[1..][1..5] == e[2..6];
      assert s[1..][1..5] == ['0', '0', HexDigit(c as int / 16), HexDigit(c as int % 16)];
      assert s[1..][0] == 'u' && s[6..] == rest;
      assert Unescape(s[1..]) == Some((c, 5));
    } else {
      assert s[0] == c && s[1..] == rest;
    }
  }

  lemma ReadFirst(s: string, rest: string)
    requires s != ""
    ensures var r := ReadString(Escape(s[1..]) + "\"" + rest);
            ReadString(Escape(s) + "\"" + rest) == if r.None? then None else Some(([s[0]] + r.value.0, r.value.1))
  {
    var tail := Escape(s[1..]) + "\"" + rest;
    assert s == [s[0]] + s[1..];
    EscapeCons(s[0], s[1..]);
    assert Escape(s) + "\"" + rest == EscapeOf(s[0]) + tail;
    ReadOne(s[0], tail);
  }

  /** Whatever the text holds, reading the written string gives it back. */
  lemma {:induction false} StringRoundTrip(s: string, rest: string)
    ensures ReadString(Escape(s) + "\"" + rest) == Some((s, rest))
  {
    if s == "" {
      assert Escape(s) + "\"" + rest == "\"" + rest;
      assert ("\"" + rest)[1..] == rest;
    } else {
      ReadFirst(s, rest);
      StringRoundTrip(s[1..], rest);
      assert s == [s[0]] + s[1..];
    }
  }
}
