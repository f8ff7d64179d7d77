/** Cutting a markdown file into sections, one chunk each. */
module Markdown {
  import opened Wrappers
  import opened Strings

  datatype Section = Section(start: nat, end: nat, heading: string, level: nat)

  datatype Head = Head(line: nat, level: nat, title: string)

  /** What is indexed of one section. */
  datatype Chunk = Chunk(content: string, source: string, heading: string, level: nat, startLine: nat, endLine: nat)

  function Hashes(line: string): (n: nat)
    ensures n <= |line|
  {
    if line != "" && line[0] == '#' then 1 + Hashes(line[1..]) else 0
  }

  /** `^(#{1,6})\s+(.+)$`: the level and title. */
  function Heading(line: string): Option<(nat, string)> {
    var n := Hashes(line);
    if 1 <= n <= 6 && |line| >= n + 2 && Whitespace(line[n]) then Some((n, Strip(line[n..]))) else None
  }

  function StripLeft(s: string): string {
    if s != "" && Whitespace(s[0]) then StripLeft(s[1..]) else s
  }

  function StripRight(s: string): string {
    if s != "" && Whitespace(s[|s| - 1]) then StripRight(s[..|s| - 1]) else s
  }

  function Strip(s: string): string { StripRight(StripLeft(s)) }

  /** `text.split("\n")`. */
  function Lines(text: string): (r: seq<string>)
    ensures |r| > 0
  {
    if text == "" then [""]
    else if text[0] == '\n' then [""] + Lines(text[1..])
    else
      var rest := Lines(text[1..]);
      [[text[0]] + rest[0]] + rest[1..]
  }

  /** `"\n".join(lines)`. */
  function Text(lines: seq<string>): string {
    if lines == [] then "" else if |lines| == 1 then lines[0] else lines[0] + "\n" + Text(lines[1..])
  }

  lemma {:induction false} TextOfLines(text: string)
    ensures Text(Lines(text)) == text
  {
    if text != "" {
      var rest := Lines(text[1..]);
      TextOfLines(text[1..]);
      assert text == [text[0]] + text[1..];
      if text[0] == '\n' {
        assert ([""] + rest)[1..] == rest;
      } else {
        var r := [[text[0]] + rest[0]] + rest[1..];
        assert r[1..] == rest[1..];
        assert Text(r) == [text[0]] + Text(rest);
      }
    }
  }

  // ---- sections ----

  /** What a line is to the cutter. */
  datatype Mark = Plain | Heads(level: nat, title: string)

  function MarkOf(line: string): Mark {
    var h := Heading(line);
    if h.Some? then Heads(h.value.0, h.value.1) else Plain
  }

  function Marks(lines: seq<string>): seq<Mark> { seq(|lines|, i requires 0 <= i < |lines| => MarkOf(lines[i])) }

  /** Line by line: a heading opens a section, any other line joins the last. */
  function Sections(marks: seq<Mark>): (r: seq<Section>)
    ensures marks == [] <==> r == []
    ensures r != [] ==> r[|r| - 1].end == |marks|
  {
    if marks == [] then []
    else
      var n := |marks| - 1;
      var prev := Sections(marks[..n]);
      match marks[n]
      case Heads(level, title) => prev + [Section(n, n + 1, title, level)]
      case Plain =>
        if prev == [] then [Section(n, n + 1, "", 0)]
        else prev[..|prev| - 1] + [prev[|prev| - 1].(end := n + 1)]
  }

  /** The sections lie end to end over the first `n` lines; none is empty. */
  predicate Tile(secs: seq<Section>, n: nat) {
    if secs == [] then n == 0
    else
      var s := secs[|secs| - 1];
      s.end == n && s.start < n && Tile(secs[..|secs| - 1], s.start)
  }

  /** One heading, or the preamble, and the plain lines below it. */
  predicate Headed(s: Section, marks: seq<Mark>) {
    && s.start < s.end <= |marks|
    && (match marks[s.start]
        case Heads(level, title) => s.level == level && s.heading == title
        case Plain => s.start == 0 && s.heading == "" && s.level == 0)
    && (forall i | s.start < i < s.end :: marks[i].Plain?)
  }

  lemma {:induction false} SectionsTile(marks: seq<Mark>)
    ensures Tile(Sections(marks), |marks|)
    ensures forall s | s in Sections(marks) :: Headed(s, marks)
  {
    if marks != [] {
      var n := |marks| - 1;
      var prev, secs := Sections(marks[..n]), Sections(marks);
      SectionsTile(marks[..n]);
      if marks[n].Heads? {
        assert secs[..|prev|] == prev;
      } else if prev != [] {
        assert secs[..|prev| - 1] == prev[..|prev| - 1];
      }
      forall s | s in secs ensures Headed(s, marks) { SectionHeaded(marks, s); }
    }
  }

  lemma SectionHeaded(marks: seq<Mark>, s: Section)
    requires marks != [] && s in Sections(marks)
    requires var init := marks[..|marks| - 1]; forall x | x in Sections(init) :: Headed(x, init)
    ensures Headed(s, marks)
  {
    var n := |marks| - 1;
    var prev := Sections(marks[..n]);
    if s in prev {
      HeadedMore(s, marks);
    } else if prev != [] && marks[n].Plain? {
      HeadedLonger(prev[|prev| - 1], marks);
    }
  }

  lemma HeadedMore(s: Section, marks: seq<Mark>)
    requires marks != [] && Headed(s, marks[..|marks| - 1])
    ensures Headed(s, marks)
  {
  }

  lemma HeadedLonger(s: Section, marks: seq<Mark>)
    requires marks != [] && Headed(s, marks[..|marks| - 1]) && s.end == |marks| - 1 && marks[|marks| - 1].Plain?
    ensures Headed(s.(end := |marks|), marks)
  {
  }

  /** The lines of the sections, one after the other. */
  function Flatten<T>(secs: seq<Section>, lines: seq<T>, n: nat): seq<T>
    requires Tile(secs, n) && n <= |lines|
  {
    if secs == [] then []
    else
      var s := secs[|secs| - 1];
      Flatten(secs[..|secs| - 1], lines, s.start) + lines[s.start..s.end]
  }

  /** No line is lost, repeated or moved. */
  lemma {:induction false} FlattenTile<T>(secs: seq<Section>, lines: seq<T>, n: nat)
    requires Tile(secs, n) && n <= |lines|
    ensures Flatten(secs, lines, n) == lines[..n]
  {
    if secs != [] {
      var s := secs[|secs| - 1];
      FlattenTile(secs[..|secs| - 1], lines, s.start);
    }
  }

  /** The sections of a file are the file. */
  lemma SectionsLoseNothing(text: string)
    ensures var lines := Lines(text);
            Tile(Sections(Marks(lines)), |lines|) && Text(Flatten(Sections(Marks(lines)), lines, |lines|)) == text
  {
    var lines := Lines(text);
    SectionsTile(Marks(lines));
    FlattenTile(Sections(Marks(lines)), lines, |lines|);
    assert lines[..|lines|] == lines;
    TextOfLines(text);
  }

  // ---- chunks ----

  /** The chunk of a section; None: it is dropped. */
  function ChunkOf(s: Section, lines: seq<string>, source: string, meaningful: string -> bool): Option<Chunk> {
    var text := if s.start <= s.end <= |lines| then Strip(Text(lines[s.start..s.end])) else "";
    if text == "" || !meaningful(text) then None
    else Some(Chunk(text, source, s.heading, s.level, s.start + 1, s.end))
  }

  function Kept(secs: seq<Section>, lines: seq<string>, source: string, meaningful: string -> bool): (r: seq<Chunk>)
    ensures forall c | c in r :: c.source == source
  {
    if secs == [] then []
    else
      var c := ChunkOf(secs[|secs| - 1], lines, source, meaningful);
      Kept(secs[..|secs| - 1], lines, source, meaningful) + if c.Some? then [c.value] else []
  }

  function Chunks(text: string, source: string, meaningful: string -> bool): (r: seq<Chunk>)
    ensures forall c | c in r :: c.source == source
  {
    Kept(Sections(Marks(Lines(text))), Lines(text), source, meaningful)
  }

  // ---- the two passes of the original ----

  function HeadsOf(marks: seq<Mark>): (r: seq<Head>)
    ensures r != [] ==> r[|r| - 1].line < |marks|
  {
    if marks == [] then []
    else
      var n := |marks| - 1;
      HeadsOf(marks[..n]) + if marks[n].Heads? then [Head(n, marks[n].level, marks[n].title)] else []
  }

  function Opening(heads: seq<Head>, n: nat): seq<Section> {
    if heads == [] then [Section(0, n, "", 0)]
    else if heads[0].line > 0 then [Section(0, heads[0].line, "", 0)]
    else []
  }

  /** The sections between the headings, the first `k` of them. */
  function Between(heads: seq<Head>, k: nat, n: nat): (r: seq<Section>)
    requires k <= |heads|
    ensures k == |heads| ==> r != []
  {
    if k == 0 then Opening(heads, n)
    else
      var h := heads[k - 1];
      Between(heads, k - 1, n) + [Section(h.line, if k < |heads| then heads[k].line else n, h.title, h.level)]
  }

  /** Sections before the last are closed: neither the length nor another heading
      moves them. */
  lemma {:induction false} BetweenClosed(heads: seq<Head>, more: seq<Head>, k: nat, n: nat, m: nat)
    requires k < |heads|
    ensures Between(heads + more, k, m) == Between(heads, k, n)
  {
    if k > 0 { BetweenClosed(heads, more, k - 1, n, m); }
  }

  /** The two passes agree with the line-by-line reading. */
  lemma {:induction false} TwoPasses(marks: seq<Mark>)
    requires marks != []
    ensures Between(HeadsOf(marks), |HeadsOf(marks)|, |marks|) == Sections(marks)
  {
    var n := |marks| - 1;
    if n > 0 { TwoPasses(marks[..n]); }
    if marks[n].Heads? { HeadsStep(marks); } else { PlainStep(marks); }
  }

  lemma HeadsStep(marks: seq<Mark>)
    requires marks != [] && marks[|marks| - 1].Heads?
    requires var init := marks[..|marks| - 1]; init != [] ==> Between(HeadsOf(init), |HeadsOf(init)|, |init|) == Sections(init)
    ensures Between(HeadsOf(marks), |HeadsOf(marks)|, |marks|) == Sections(marks)
  {
    var n := |marks| - 1;
    MoreHeads(HeadsOf(marks[..n]), Head(n, marks[n].level, marks[n].title));
  }

  lemma PlainStep(marks: seq<Mark>)
    requires marks != [] && marks[|marks| - 1].Plain?
    requires var init := marks[..|marks| - 1]; init != [] ==> Between(HeadsOf(init), |HeadsOf(init)|, |init|) == Sections(init)
    ensures Between(HeadsOf(marks), |HeadsOf(marks)|, |marks|) == Sections(marks)
  {
    var n := |marks| - 1;
    MorePlain(HeadsOf(marks[..n]), n);
    assert HeadsOf(marks) == HeadsOf(marks[..n]);
  }

  lemma {:induction false} MorePlain(heads: seq<Head>, n: nat)
    ensures var was := Between(heads, |heads|, n);
            Between(heads, |heads|, n + 1) == was[..|was| - 1] + [was[|was| - 1].(end := n + 1)]
  {
    if heads != [] {
      BetweenClosed(heads, [], |heads| - 1, n, n + 1);
      assert heads + [] == heads;
    }
  }

  lemma {:induction false} MoreHeads(heads: seq<Head>, h: Head)
    ensures Between(heads + [h], |heads| + 1, h.line + 1)
            == (if h.line == 0 && heads == [] then [] else Between(heads, |heads|, h.line))
               + [Section(h.line, h.line + 1, h.title, h.level)]
  {
    if heads != [] { BetweenClosed(heads, [h], |heads| - 1, h.line, h.line + 1); }
  }

  method ChunkMarkdown(text: string, source: string, meaningful: string -> bool) returns (chunks: seq<Chunk>)
    ensures chunks == Chunks(text, source, meaningful)
  {
    var lines := Lines(text);
    var sections := FindSections(Marks(lines));
    chunks := [];
    for k := 0 to |sections|
      invariant chunks == Kept(sections[..k], lines, source, meaningful)
    {
      assert sections[..k + 1][..k] == sections[..k];
      var c := ChunkOf(sections[k], lines, source, meaningful);
      if c.Some? { chunks := chunks + [c.value]; }
    }
    assert sections[..|sections|] == sections;
  }

  method FindSections(marks: seq<Mark>) returns (sections: seq<Section>)
    requires marks != []
    ensures sections == Sections(marks)
  {
    var heads: seq<Head> := [];
    for i := 0 to |marks|
      invariant heads == HeadsOf(marks[..i])
    {
      assert marks[..i + 1][..i] == marks[..i];
      if marks[i].Heads? { heads := heads + [Head(i, marks[i].level, marks[i].title)]; }
    }
    assert marks[..|marks|] == marks;
    sections := [];
    if heads == [] || heads[0].line > 0 {
      sections := [Section(0, if heads == [] then |marks| else heads[0].line, "", 0)];
    }
    for idx := 0 to |heads|
      invariant sections == Between(heads, idx, |marks|)
    {
      var next := if idx + 1 < |heads| then heads[idx + 1].line else |marks|;
      sections := sections + [Section(heads[idx].line, next, heads[idx].title, heads[idx].level)];
    }
    TwoPasses(marks);
  }

  /** A chunk is one section of the file, with where it stands: the title and level of
      the heading it starts with, or none in the preamble. */
  lemma ChunkSays(text: string, source: string, meaningful: string -> bool, c: Chunk)
    requires c in Chunks(text, source, meaningful)
    ensures var lines := Lines(text);
            && 1 <= c.startLine <= c.endLine <= |lines|
            && c.content == Strip(Text(lines[c.startLine - 1..c.endLine])) != "" && meaningful(c.content)
            && (match Heading(lines[c.startLine - 1])
                case Some(h) => c.level == h.0 && c.heading == h.1
                case None => c.startLine == 1 && c.heading == "" && c.level == 0)
            && (forall i | c.startLine <= i < c.endLine :: Heading(lines[i]).None?)
  {
    var lines := Lines(text);
    var secs := Sections(Marks(lines));
    SectionsTile(Marks(lines));
    KeptFrom(secs, lines, source, meaningful, c);
    var s :| s in secs && ChunkOf(s, lines, source, meaningful) == Some(c);
    SectionSays(s, lines, source, meaningful, c);
  }

  lemma SectionSays(s: Section, lines: seq<string>, source: string, meaningful: string -> bool, c: Chunk)
    requires Headed(s, Marks(lines)) && ChunkOf(s, lines, source, meaningful) == Some(c)
    ensures 1 <= c.startLine <= c.endLine <= |lines|
    ensures c.content == Strip(Text(lines[c.startLine - 1..c.endLine])) != "" && meaningful(c.content)
    ensures match Heading(lines[c.startLine - 1])
            case Some(h) => c.level == h.0 && c.heading == h.1
            case None => c.startLine == 1 && c.heading == "" && c.level == 0
    ensures forall i | c.startLine <= i < c.endLine :: Heading(lines[i]).None?
  {
    assert Marks(lines)[s.start] == MarkOf(lines[s.start]);
    forall i | c.startLine <= i < c.endLine ensures Heading(lines[i]).None? { assert Marks(lines)[i] == MarkOf(lines[i]); }
  }

  lemma {:induction false} KeptFrom(secs: seq<Section>, lines: seq<string>, source: string, meaningful: string -> bool, c: Chunk)
    requires c in Kept(secs, lines, source, meaningful)
    ensures exists s :: s in secs && ChunkOf(s, lines, source, meaningful) == Some(c)
  {
    var last := secs[|secs| - 1];
    if ChunkOf(last, lines, source, meaningful) != Some(c) {
      KeptFrom(secs[..|secs| - 1], lines, source, meaningful, c);
      var s :| s in secs[..|secs| - 1] && ChunkOf(s, lines, source, meaningful) == Some(c);
      assert s in secs;
    }
  }
}
