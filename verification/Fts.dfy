/** The lexical index over the memory files: one file at a time, or all of them. */
module Fts {
  import opened Wrappers
  import opened Markdown

  /** The files; None: the text cannot be read. */
  type Disk = map<string, Option<string>>

  type Lesson = string -> bool

  /** The files a root directory's `rglob("*.md")` finds. */
  type Root = string -> bool

  /** How many of the roots find the file. */
  function Times(roots: seq<Root>, path: string): nat {
    if roots == [] then 0
    else Times(roots[..|roots| - 1], path) + if roots[|roots| - 1](path) then 1 else 0
  }

  function FileChunks(disk: Disk, path: string, meaningful: Lesson): (r: seq<Chunk>)
    ensures forall c | c in r :: c.source == path
  {
    if path in disk && disk[path].Some? then Chunks(disk[path].value, path, meaningful) else []
  }

  function Count(rows: seq<Chunk>, c: Chunk): nat { multiset(rows)[c] }

  /** The rows are those a full reindex leaves: each chunk once for every root that
      finds its file. */
  ghost predicate Indexed(rows: seq<Chunk>, disk: Disk, roots: seq<Root>, meaningful: Lesson) {
    forall c :: Right(rows, disk, roots, meaningful, c)
  }

  predicate Right(rows: seq<Chunk>, disk: Disk, roots: seq<Root>, meaningful: Lesson, c: Chunk) {
    Count(rows, c) == Copies(Times(roots, c.source), Count(FileChunks(disk, c.source, meaningful), c))
  }

  /** The rows of every other file. */
  function Others(rows: seq<Chunk>, path: string): seq<Chunk> {
    if rows == [] then []
    else Others(rows[..|rows| - 1], path) + if rows[|rows| - 1].source == path then [] else [rows[|rows| - 1]]
  }

  lemma {:induction false} OthersCount(rows: seq<Chunk>, path: string, c: Chunk)
    ensures Count(Others(rows, path), c) == if c.source == path then 0 else Count(rows, c)
  {
    if rows != [] {
      var init, last := rows[..|rows| - 1], rows[|rows| - 1];
      assert rows == init + [last];
      OthersCount(init, path, c);
      CountOne(init, last, c);
      if last.source == path {
        assert Others(rows, path) == Others(init, path);
      } else {
        CountOne(Others(init, path), last, c);
      }
    }
  }

  lemma CountOne(rows: seq<Chunk>, last: Chunk, c: Chunk)
    ensures Count(rows + [last], c) == Count(rows, c) + if last == c then 1 else 0
  {
  }

  /** Chunks of a file count only under its name. */
  lemma CountAppend(a: seq<Chunk>, b: seq<Chunk>, c: Chunk)
    ensures Count(a + b, c) == Count(a, c) + Count(b, c)
  {
  }

  lemma NotItsChunk(disk: Disk, path: string, meaningful: Lesson, c: Chunk)
    requires c.source != path
    ensures Count(FileChunks(disk, path, meaningful), c) == 0
  {
  }

  // ---- one file at a time ----

  function IndexOne(rows: seq<Chunk>, disk: Disk, path: string, meaningful: Lesson): seq<Chunk> {
    Others(rows, path) + FileChunks(disk, path, meaningful)
  }

  lemma IndexOneCount(rows: seq<Chunk>, disk: Disk, path: string, meaningful: Lesson, c: Chunk)
    ensures Count(IndexOne(rows, disk, path, meaningful), c)
            == if c.source == path then Count(FileChunks(disk, path, meaningful), c) else Count(rows, c)
  {
    OthersCount(rows, path, c);
    CountAppend(Others(rows, path), FileChunks(disk, path, meaningful), c);
    if c.source != path { NotItsChunk(disk, path, meaningful, c); }
  }

  /** `after` differs from `before` only at `path`. */
  ghost predicate Edited(before: Disk, after: Disk, path: string) {
    forall p | p != path :: (p in after <==> p in before) && (p in after ==> after[p] == before[p])
  }

  /** Indexing the file just written leaves the index of a full reindex exactly when
      one root finds the file, or it has nothing to index. */
  lemma IncrementalExact(rows: seq<Chunk>, before: Disk, after: Disk, path: string, roots: seq<Root>, meaningful: Lesson)
    requires Indexed(rows, before, roots, meaningful) && Edited(before, after, path)
    ensures Indexed(IndexOne(rows, after, path, meaningful), after, roots, meaningful) <==>
            Times(roots, path) == 1 || FileChunks(after, path, meaningful) == []
  {
    var own := FileChunks(after, path, meaningful);
    if Times(roots, path) == 1 || own == [] {
      EditKeeps(rows, before, after, path, roots, meaningful);
    } else {
      var c := own[0];
      assert c in own;
      OneEdit(rows, before, after, path, roots, meaningful, c);
      CopiesOf(Times(roots, path), Count(own, c));
    }
  }

  lemma EditKeeps(rows: seq<Chunk>, before: Disk, after: Disk, path: string, roots: seq<Root>, meaningful: Lesson)
    requires Indexed(rows, before, roots, meaningful) && Edited(before, after, path)
    requires Times(roots, path) == 1 || FileChunks(after, path, meaningful) == []
    ensures Indexed(IndexOne(rows, after, path, meaningful), after, roots, meaningful)
  {
    forall c ensures Right(IndexOne(rows, after, path, meaningful), after, roots, meaningful, c) {
      assert Right(rows, before, roots, meaningful, c);
      OneEdit(rows, before, after, path, roots, meaningful, c);
      CopiesOf(Times(roots, path), Count(FileChunks(after, path, meaningful), c));
    }
  }

  lemma OneEdit(rows: seq<Chunk>, before: Disk, after: Disk, path: string, roots: seq<Root>, meaningful: Lesson, c: Chunk)
    requires Right(rows, before, roots, meaningful, c) && Edited(before, after, path)
    ensures var n := Count(FileChunks(after, path, meaningful), c);
            Right(IndexOne(rows, after, path, meaningful), after, roots, meaningful, c) <==>
            c.source == path ==> n == Copies(Times(roots, path), n)
  {
    IndexOneCount(rows, after, path, meaningful, c);
    if c.source != path {
      assert FileChunks(after, c.source, meaningful) == FileChunks(before, c.source, meaningful);
    }
  }

  /** `t` times `n`. */
  function Copies(t: nat, n: nat): nat { if t == 0 then 0 else Copies(t - 1, n) + n }

  lemma {:induction false} CopiesOf(t: nat, n: nat)
    ensures n == 0 ==> Copies(t, n) == 0
    ensures t > 0 ==> Copies(t, n) >= n
    ensures Copies(t, n) == n <==> t == 1 || n == 0
  {
    if t > 0 { CopiesOf(t - 1, n); }
  }

  /** A write (Some) or a deletion (None) followed by `index_file`. */
  datatype Edit = Edit(path: string, text: Option<Option<string>>)

  function Edits(disk: Disk, edits: seq<Edit>): Disk {
    if edits == [] then disk
    else
      var d, e := Edits(disk, edits[..|edits| - 1]), edits[|edits| - 1];
      if e.text.Some? then d[e.path := e.text.value] else d - {e.path}
  }

  function RowsAfter(rows: seq<Chunk>, disk: Disk, edits: seq<Edit>, meaningful: Lesson): seq<Chunk> {
    if edits == [] then rows
    else IndexOne(RowsAfter(rows, disk, edits[..|edits| - 1], meaningful), Edits(disk, edits), edits[|edits| - 1].path, meaningful)
  }

  /** Any run of writes and deletions, each indexed: the index is the rebuilt one. */
  lemma {:induction false} EditsIndexed(rows: seq<Chunk>, disk: Disk, edits: seq<Edit>, roots: seq<Root>, meaningful: Lesson)
    requires Indexed(rows, disk, roots, meaningful)
    requires forall e | e in edits :: Times(roots, e.path) == 1
    ensures Indexed(RowsAfter(rows, disk, edits, meaningful), Edits(disk, edits), roots, meaningful)
  {
    if edits != [] {
      var init, e := edits[..|edits| - 1], edits[|edits| - 1];
      EditsIndexed(rows, disk, init, roots, meaningful);
      assert e in edits;
      IncrementalExact(RowsAfter(rows, disk, init, meaningful), Edits(disk, init), Edits(disk, edits), e.path, roots, meaningful);
    }
  }

  /** Roots that do not overlap find a file at most once. */
  lemma {:induction false} DisjointRoots(roots: seq<Root>, path: string)
    requires forall i, j | 0 <= i < j < |roots| :: !(roots[i](path) && roots[j](path))
    ensures Times(roots, path) == if exists i :: 0 <= i < |roots| && roots[i](path) then 1 else 0
  {
    if roots != [] { DisjointRoots(roots[..|roots| - 1], path); }
  }

  ghost predicate Apart(roots: seq<Root>) {
    forall path: string, i, j | 0 <= i < j < |roots| && roots[i](path) :: !roots[j](path)
  }

  predicate Found(roots: seq<Root>, path: string) { exists i :: 0 <= i < |roots| && roots[i](path) }

  /** With roots that do not overlap: any run of writes and deletions of files that
      some root finds. */
  lemma DisjointEdits(rows: seq<Chunk>, disk: Disk, edits: seq<Edit>, roots: seq<Root>, meaningful: Lesson)
    requires Indexed(rows, disk, roots, meaningful) && Apart(roots)
    requires forall e | e in edits :: Found(roots, e.path)
    ensures Indexed(RowsAfter(rows, disk, edits, meaningful), Edits(disk, edits), roots, meaningful)
  {
    forall e | e in edits ensures Times(roots, e.path) == 1 {
      assert Found(roots, e.path);
      DisjointRoots(roots, e.path);
    }
    EditsIndexed(rows, disk, edits, roots, meaningful);
  }

  // ---- the store ----

  class FtsMemory {
    const roots: seq<Root>
    const meaningful: Lesson
    var rows: seq<Chunk>

    constructor (roots: seq<Root>, meaningful: Lesson)
      ensures this.roots == roots && this.meaningful == meaningful && rows == []
    {
      this.roots, this.meaningful, rows := roots, meaningful, [];
    }

    method IndexFile(disk: Disk, path: string)
      modifies this
      ensures rows == IndexOne(old(rows), disk, path, meaningful)
    {
      rows := Others(rows, path);
      InsertFile(disk, path);
      if path !in disk || disk[path].None? { assert rows == IndexOne(old(rows), disk, path, meaningful); }
    }

    method InsertFile(disk: Disk, path: string)
      modifies this
      ensures rows == old(rows) + FileChunks(disk, path, meaningful)
    {
      if path in disk && disk[path].Some? {
        var chunks := ChunkMarkdown(disk[path].value, path, meaningful);
        rows := rows + chunks;
      }
    }

    /** `found[i]`: what root `i` finds, in any order. */
    method ReindexAll(disk: Disk, found: seq<seq<string>>)
      requires |found| == |roots|
      requires forall i | 0 <= i < |roots| :: Finds(found[i], roots[i], disk)
      modifies this
      ensures Indexed(rows, disk, roots, meaningful)
    {
      rows := [];
      for i := 0 to |roots|
        invariant Indexed(rows, disk, roots[..i], meaningful)
      {
        ghost var before := rows;
        InsertRoot(disk, found[i]);
        assert roots[..i + 1] == roots[..i] + [roots[i]];
        ghost var upto := roots[..i + 1];
        forall c ensures Right(rows, disk, upto, meaningful, c) {
          assert Right(before, disk, roots[..i], meaningful, c) && Gained(before, rows, disk, found[i], meaningful, c);
          RootCount(before, rows, disk, found[i], roots[..i], roots[i], meaningful, c);
        }
      }
      assert roots[..|roots|] == roots;
    }

    method InsertRoot(disk: Disk, files: seq<string>)
      modifies this
      ensures forall c :: Gained(old(rows), rows, disk, files, meaningful, c)
    {
      for j := 0 to |files|
        invariant forall c :: Gained(old(rows), rows, disk, files[..j], meaningful, c)
      {
        ghost var before, was := old(rows), rows;
        InsertFile(disk, files[j]);
        assert files[..j + 1] == files[..j] + [files[j]];
        ghost var upto, now := files[..j + 1], rows;
        forall c ensures Gained(before, now, disk, upto, meaningful, c) {
          assert Gained(old(rows), was, disk, files[..j], meaningful, c);
          OneMore(old(rows), was, disk, files[..j], files[j], meaningful, c);
        }
      }
      assert files[..|files|] == files;
    }
  }

  function Listed(files: seq<string>, path: string): nat { multiset(files)[path] }

  /** `files` lists what the root finds, each once. */
  ghost predicate Finds(files: seq<string>, root: Root, disk: Disk) {
    forall p :: Listed(files, p) == if p in disk && root(p) then 1 else 0
  }

  /** The chunk came once for every listing of its file. */
  predicate Gained(before: seq<Chunk>, rows: seq<Chunk>, disk: Disk, files: seq<string>, meaningful: Lesson, c: Chunk) {
    Count(rows, c) == Count(before, c) + Copies(Listed(files, c.source), Count(FileChunks(disk, c.source, meaningful), c))
  }

  lemma OneMore(before: seq<Chunk>, rows: seq<Chunk>, disk: Disk, files: seq<string>, file: string, meaningful: Lesson, c: Chunk)
    requires Gained(before, rows, disk, files, meaningful, c)
    ensures Gained(before, rows + FileChunks(disk, file, meaningful), disk, files + [file], meaningful, c)
  {
    var own := FileChunks(disk, file, meaningful);
    CountAppend(rows, own, c);
    ListedMore(files, file, c.source);
    if c.source == file { CopiesMore(Listed(files, file), Count(own, c)); } else { NotItsChunk(disk, file, meaningful, c); }
    OneMoreCount(Count(before, c), Count(rows, c), Count(rows + own, c), Listed(files, c.source),
                 Listed(files + [file], c.source), Count(FileChunks(disk, c.source, meaningful), c), c.source == file);
  }

  lemma OneMoreCount(before: nat, had: nat, now: nat, listed: nat, listed2: nat, n: nat, same: bool)
    requires had == before + Copies(listed, n)
    requires if same then now == had + n && listed2 == listed + 1 else now == had && listed2 == listed
    ensures now == before + Copies(listed2, n)
  {
    if same { CopiesMore(listed, n); }
  }

  lemma ListedMore(files: seq<string>, file: string, path: string)
    ensures Listed(files + [file], path) == Listed(files, path) + if file == path then 1 else 0
  {
  }

  lemma CopiesMore(t: nat, n: nat)
    ensures Copies(t + 1, n) == Copies(t, n) + n
  {
  }

  lemma RootCount(before: seq<Chunk>, rows: seq<Chunk>, disk: Disk, files: seq<string>, roots: seq<Root>, root: Root,
                  meaningful: Lesson, c: Chunk)
    requires Finds(files, root, disk) && Gained(before, rows, disk, files, meaningful, c)
    requires Right(before, disk, roots, meaningful, c)
    ensures Right(rows, disk, roots + [root], meaningful, c)
  {
    TimesMore(roots, root, c.source);
    OneRoot(Times(roots, c.source), root(c.source), Listed(files, c.source), Count(FileChunks(disk, c.source, meaningful), c));
  }

  lemma TimesMore(roots: seq<Root>, root: Root, path: string)
    ensures Times(roots + [root], path) == Times(roots, path) + if root(path) then 1 else 0
  {
    assert (roots + [root])[..|roots|] == roots;
  }

  /** A file found and listed once counts once more; what has no chunk never counts. */
  lemma OneRoot(t: nat, found: bool, listed: nat, n: nat)
    requires n > 0 ==> listed == if found then 1 else 0
    ensures Copies(t, n) + Copies(listed, n) == Copies(t + if found then 1 else 0, n)
  {
    if n == 0 {
      CopiesOf(t, n);
      CopiesOf(listed, n);
      CopiesOf(t + if found then 1 else 0, n);
    } else {
      assert Copies(0, n) == 0 && Copies(1, n) == Copies(0, n) + n;
    }
  }
}
