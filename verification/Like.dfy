/** SQL `LIKE` with an escape character, and the path scopes built from it. */
module Like {
  const ESC := '\\'

  function Fold(c: char): char {
    if 'A' <= c <= 'Z' then (c as int + 32) as char else c
  }

  predicate SameFolded(a: string, b: string) {
    |a| == |b| && forall i | 0 <= i < |a| :: Fold(a[i]) == Fold(b[i])
  }

  /** `s LIKE p ESCAPE '\'`: `%` any text, `_` any one character, an escaped
      character itself; ASCII case is folded. */
  predicate Matches(p: string, s: string)
    decreases |p|, |s|
  {
    if p == "" then s == ""
    else if p[0] == ESC then |p| > 1 && s != "" && Fold(p[1]) == Fold(s[0]) && Matches(p[2..], s[1..])
    else if p[0] == '%' then Matches(p[1..], s) || (s != "" && Matches(p, s[1..]))
    else s != "" && (p[0] == '_' || Fold(p[0]) == Fold(s[0])) && Matches(p[1..], s[1..])
  }

  /** `str.replace` of one character. */
  function Replace(s: string, c: char, put: string): string {
    if s == "" then "" else (if s[0] == c then put else [s[0]]) + Replace(s[1..], c, put)
  }

  /** `_like_prefix`. */
  function Escaped(prefix: string): string {
    Replace(Replace(Replace(prefix, '\\', "\\\\"), '%', "\\%"), '_', "\\_")
  }

  predicate Wild(c: char) { c == '\\' || c == '%' || c == '_' }

  function EscapedChar(c: char): string { if Wild(c) then [ESC, c] else [c] }

  lemma {:induction false} ReplaceAppend(a: string, b: string, c: char, put: string)
    ensures Replace(a + b, c, put) == Replace(a, c, put) + Replace(b, c, put)
  {
    if a == "" {
      assert a + b == b;
    } else {
      assert (a + b)[1..] == a[1..] + b;
      ReplaceAppend(a[1..], b, c, put);
    }
  }

  lemma ReplaceOne(x: char, c: char, put: string)
    ensures Replace([x], c, put) == if x == c then put else [x]
  {
    assert [x][1..] == "";
  }

  lemma ReplaceTwo(x: char, y: char, c: char, put: string)
    ensures Replace([x, y], c, put) == (if x == c then put else [x]) + (if y == c then put else [y])
  {
    assert [x, y] == [x] + [y];
    ReplaceAppend([x], [y], c, put);
    ReplaceOne(x, c, put);
    ReplaceOne(y, c, put);
  }

  lemma EscapedFirst(c: char)
    ensures Escaped([c]) == EscapedChar(c)
  {
    ReplaceOne(c, '\\', "\\\\");
    if c == '\\' {
      ReplaceTwo('\\', '\\', '%', "\\%");
      ReplaceTwo('\\', '\\', '_', "\\_");
    } else {
      ReplaceOne(c, '%', "\\%");
      if c == '%' { ReplaceTwo('\\', '%', '_', "\\_"); } else { ReplaceOne(c, '_', "\\_"); }
    }
  }

  lemma EscapedCons(c: char, rest: string)
    ensures Escaped([c] + rest) == EscapedChar(c) + Escaped(rest)
  {
    EscapedFirst(c);
    ReplaceAppend([c], rest, '\\', "\\\\");
    var a, b := Replace([c], '\\', "\\\\"), Replace(rest, '\\', "\\\\");
    ReplaceAppend(a, b, '%', "\\%");
    ReplaceAppend(Replace(a, '%', "\\%"), Replace(b, '%', "\\%"), '_', "\\_");
  }

  lemma {:induction false} PercentTakesAll(s: string)
    ensures Matches("%", s)
  {
    assert "%"[1..] == "";
    if s != "" { PercentTakesAll(s[1..]); }
  }

  /** An escaped character matches just itself, up to case. */
  lemma MatchesChar(c: char, p: string, s: string)
    ensures Matches(EscapedChar(c) + p, s) <==> s != "" && Fold(c) == Fold(s[0]) && Matches(p, s[1..])
  {
    var q := EscapedChar(c) + p;
    if Wild(c) {
      assert q[0] == ESC && q[1] == c && q[2..] == p;
    } else {
      assert q[0] == c && q[1..] == p;
    }
  }

  /** Whatever the path holds, the scope's pattern is passed exactly by the sources
      that start with it, up to ASCII case. */
  lemma {:induction false} LikePrefix(prefix: string, s: string)
    ensures Matches(Escaped(prefix) + "%", s) <==> |prefix| <= |s| && SameFolded(prefix, s[..|prefix|])
  {
    if prefix == "" {
      assert Escaped(prefix) + "%" == "%";
      PercentTakesAll(s);
    } else {
      var c, rest := prefix[0], prefix[1..];
      assert prefix == [c] + rest;
      EscapedCons(c, rest);
      assert Escaped(prefix) + "%" == EscapedChar(c) + (Escaped(rest) + "%");
      MatchesChar(c, Escaped(rest) + "%", s);
      if s != "" {
        LikePrefix(rest, s[1..]);
        if |prefix| <= |s| {
          assert s[..|prefix|] == [s[0]] + s[1..][..|rest|];
        }
      }
    }
  }

  predicate EndsWithSlash(s: string) { s != "" && s[|s| - 1] == '/' }

  /** A trailing separator of the caller asks for a directory; resolving drops it. */
  function ScopePrefix(raw: string, resolved: string): string {
    if EndsWithSlash(raw) && !EndsWithSlash(resolved) then resolved + "/" else resolved
  }

  /** The WHERE clauses of a search. */
  predicate InScope(source: string, scope: seq<(string, string)>, excluded: seq<string>) {
    && (forall i | 0 <= i < |scope| :: Matches(Escaped(ScopePrefix(scope[i].0, scope[i].1)) + "%", source))
    && (forall i | 0 <= i < |excluded| :: !Matches(Escaped(excluded[i]) + "/%", source))
  }

  predicate StartsFolded(source: string, prefix: string) {
    |prefix| <= |source| && SameFolded(prefix, source[..|prefix|])
  }

  lemma EscapedSlash(dir: string)
    ensures Escaped(dir + "/") == Escaped(dir) + "/"
    decreases |dir|
  {
    EscapedFirst('/');
    if dir == "" {
      assert dir + "/" == ['/'];
      assert Escaped(dir) + "/" == "/";
    } else {
      assert dir == [dir[0]] + dir[1..];
      EscapedCons(dir[0], dir[1..]);
      EscapedCons(dir[0], dir[1..] + "/");
      assert dir + "/" == [dir[0]] + (dir[1..] + "/");
      EscapedSlash(dir[1..]);
    }
  }

  /** A row is in scope exactly when its source starts with the scope and lies in
      none of the excluded directories; a sibling directory whose name merely begins
      alike is neither included nor excluded. */
  lemma ScopeExact(source: string, scope: seq<(string, string)>, excluded: seq<string>)
    ensures InScope(source, scope, excluded) <==>
      && (forall i | 0 <= i < |scope| :: StartsFolded(source, ScopePrefix(scope[i].0, scope[i].1)))
      && (forall i | 0 <= i < |excluded| :: !StartsFolded(source, excluded[i] + "/"))
  {
    forall i | 0 <= i < |scope|
      ensures Matches(Escaped(ScopePrefix(scope[i].0, scope[i].1)) + "%", source)
              <==> StartsFolded(source, ScopePrefix(scope[i].0, scope[i].1))
    {
      LikePrefix(ScopePrefix(scope[i].0, scope[i].1), source);
    }
    forall i | 0 <= i < |excluded|
      ensures Matches(Escaped(excluded[i]) + "/%", source) <==> StartsFolded(source, excluded[i] + "/")
    {
      EscapedSlash(excluded[i]);
      LikePrefix(excluded[i] + "/", source);
      assert Escaped(excluded[i]) + "/%" == Escaped(excluded[i] + "/") + "%";
    }
  }

  /** Asked for with a trailing separator, a scope is that directory: a source that
      only begins with its name is out of it. Without one it is any source that begins
      so. */
  lemma DirectoryScope(raw: string, resolved: string, source: string)
    requires resolved != "" && resolved[|resolved| - 1] != '/'
    ensures InScope(source, [(raw, resolved)], []) <==>
      && |resolved| <= |source| && SameFolded(resolved, source[..|resolved|])
      && (raw != "" && raw[|raw| - 1] == '/' ==> |source| > |resolved| && source[|resolved|] == '/')
  {
    var scope := [(raw, resolved)];
    ScopeExact(source, scope, []);
    assert scope[0] == (raw, resolved);
    if EndsWithSlash(raw) && |resolved| < |source| {
      assert source[..|resolved| + 1] == source[..|resolved|] + [source[|resolved|]];
      assert (resolved + "/")[..|resolved|] == resolved;
    }
  }
}
