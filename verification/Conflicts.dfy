/** Predicting from declared scopes that two units could touch the same file (merge_queue/conflicts.py). */
module Conflicts {
  import opened Scope
  import opened Text

  const WILD: set<char> := {'*', '?', '['}

  function Norm(pattern: string): string {
    var p := StripDotSlash(Strip(pattern));
    if p == "" || p == "/" then "*" else TrimSlashes(p)
  }

  predicate HasWild(p: string) {
    '*' in p || '?' in p || '[' in p
  }

  function Prefix(p: string): string {
    LiteralPrefix(p, WILD)
  }

  predicate Under(path: string, directory: string) {
    path == directory || StartsWith(path, directory + "/")
  }

  /** Shell-style matching, in which `*` and `?` also cross `/`. */
  predicate FnMatch(s: string, p: string)
    decreases |p|, |s|
  {
    if p == "" then s == ""
    else if p[0] == '*' then FnMatch(s, p[1..]) || (s != "" && FnMatch(s[1..], p))
    else s != "" && (p[0] == '?' || p[0] == s[0]) && FnMatch(s[1..], p[1..])
  }

  predicate PatternsOverlap(left: string, right: string) {
    var a, b := Norm(left), Norm(right);
    if a == b then true
    else if !HasWild(a) && !HasWild(b) then Under(a, b) || Under(b, a)
    else if HasWild(a) && HasWild(b) then StartsWith(Prefix(a), Prefix(b)) || StartsWith(Prefix(b), Prefix(a))
    else if HasWild(b) then LiteralMeetsGlob(a, b) else LiteralMeetsGlob(b, a)
  }

  predicate LiteralMeetsGlob(literal: string, glob: string) {
    || FnMatch(literal, glob)
    || (Under(TrimSlashes(Prefix(glob)), literal) && TrimSlashes(Prefix(glob)) != "")
    || FnMatch(literal + "/x", glob)
  }

  /** An empty scope is the whole repository and overlaps everything. */
  predicate ScopesOverlap(a: seq<string>, b: seq<string>) {
    || a == [] || b == []
    || exists i, j :: 0 <= i < |a| && 0 <= j < |b| && PatternsOverlap(a[i], b[j])
  }

  lemma OverlapSymmetric(a: string, b: string)
    ensures PatternsOverlap(a, b) <==> PatternsOverlap(b, a)
  {
  }

  lemma ScopesOverlapSymmetric(a: seq<string>, b: seq<string>)
    ensures ScopesOverlap(a, b) <==> ScopesOverlap(b, a)
  {
    forall x, y ensures PatternsOverlap(x, y) <==> PatternsOverlap(y, x) { OverlapSymmetric(x, y); }
  }

  // ---- entries and what they cover ----

  /** The directory or glob the scope test works with: normalized, without a trailing slash. */
  function Dir(e: string): string {
    TrimSlashes(Normalize(e))
  }

  /** An entry that names something. */
  predicate Entry(e: string) {
    Normalize(e) != "" && Normalize(e) != "/"
  }

  /** An entry that both modules read alike. */
  predicate Plain(e: string) {
    Entry(e) && '[' !in e && Norm(e) == Dir(e)
  }

  /** Normal entries without surrounding whitespace are read alike, with a trailing slash or without. */
  lemma OrdinaryIsPlain(e: string)
    requires Entry(e) && '[' !in e && Normal(e) && Strip(e) == e
    ensures Plain(e)
  {
    NormalShape(e);
  }

  /** A directory name without its trailing slash. */
  predicate Bare(d: string) {
    d != "" && d[|d| - 1] != '/' && Normal(d)
  }

  /** A character that no normalization adds or removes. */
  predicate Fixed(c: char) {
    c != '/' && c != '\\' && c != '.' && !IsSpace(c)
  }

  lemma {:induction false} SlashesKeep(s: string, c: char)
    requires Fixed(c)
    ensures c in Slashes(s) <==> c in s
  {
    if s != "" {
      assert s == [s[0]] + s[1..];
      SlashesKeep(s[1..], c);
    }
  }

  lemma {:induction false} StripDotSlashKeeps(s: string, c: char)
    requires Fixed(c)
    ensures c in StripDotSlash(s) <==> c in s
  {
    if StartsWith(s, "./") {
      assert s == ['.', '/'] + s[2..];
      StripDotSlashKeeps(s[2..], c);
    }
  }

  lemma {:induction false} CollapseKeeps(s: string, c: char)
    requires Fixed(c)
    ensures c in Collapse(s) <==> c in s
  {
    if |s| >= 2 {
      assert s == [s[0]] + s[1..];
      CollapseKeeps(s[1..], c);
    }
  }

  lemma {:induction false} TrimSlashesKeeps(s: string, c: char)
    requires Fixed(c)
    ensures c in TrimSlashes(s) <==> c in s
  {
    if s != "" && s[|s| - 1] == '/' {
      assert s == s[..|s| - 1] + [s[|s| - 1]];
      TrimSlashesKeeps(s[..|s| - 1], c);
    }
  }

  lemma {:induction false} TrimLeftKeeps(s: string, c: char)
    requires Fixed(c)
    ensures c in TrimLeft(s) <==> c in s
  {
    if s != "" && IsSpace(s[0]) {
      assert s == [s[0]] + s[1..];
      TrimLeftKeeps(s[1..], c);
    }
  }

  lemma {:induction false} TrimRightKeeps(s: string, c: char)
    requires Fixed(c)
    ensures c in TrimRight(s) <==> c in s
  {
    if s != "" && IsSpace(s[|s| - 1]) {
      assert s == s[..|s| - 1] + [s[|s| - 1]];
      TrimRightKeeps(s[..|s| - 1], c);
    }
  }

  lemma ScopeKeeps(e: string, c: char)
    requires Fixed(c)
    ensures c in Normalize(e) <==> c in e
    ensures c in Dir(e) <==> c in e
  {
    SlashesKeep(e, c);
    StripDotSlashKeeps(Slashes(e), c);
    CollapseKeeps(StripDotSlash(Slashes(e)), c);
    TrimSlashesKeeps(Normalize(e), c);
  }

  lemma NormKeepsChar(e: string, c: char)
    requires Fixed(c)
    ensures c in e ==> c in Norm(e)
    ensures Norm(e) != "*" ==> (c in Norm(e) <==> c in e)
  {
    hide Strip;
    StripKeeps(e, c);
    StripDotSlashKeeps(Strip(e), c);
    TrimSlashesKeeps(StripDotSlash(Strip(e)), c);
  }

  lemma StripKeeps(e: string, c: char)
    requires Fixed(c)
    ensures c in Strip(e) <==> c in e
  {
    TrimLeftKeeps(e, c);
    TrimRightKeeps(TrimLeft(e), c);
  }

  /** Neither normalization changes which wildcards occur, except that the overlap test reads some literals as `*`. */
  lemma WildKept(e: string)
    ensures IsGlob(Normalize(e)) <==> IsGlob(e)
    ensures IsGlob(Dir(e)) <==> IsGlob(e)
    ensures '[' in Dir(e) <==> '[' in e
    ensures IsGlob(e) ==> HasWild(Norm(e))
    ensures Norm(e) != "*" ==> (HasWild(Norm(e)) <==> HasWild(e))
  {
    hide Normalize, Dir, Norm;
    ScopeKeeps(e, '*');
    ScopeKeeps(e, '?');
    ScopeKeeps(e, '[');
    NormKeepsChar(e, '*');
    NormKeepsChar(e, '?');
    NormKeepsChar(e, '[');
  }

  /** A normalized entry has at most one trailing slash. */
  lemma EntryShape(e: string)
    requires Entry(e)
    ensures Normal(Normalize(e)) && Bare(Dir(e)) && (Normalize(e) == Dir(e) || Normalize(e) == Dir(e) + "/")
    ensures IsGlob(Dir(e)) <==> IsGlob(e)
  {
    NormalizeIdempotent(e);
    WildKept(e);
    NormalDir(Normalize(e));
  }

  lemma NormalDir(n: string)
    requires Normal(n) && n != "" && n != "/"
    ensures Bare(TrimSlashes(n)) && (n == TrimSlashes(n) || n == TrimSlashes(n) + "/")
  {
    hide Normal;
    NormalShape(n);
    if n[|n| - 1] == '/' {
      var d := n[..|n| - 1];
      assert n == d + "/" && d[|d| - 1] != '/';
      NormalPart(d, "/");
      assert TrimSlashes(n) == TrimSlashes(d) == d;
    }
  }

  lemma NormalPart(d: string, t: string)
    requires Normal(d + t)
    ensures Normal(d)
  {
    var e := d + t;
    NormalShape(e);
    NormalShape(d);
    DotSlashStart(e);
    DotSlashStart(d);
    assert forall c :: c in d ==> c in e;
    forall i, j | 0 <= i && j == i + 1 && j < |d| ensures d[i] != '/' || d[j] != '/' {
      assert e[i] == d[i] && e[j] == d[j];
    }
  }

  /** A literal covers what lies below its directory, and itself unless it ends in a slash. */
  lemma CoversLiteral(e: string, path: string)
    requires Entry(e) && !IsGlob(e) && Normal(path)
    ensures Covers(e, path) <==> StartsWith(path, Dir(e) + "/") || path == Normalize(e) == Dir(e)
  {
    EntryShape(e);
    WildKept(e);
    LiteralMatch(Normalize(e), path);
  }

  lemma CoversGlob(e: string, path: string)
    requires IsGlob(e) && Normal(path)
    ensures Covers(e, path) <==> Match(Tokens(Normalize(e)), path)
  {
  }

  predicate Comparable(p: string, q: string) {
    StartsWith(p, q) || StartsWith(q, p)
  }

  lemma PrefixesComparable(p: string, q: string, s: string)
    requires StartsWith(s, p) && StartsWith(s, q)
    ensures Comparable(p, q)
  {
    if |p| <= |q| { assert p == q[..|p|]; } else { assert q == p[..|q|]; }
  }

  predicate Nested(a: string, b: string) {
    Under(a, b) || Under(b, a)
  }

  lemma UnderComparable(path: string, a: string, b: string)
    requires Under(path, a) && Under(path, b)
    ensures Nested(a, b)
  {
    if path != a && path != b {
      PrefixesComparable(a + "/", b + "/", path);
      if StartsWith(a + "/", b + "/") {
        assert (b + "/") == (a + "/")[..|b| + 1];
        if |a| > |b| { assert StartsWith(a, b + "/"); }
        else { assert a == (a + "/")[..|b|] == (b + "/")[..|b|] == b; }
      } else {
        assert (a + "/") == (b + "/")[..|a| + 1];
        if |b| > |a| { assert StartsWith(b, a + "/"); }
      }
    }
  }

  // ---- two literals, two globs ----

  /** The literal prefix ends at the first wildcard, whatever follows. */
  lemma {:induction false} PrefixOfLonger(p: string, t: string)
    requires HasWild(p)
    ensures Prefix(p + t) == Prefix(p)
  {
    assert (p + t)[0] == p[0];
    if p[0] !in WILD {
      assert (p + t)[1..] == p[1..] + t;
      PrefixOfLonger(p[1..], t);
    }
  }

  lemma {:induction false} PrefixWithoutSlashes(p: string)
    requires HasWild(p)
    ensures Prefix(TrimSlashes(p)) == Prefix(p) && HasWild(TrimSlashes(p))
  {
    var n := |p| - 1;
    assert p == p[..n] + [p[n]];
    if p[n] == '/' {
      PrefixWithoutSlashes(p[..n]);
      PrefixOfLonger(p[..n], [p[n]]);
    }
  }

  lemma GlobPrefixes(a: string, b: string, path: string)
    requires IsGlob(a) && IsGlob(b) && Normal(path) && Covers(a, path) && Covers(b, path)
    ensures Comparable(Prefix(Normalize(a)), Prefix(Normalize(b)))
  {
    CoversGlob(a, path);
    CoversGlob(b, path);
    MatchKeepsPrefix(Normalize(a), path, WILD);
    MatchKeepsPrefix(Normalize(b), path, WILD);
    PrefixesComparable(Prefix(Normalize(a)), Prefix(Normalize(b)), path);
  }

  lemma GlobPairOverlaps(a: string, b: string)
    requires IsGlob(a) && IsGlob(b)
    ensures PatternsOverlap(a, b) <==> Comparable(Prefix(Norm(a)), Prefix(Norm(b)))
  {
    WildKept(a);
    WildKept(b);
  }

  lemma PlainGlobPrefix(e: string)
    requires Plain(e) && IsGlob(e)
    ensures Prefix(Norm(e)) == Prefix(Normalize(e))
  {
    WildKept(e);
    PrefixWithoutSlashes(Normalize(e));
  }

  /** Two literal entries, or two globs, reported disjoint never cover a common path. */
  lemma SameKindSound(a: string, b: string, path: string)
    requires Plain(a) && Plain(b) && Normal(path)
    requires IsGlob(a) <==> IsGlob(b)
    requires Covers(a, path) && Covers(b, path)
    ensures PatternsOverlap(a, b)
  {
    if IsGlob(a) {
      GlobPrefixes(a, b, path);
      PlainGlobPrefix(a);
      PlainGlobPrefix(b);
      GlobPairOverlaps(a, b);
    } else {
      CoversLiteral(a, path);
      CoversLiteral(b, path);
      UnderComparable(path, Dir(a), Dir(b));
      WildKept(a);
      WildKept(b);
    }
  }

  // ---- sharing a path ----

  /** Some normal path is covered by both entries: two units could touch the same file. */
  ghost predicate ShareAPath(a: string, b: string) {
    exists path :: Normal(path) && Covers(a, path) && Covers(b, path)
  }

  /** A directory continued by a slash and a completion is normal. */
  lemma BelowIsNormal(d: string, t: string)
    requires Bare(d) && d != "." && NoDoubleSlash(t) && Follows(t)
    ensures Normal(d + "/" + t)
  {
    var p := d + "/" + t;
    NormalShape(d);
    DotSlashStart(p);
    DotSlashStart(d);
    JoinAtSlash(d + "/", t);
    NormalShape(p);
  }

  lemma JoinAtSlash(s: string, t: string)
    requires NoDoubleSlash(s) && NoDoubleSlash(t) && Follows(t)
    ensures NoDoubleSlash(s + t)
  {
  }

  /** Nothing normal lies below `.`. */
  lemma NothingBelowDot(d: string, path: string)
    requires Normal(path) && StartsWith(path, d + "/")
    ensures d != "."
  {
    NormalShape(path);
    DotSlashStart(path);
    if |d| == 1 { assert path[0] == (d + "/")[0] && path[1] == (d + "/")[1]; }
  }

  /** Two literals share a path exactly when their directories are nested. */
  lemma NestingIsExact(a: string, b: string)
    requires Entry(a) && Entry(b) && !IsGlob(a) && !IsGlob(b)
    ensures ShareAPath(a, b) <==> Nested(Dir(a), Dir(b))
  {
    if ShareAPath(a, b) {
      var path :| Normal(path) && Covers(a, path) && Covers(b, path);
      CoversLiteral(a, path);
      CoversLiteral(b, path);
      UnderComparable(path, Dir(a), Dir(b));
    }
    if Under(Dir(a), Dir(b)) { NestedShare(a, b); }
    if Under(Dir(b), Dir(a)) { NestedShare(b, a); }
  }

  lemma NestedShare(a: string, b: string)
    requires Entry(a) && Entry(b) && !IsGlob(a) && !IsGlob(b) && Under(Dir(a), Dir(b))
    ensures ShareAPath(a, b)
  {
    hide Covers, Normal, Dir, Normalize;
    var d, f := Dir(a), Dir(b);
    EntryShape(a);
    EntryShape(b);
    if d == "." {
      OnlyDot(a);
      OnlyDot(b);
      CoversLiteral(a, ".");
      CoversLiteral(b, ".");
    } else {
      var path := d + "/" + "x";
      BelowIsNormal(d, "x");
      assert StartsWith(path, d + "/");
      if d != f { assert (d + "/")[..|f| + 1] == d[..|f| + 1]; }
      assert StartsWith(path, f + "/");
      CoversLiteral(a, path);
      CoversLiteral(b, path);
    }
  }

  lemma OnlyDot(e: string)
    requires Entry(e) && Under(".", Dir(e))
    ensures Normalize(e) == Dir(e) == "." && Normal(".")
  {
    EntryShape(e);
    DotSlashStart(Normalize(e));
    NormalShape(Normalize(e));
  }

  /** Does the glob match the literal, or a normal path below its directory? No normal path lies below `.`. */
  predicate GlobReaches(literal: string, glob: string) {
    var d := Dir(literal);
    var ts := Tokens(Normalize(glob));
    (Normalize(literal) == d && Match(ts, d)) || (d != "." && MatchSome(ts, d + "/"))
  }

  /** The reach test, on the two strings alone, finds exactly the pairs that share a path. */
  lemma ReachIsExact(literal: string, glob: string)
    requires Entry(literal) && !IsGlob(literal) && IsGlob(glob)
    ensures GlobReaches(literal, glob) <==> ShareAPath(literal, glob)
  {
    var d, ts := Dir(literal), Tokens(Normalize(glob));
    if Normalize(literal) == d && Match(ts, d) {
      EntryShape(literal);
      CoversLiteral(literal, d);
      CoversGlob(glob, d);
    } else if d != "." && MatchSome(ts, d + "/") {
      ReachedBelow(literal, glob);
    }
    forall path | Normal(path) && Covers(literal, path) && Covers(glob, path) ensures GlobReaches(literal, glob) {
      SharedIsReached(literal, glob, path);
    }
  }

  lemma DirectoryIsClean(d: string)
    requires Bare(d)
    ensures NoDoubleSlash(d + "/") && EndsInSlash(d + "/")
  {
    NormalShape(d);
  }

  lemma ReachedBelow(literal: string, glob: string)
    requires Entry(literal) && !IsGlob(literal) && IsGlob(glob)
    requires Dir(literal) != "." && MatchSome(Tokens(Normalize(glob)), Dir(literal) + "/")
    ensures ShareAPath(literal, glob)
  {
    hide Covers, Dir, Normal, Normalize;
    var d := Dir(literal);
    EntryShape(literal);
    NormalizeIdempotent(glob);
    NormalShape(Normalize(glob));
    PatternIsClean(Normalize(glob), false);
    DirectoryIsClean(d);
    var t := NormalExtension(Tokens(Normalize(glob)), d + "/", false);
    var path := d + "/" + t;
    BelowIsNormal(d, t);
    assert StartsWith(path, d + "/");
    CoversLiteral(literal, path);
    CoversGlob(glob, path);
  }

  lemma SharedIsReached(literal: string, glob: string, path: string)
    requires Entry(literal) && !IsGlob(literal) && IsGlob(glob) && Normal(path)
    requires Covers(literal, path) && Covers(glob, path)
    ensures GlobReaches(literal, glob)
  {
    hide Covers, Dir, Normal, Normalize;
    var d := Dir(literal);
    CoversLiteral(literal, path);
    CoversGlob(glob, path);
    if StartsWith(path, d + "/") {
      MatchBegins(Tokens(Normalize(glob)), d + "/", path);
      NothingBelowDot(d, path);
    }
  }

  lemma MatchBegins(ts: seq<Token>, beginning: string, path: string)
    requires Match(ts, path) && StartsWith(path, beginning)
    ensures MatchSome(ts, beginning)
  {
    assert path == beginning + path[|beginning|..];
    MatchHasBeginning(ts, beginning, path[|beginning|..]);
  }

  // ---- a literal against a glob ----

  /** The guards of the failing branch: the glob's fixed part stops inside the directory, and neither match succeeds. */
  predicate SlipsThrough(literal: string, glob: string) {
    var d, g := Dir(literal), Dir(glob);
    Prefix(g) < d && !FnMatch(d, g) && !FnMatch(d + "/x", g)
  }

  /**
   * A literal and a glob that share a path are reported disjoint exactly when
   * they slip through the test and the glob reaches the literal.
   */
  lemma MissedExactly(literal: string, glob: string)
    requires Plain(literal) && Plain(glob) && !IsGlob(literal) && IsGlob(glob)
    ensures ShareAPath(literal, glob) && !PatternsOverlap(literal, glob)
       <==> SlipsThrough(literal, glob) && GlobReaches(literal, glob)
  {
    ReachIsExact(literal, glob);
    PlainPairOverlaps(literal, glob);
    if ShareAPath(literal, glob) && !PatternsOverlap(literal, glob) {
      MissedSlips(literal, glob);
    }
    if SlipsThrough(literal, glob) {
      SlipsUnmet(Dir(literal), Dir(glob));
    }
  }

  lemma MissedSlips(literal: string, glob: string)
    requires Plain(literal) && Plain(glob) && !IsGlob(literal) && IsGlob(glob)
    requires ShareAPath(literal, glob) && !PatternsOverlap(literal, glob)
    ensures SlipsThrough(literal, glob)
  {
    PlainPairOverlaps(literal, glob);
    EntryShape(literal);
    var path :| Normal(path) && Covers(literal, path) && Covers(glob, path);
    MissNeedsShortPrefix(literal, glob, path);
    UnmetSlips(literal, glob);
  }

  lemma UnmetSlips(literal: string, glob: string)
    requires var d, g := Dir(literal), Dir(glob);
             d != "" && StartsWith(d + "/", Prefix(g)) && !LiteralMeetsGlob(d, g)
    ensures SlipsThrough(literal, glob)
  {
    var d, g := Dir(literal), Dir(glob);
    if !(Prefix(g) < d) { LongPrefixMet(d, Prefix(g)); }
  }

  lemma SlipsUnmet(d: string, g: string)
    requires Prefix(g) < d && !FnMatch(d, g) && !FnMatch(d + "/x", g)
    ensures !LiteralMeetsGlob(d, g)
  {
    assert |TrimSlashes(Prefix(g))| < |d|;
  }

  lemma LongPrefixMet(d: string, p: string)
    requires d != "" && d[|d| - 1] != '/' && StartsWith(d + "/", p) && !(p < d)
    ensures Under(TrimSlashes(p), d) && TrimSlashes(p) != ""
  {
    if p == d + "/" {
      assert p[..|p| - 1] == d;
    } else {
      assert p == d;
    }
  }

  lemma PlainPairOverlaps(literal: string, glob: string)
    requires Plain(literal) && Plain(glob) && !IsGlob(literal) && IsGlob(glob)
    ensures PatternsOverlap(literal, glob) <==> LiteralMeetsGlob(Dir(literal), Dir(glob))
  {
    hide LiteralMeetsGlob, Dir, Norm;
    WildKept(literal);
    WildKept(glob);
  }

  /** A beginning of a covered path that does not reach below the directory ends inside it. */
  lemma ShortBeginning(p: string, d: string, path: string)
    requires StartsWith(path, p) && Under(path, d) && d != "" && d[|d| - 1] != '/'
    requires !(Under(TrimSlashes(p), d) && TrimSlashes(p) != "")
    ensures StartsWith(d + "/", p)
  {
    if path == d {
      assert p == d[..|p|];
    } else {
      PrefixesComparable(p, d + "/", path);
      if StartsWith(p, d + "/") { TrimKeepsUnder(p, d); }
    }
  }

  /** A missed pair always has a glob whose fixed beginning is a beginning of the literal directory. */
  lemma MissNeedsShortPrefix(literal: string, glob: string, path: string)
    requires Plain(literal) && Plain(glob) && !IsGlob(literal) && IsGlob(glob) && Normal(path)
    requires Covers(literal, path) && Covers(glob, path) && !PatternsOverlap(literal, glob)
    ensures StartsWith(Dir(literal) + "/", Prefix(Dir(glob)))
  {
    EntryShape(literal);
    PlainPairOverlaps(literal, glob);
    CoversLiteral(literal, path);
    CoversGlob(glob, path);
    MatchKeepsPrefix(Normalize(glob), path, WILD);
    PlainGlobPrefix(glob);
    ShortBeginning(Prefix(Dir(glob)), Dir(literal), path);
  }

  lemma {:induction false} TrimKeepsUnder(p: string, d: string)
    requires StartsWith(p, d + "/") && d != "" && d[|d| - 1] != '/'
    ensures Under(TrimSlashes(p), d) && TrimSlashes(p) != ""
  {
    if p != d + "/" && p[|p| - 1] == '/' {
      assert StartsWith(p[..|p| - 1], d + "/");
      TrimKeepsUnder(p[..|p| - 1], d);
    } else if p == d + "/" {
      assert p[..|p| - 1] == d;
    }
  }
}
