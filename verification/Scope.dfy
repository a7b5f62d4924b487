/** Scope entries: literal paths, directories and globs (tasks/scope.py). Paths are taken as safe. */
module Scope {

  predicate StartsWith(s: string, prefix: string) {
    prefix <= s
  }

  // ---- normalization ----

  function Slashes(path: string): (r: string)
    ensures |r| == |path|
    ensures '\\' !in path ==> r == path
    ensures '\\' !in r
    ensures forall c :: c in r ==> c == '/' || c in path
  {
    if path == "" then ""
    else [if path[0] == '\\' then '/' else path[0]] + Slashes(path[1..])
  }

  function StripDotSlash(s: string): (r: string)
    ensures !StartsWith(r, "./")
    ensures !StartsWith(s, "./") ==> r == s
    ensures forall c :: c in r ==> c in s
  {
    if StartsWith(s, "./") then StripDotSlash(s[2..]) else s
  }

  ghost predicate NoDoubleSlash(s: string) {
    forall i, j :: 0 <= i && j == i + 1 && j < |s| ==> s[i] != '/' || s[j] != '/'
  }

  function Collapse(s: string): (r: string)
    ensures |r| <= |s|
    ensures forall c :: c in r ==> c in s
    ensures s != "" ==> r != "" && r[0] == s[0]
    ensures |s| > 1 && !(s[0] == '/' && s[1] == '/') ==> |r| > 1 && r[1] == s[1]
    ensures NoDoubleSlash(r)
    ensures NoDoubleSlash(s) ==> r == s
  {
    if |s| < 2 then s
    else if s[0] == '/' && s[1] == '/' then Collapse(s[1..])
    else [s[0]] + Collapse(s[1..])
  }

  function Normalize(path: string): string {
    Collapse(StripDotSlash(Slashes(path)))
  }

  function TrimSlashes(s: string): (r: string)
    ensures r <= s
    ensures r != "" ==> r[|r| - 1] != '/'
    ensures s == "" || s[|s| - 1] != '/' ==> r == s
  {
    if s != "" && s[|s| - 1] == '/' then TrimSlashes(s[..|s| - 1]) else s
  }

  predicate IsGlob(entry: string) {
    '*' in entry || '?' in entry
  }

  // ---- globs ----

  datatype Token = DirStars | AnyPath | Segment | AnyChar | Lit(c: char)

  function Tokens(p: string): (ts: seq<Token>) {
    if p == "" then []
    else if TwoStars(p) && |p| > 2 && p[2] == '/' then [DirStars] + Tokens(p[3..])
    else if TwoStars(p) then [AnyPath] + Tokens(p[2..])
    else [CharToken(p[0])] + Tokens(p[1..])
  }

  predicate TwoStars(p: string) {
    |p| >= 2 && p[0] == '*' && p[1] == '*'
  }

  function CharToken(c: char): Token {
    if c == '*' then Segment else if c == '?' then AnyChar else Lit(c)
  }

  /** The left-to-right translation of a pattern. */
  method TranslateGlob(pattern: string) returns (out: seq<Token>)
    ensures out == Tokens(pattern)
  {
    out := [];
    var i := 0;
    assert pattern[0..] == pattern;
    while i < |pattern|
      invariant 0 <= i <= |pattern|
      invariant Tokens(pattern) == out + Tokens(pattern[i..])
    {
      var rest := pattern[i..];
      var token, width := CharToken(rest[0]), 1;
      if TwoStars(rest) && |rest| > 2 && rest[2] == '/' {
        token, width := DirStars, 3;
      } else if TwoStars(rest) {
        token, width := AnyPath, 2;
      }
      assert Tokens(rest) == [token] + Tokens(rest[width..]);
      assert rest[width..] == pattern[i + width..];
      AppendToken(out, token, Tokens(pattern[i + width..]));
      out, i := out + [token], i + width;
    }
    assert pattern[i..] == "";
  }

  lemma AppendToken(out: seq<Token>, t: Token, ts: seq<Token>)
    ensures out + ([t] + ts) == (out + [t]) + ts
  {
  }

  /** Whole-string match of a token list. */
  predicate Match(ts: seq<Token>, s: string)
    decreases |ts|, |s|, 0
  {
    if ts == [] then s == ""
    else
      var rest := ts[1..];
      match ts[0]
      case Lit(c) => s != "" && s[0] == c && Match(rest, s[1..])
      case AnyChar => s != "" && s[0] != '/' && Match(rest, s[1..])
      case Segment => Match(rest, s) || (s != "" && s[0] != '/' && Match(ts, s[1..]))
      case AnyPath => Match(rest, s) || (s != "" && s[0] != '\n' && Match(ts, s[1..]))
      case DirStars => Match(rest, s) || MatchBelow(rest, s)
  }

  /** `s` is some text ending in `/`, then a match of `rest`. */
  predicate MatchBelow(rest: seq<Token>, s: string)
    decreases |rest|, |s|, 1
  {
    s != "" && ((s[0] == '/' && Match(rest, s[1..])) || (s[0] != '\n' && MatchBelow(rest, s[1..])))
  }

  predicate GlobMatch(path: string, pattern: string) {
    Match(Tokens(Normalize(pattern)), Normalize(path))
  }

  /** The test `scope_contains` applies to one entry. */
  predicate Covers(entry: string, path: string) {
    var norm := Normalize(path);
    || GlobMatch(norm, entry)
    || (!IsGlob(entry) && var base := TrimSlashes(Normalize(entry)); base != "" && StartsWith(norm, base + "/"))
  }

  predicate ScopeContains(path: string, scope: seq<string>) {
    scope == [] || exists i :: 0 <= i < |scope| && Covers(scope[i], path)
  }

  // ---- normal paths ----

  predicate Normal(p: string) {
    Normalize(p) == p
  }

  lemma NormalShape(p: string)
    ensures Normal(p) <==> '\\' !in p && !StartsWith(p, "./") && NoDoubleSlash(p)
  {
    var q := StripDotSlash(Slashes(p));
    if Normal(p) {
      assert !StartsWith(Collapse(q), "./");
    }
  }

  lemma DotSlashStart(s: string)
    ensures StartsWith(s, "./") <==> |s| >= 2 && s[0] == '.' && s[1] == '/'
  {
  }

  lemma NormalizeIdempotent(p: string)
    ensures Normal(Normalize(p))
    ensures !IsGlob(p) ==> !IsGlob(Normalize(p))
  {
    var q := StripDotSlash(Slashes(p));
    assert !StartsWith(Collapse(q), "./");
    NormalShape(Normalize(p));
  }

  // ---- what matching means ----

  lemma {:induction false} LiteralTokens(p: string)
    requires !IsGlob(p)
    ensures |Tokens(p)| == |p| && forall i :: 0 <= i < |p| ==> Tokens(p)[i] == Lit(p[i])
  {
    if p != "" {
      assert p[0] in p;
      LiteralTokens(p[1..]);
    }
  }

  lemma {:induction false} LiteralMatch(p: string, s: string)
    requires !IsGlob(p)
    ensures Match(Tokens(p), s) <==> s == p
  {
    if p != "" {
      assert p[0] in p;
      LiteralMatch(p[1..], if s == "" then "" else s[1..]);
      if s != "" { assert s == [s[0]] + s[1..] && p == [p[0]] + p[1..]; }
    }
  }

  /** The longest leading part without a wildcard, for any set of wildcard characters containing `*` and `?`. */
  function LiteralPrefix(p: string, wild: set<char>): (r: string)
    ensures r <= p
    ensures forall c :: c in r ==> c !in wild
    ensures |r| < |p| ==> p[|r|] in wild
  {
    if p == "" || p[0] in wild then "" else [p[0]] + LiteralPrefix(p[1..], wild)
  }

  lemma {:induction false} MatchKeepsPrefix(p: string, s: string, wild: set<char>)
    requires '*' in wild && '?' in wild
    requires Match(Tokens(p), s)
    ensures StartsWith(s, LiteralPrefix(p, wild))
  {
    if p != "" && p[0] !in wild {
      MatchKeepsPrefix(p[1..], s[1..], wild);
    }
  }

  // ---- matching a known beginning ----

  /** Can a match of `ts` begin with `s`? */
  predicate MatchSome(ts: seq<Token>, s: string)
    decreases |ts|, |s|, 0
  {
    if s == "" then true
    else if ts == [] then false
    else
      var rest := ts[1..];
      match ts[0]
      case Lit(c) => s[0] == c && MatchSome(rest, s[1..])
      case AnyChar => s[0] != '/' && MatchSome(rest, s[1..])
      case Segment => MatchSome(rest, s) || (s[0] != '/' && MatchSome(ts, s[1..]))
      case AnyPath => MatchSome(rest, s) || (s[0] != '\n' && MatchSome(ts, s[1..]))
      case DirStars => MatchSome(rest, s) || MatchSomeBelow(rest, s)
  }

  predicate MatchSomeBelow(rest: seq<Token>, s: string)
    decreases |rest|, |s|, 1
  {
    if s == "" then true
    else (s[0] == '/' && MatchSome(rest, s[1..])) || (s[0] != '\n' && MatchSomeBelow(rest, s[1..]))
  }

  lemma {:induction false} MatchHasBeginning(ts: seq<Token>, s: string, t: string)
    requires Match(ts, s + t)
    ensures MatchSome(ts, s)
    decreases |ts|, |s|, 0
  {
    if s != "" && ts != [] {
      assert (s + t)[0] == s[0] && (s + t)[1..] == s[1..] + t;
      var rest := ts[1..];
      match ts[0]
      case Lit(c) => MatchHasBeginning(rest, s[1..], t);
      case AnyChar => MatchHasBeginning(rest, s[1..], t);
      case Segment =>
        if Match(rest, s + t) { MatchHasBeginning(rest, s, t); } else { MatchHasBeginning(ts, s[1..], t); }
      case AnyPath =>
        if Match(rest, s + t) { MatchHasBeginning(rest, s, t); } else { MatchHasBeginning(ts, s[1..], t); }
      case DirStars =>
        if Match(rest, s + t) { MatchHasBeginning(rest, s, t); } else { BelowHasBeginning(rest, s, t); }
    }
  }

  lemma {:induction false} BelowHasBeginning(rest: seq<Token>, s: string, t: string)
    requires MatchBelow(rest, s + t)
    ensures MatchSomeBelow(rest, s)
    decreases |rest|, |s|, 1
  {
    if s != "" {
      assert (s + t)[0] == s[0] && (s + t)[1..] == s[1..] + t;
      if s[0] == '/' && Match(rest, (s + t)[1..]) { MatchHasBeginning(rest, s[1..], t); }
      else { BelowHasBeginning(rest, s[1..], t); }
    }
  }

  // ---- completing a beginning to a normal path ----

  /** Tokens of a normal pattern that may stand after a `/` if `slash`: no two slashes can be forced together. */
  predicate Clean(ts: seq<Token>, slash: bool) {
    if ts == [] then true
    else
      match ts[0]
      case Lit(c) => c != '\\' && !(slash && c == '/') && Clean(ts[1..], c == '/')
      case DirStars => Clean(ts[1..], true)
      case _ => Clean(ts[1..], false)
  }

  /** A text that may follow a `/` and keeps a path normal. */
  predicate Follows(t: string) {
    '\\' !in t && (t != "" ==> t[0] != '/')
  }

  lemma CleanWeaker(ts: seq<Token>)
    requires Clean(ts, true)
    ensures Clean(ts, false)
  {
  }

  lemma {:induction false} PatternIsClean(p: string, slash: bool)
    requires '\\' !in p && NoDoubleSlash(p) && !(slash && p != "" && p[0] == '/')
    ensures Clean(Tokens(p), slash)
    decreases |p|
  {
    if p != "" {
      if TwoStars(p) && |p| > 2 && p[2] == '/' {
        PatternIsClean(p[3..], true);
      } else if TwoStars(p) {
        PatternIsClean(p[2..], false);
      } else {
        assert p[0] in p;
        PatternIsClean(p[1..], p[0] == '/');
      }
    }
  }

  lemma PutBefore(c: char, t: string)
    requires c != '\\' && '\\' !in t && NoDoubleSlash(t) && (c == '/' ==> Follows(t))
    ensures NoDoubleSlash([c] + t) && '\\' !in [c] + t
    ensures ([c] + t)[1..] == t
  {
  }

  /** A clean pattern has a match that needs no normalizing. */
  lemma {:induction false} Completion(ts: seq<Token>, slash: bool) returns (t: string)
    requires Clean(ts, slash)
    ensures Match(ts, t) && NoDoubleSlash(t) && '\\' !in t && (slash ==> Follows(t))
  {
    if ts == [] { return ""; }
    match ts[0]
    case Lit(c) =>
      t := Completion(ts[1..], c == '/');
      PutBefore(c, t);
      t := [c] + t;
    case DirStars =>
      t := Completion(ts[1..], true);
    case _ =>
      t := Completion(ts[1..], false);
      PutBefore('x', t);
      t := ['x'] + t;
  }

  predicate EndsInSlash(s: string) {
    s != "" && s[|s| - 1] == '/'
  }

  /** Before `s` the last character was a `/` if `slash`; what is left to match allows for that. */
  predicate Ready(ts: seq<Token>, s: string, slash: bool) {
    Clean(ts, slash) || (Clean(ts, false) && s != "" && s[0] != '/')
  }

  lemma TailOfBeginning(s: string)
    requires EndsInSlash(s) && NoDoubleSlash(s)
    ensures NoDoubleSlash(s[1..]) && (EndsInSlash(s[1..]) || (s[1..] == "" && s[0] == '/'))
    ensures s[0] == '/' && s[1..] != "" ==> s[1..][0] != '/'
  {
  }

  /** A beginning that ends in a slash extends to a match without disturbing normality. */
  lemma {:induction false} NormalExtension(ts: seq<Token>, s: string, slash: bool) returns (t: string)
    requires MatchSome(ts, s) && (EndsInSlash(s) || (s == "" && slash)) && NoDoubleSlash(s) && Ready(ts, s, slash)
    requires slash && s != "" ==> s[0] != '/'
    ensures Match(ts, s + t) && NoDoubleSlash(t) && Follows(t)
    decreases |ts|, |s|, 0
  {
    if s == "" {
      t := Completion(ts, slash);
      assert s + t == t;
      return;
    }
    var rest := ts[1..];
    TailOfBeginning(s);
    match ts[0] {
      case Lit(c) => t := NormalExtension(rest, s[1..], c == '/');
      case AnyChar => t := NormalExtension(rest, s[1..], false);
      case Segment =>
        assert Clean(rest, false);
        if MatchSome(rest, s) { t := NormalExtension(rest, s, slash); }
        else { t := NormalExtension(ts, s[1..], false); }
      case AnyPath =>
        assert Clean(rest, false);
        if MatchSome(rest, s) { t := NormalExtension(rest, s, slash); }
        else { t := NormalExtension(ts, s[1..], s[0] == '/'); }
      case DirStars =>
        CleanWeaker(rest);
        if MatchSome(rest, s) { t := NormalExtension(rest, s, slash); }
        else { t := NormalBelow(rest, s, slash); }
    }
    assert (s + t)[0] == s[0] && (s + t)[1..] == s[1..] + t;
  }

  lemma {:induction false} NormalBelow(rest: seq<Token>, s: string, slash: bool) returns (t: string)
    requires MatchSomeBelow(rest, s) && (EndsInSlash(s) || (s == "" && slash)) && NoDoubleSlash(s) && Clean(rest, true)
    requires slash && s != "" ==> s[0] != '/'
    ensures MatchBelow(rest, s + t) && NoDoubleSlash(t) && Follows(t)
    decreases |rest|, |s|, 1
  {
    if s == "" {
      var u := Completion(rest, true);
      PutBefore('/', u);
      PutBefore('x', "/" + u);
      t := "x" + ("/" + u);
      assert s + t == t && t[1..] == "/" + u && (t[1..])[1..] == u;
      assert MatchBelow(rest, t[1..]);
    } else {
      TailOfBeginning(s);
      if s[0] == '/' && MatchSome(rest, s[1..]) { t := NormalExtension(rest, s[1..], true); }
      else { t := NormalBelow(rest, s[1..], s[0] == '/'); }
      assert (s + t)[0] == s[0] && (s + t)[1..] == s[1..] + t;
    }
  }
}
