/** Plan lint helpers: transitive dependencies and quick scope tests (runs/plan_lint.py). */
module Lint {
  import opened Scope

  // ---- transitive dependencies ----

  type Deps = map<string, seq<string>>

  function Listed(deps: Deps, u: string): seq<string> {
    if u in deps then deps[u] else []
  }

  ghost predicate IsPath(deps: Deps, p: seq<string>) {
    |p| >= 2 && forall i, j :: 0 <= i && j == i + 1 && j < |p| ==> p[j] in Listed(deps, p[i])
  }

  ghost predicate Reaches(deps: Deps, u: string, v: string) {
    exists p :: IsPath(deps, p) && p[0] == u && p[|p| - 1] == v
  }

  lemma ReachStep(deps: Deps, u: string, v: string)
    requires v in Listed(deps, u)
    ensures Reaches(deps, u, v)
  {
    var p := [u, v];
    assert IsPath(deps, p);
  }

  lemma ReachExtend(deps: Deps, u: string, v: string, w: string)
    requires Reaches(deps, u, v) && w in Listed(deps, v)
    ensures Reaches(deps, u, w)
  {
    var p :| IsPath(deps, p) && p[0] == u && p[|p| - 1] == v;
    assert IsPath(deps, p + [w]);
  }

  lemma {:induction false} ClosedContainsPath(deps: Deps, found: set<string>, p: seq<string>)
    requires IsPath(deps, p)
    requires forall d :: d in Listed(deps, p[0]) ==> d in found
    requires forall x, d :: x in found && d in Listed(deps, x) ==> d in found
    ensures p[|p| - 1] in found
  {
    if |p| > 2 {
      assert forall i, j :: 0 <= i && j == i + 1 && j < |p[1..]| ==> p[1..][j] in Listed(deps, p[1..][i]) by {
        forall i, j | 0 <= i && j == i + 1 && j < |p[1..]| ensures p[1..][j] in Listed(deps, p[1..][i]) {
          assert p[j + 1] in Listed(deps, p[i + 1]);
        }
      }
      ClosedContainsPath(deps, found, p[1..]);
    }
  }

  ghost function Universe(deps: Deps): set<string> {
    set u, d | u in deps && d in deps[u] :: d
  }

  /** The worklist's invariant: what is found or pending is reached, and what a found unit lists is one of them. */
  ghost predicate Gathered(deps: Deps, uid: string, found: set<string>, pending: seq<string>) {
    && found <= Universe(deps)
    && (forall v :: v in pending ==> v in Universe(deps))
    && (forall v :: v in found || v in pending ==> Reaches(deps, uid, v))
    && (forall d :: d in Listed(deps, uid) ==> d in found || d in pending)
    && (forall x, d :: x in found && d in Listed(deps, x) ==> d in found || d in pending)
  }

  lemma GatherFirst(deps: Deps, uid: string)
    ensures Gathered(deps, uid, {}, Listed(deps, uid))
  {
    forall v | v in Listed(deps, uid) ensures Reaches(deps, uid, v) { ReachStep(deps, uid, v); }
  }

  lemma GatherNext(deps: Deps, uid: string, found: set<string>, rest: seq<string>, dep: string)
    requires Gathered(deps, uid, found, rest + [dep])
    ensures dep in found ==> Gathered(deps, uid, found, rest)
    ensures dep in Universe(deps) && Gathered(deps, uid, found + {dep}, rest + Listed(deps, dep))
  {
    hide Reaches;
    assert dep in rest + [dep];
    forall w | w in Listed(deps, dep) ensures Reaches(deps, uid, w) { ReachExtend(deps, uid, dep, w); }
  }

  lemma GatheredAll(deps: Deps, uid: string, found: set<string>)
    requires Gathered(deps, uid, found, [])
    ensures forall v :: v in found <==> Reaches(deps, uid, v)
  {
    forall v | Reaches(deps, uid, v) ensures v in found {
      var p :| IsPath(deps, p) && p[0] == uid && p[|p| - 1] == v;
      ClosedContainsPath(deps, found, p);
    }
  }

  /** The worklist search of one unit: exactly what the unit reaches, cycles or not. */
  method AncestorsOf(uid: string, deps: Deps) returns (found: set<string>)
    ensures forall v :: v in found <==> Reaches(deps, uid, v)
  {
    hide Gathered, Universe, Reaches;
    found := {};
    var pending := Listed(deps, uid);
    GatherFirst(deps, uid);
    while |pending| > 0
      invariant Gathered(deps, uid, found, pending)
      decreases Universe(deps) - found, |pending|
    {
      var dep := pending[|pending| - 1];
      var rest := pending[..|pending| - 1];
      assert pending == rest + [dep];
      GatherNext(deps, uid, found, rest, dep);
      if dep !in found {
        found := found + {dep};
        rest := rest + Listed(deps, dep);
      }
      pending := rest;
    }
    GatheredAll(deps, uid, found);
  }

  method Ancestors(ids: seq<string>, deps: Deps) returns (result: map<string, set<string>>)
    ensures forall u :: u in result <==> u in ids
    ensures forall u, v :: u in result ==> (v in result[u] <==> Reaches(deps, u, v))
  {
    result := map[];
    for i := 0 to |ids|
      invariant forall u :: u in result <==> u in ids[..i]
      invariant forall u, v :: u in result ==> (v in result[u] <==> Reaches(deps, u, v))
    {
      var found := AncestorsOf(ids[i], deps);
      result := result[ids[i] := found];
    }
  }

  // ---- the target tree test ----

  const GLOB_CHARS: set<char> := {'*', '?'}

  function Base(entry: string): string {
    TrimSlashes(Normalize(entry))
  }

  function GlobLiteralPrefix(entry: string): string {
    var p := Normalize(entry);
    if IsGlob(p) then LiteralPrefix(p, GLOB_CHARS) else ""
  }

  predicate TargetCovers(entry: string, path: string) {
    var prefix := GlobLiteralPrefix(entry);
    if prefix != "" && !StartsWith(path, prefix) then false
    else
      || GlobMatch(path, entry)
      || (!IsGlob(entry) && Base(entry) != "" && (path == Base(entry) || StartsWith(path, Base(entry) + "/")))
  }

  predicate TargetInScope(path: string, scope: seq<string>) {
    scope == [] || exists i :: 0 <= i < |scope| && TargetCovers(scope[i], path)
  }

  /** The quick test differs only on the bare name of a directory written with a trailing slash. */
  lemma TargetCoversExactly(entry: string, path: string)
    requires Normal(path)
    ensures TargetCovers(entry, path) <==>
            Covers(entry, path) || (!IsGlob(entry) && path == Base(entry) && path != "")
  {
    var p := Normalize(entry);
    if GlobMatch(path, entry) && IsGlob(p) {
      MatchKeepsPrefix(p, path, GLOB_CHARS);
    }
    NormalizeIdempotent(entry);
    if !IsGlob(entry) {
      LiteralMatch(p, path);
    }
  }

  lemma TargetInScopeAgrees(path: string, scope: seq<string>)
    requires Normal(path)
    ensures ScopeContains(path, scope) ==> TargetInScope(path, scope)
    ensures (forall e :: e in scope && !IsGlob(e) ==> Base(e) == Normalize(e)) ==>
              (ScopeContains(path, scope) <==> TargetInScope(path, scope))
  {
    if ScopeContains(path, scope) && scope != [] {
      var i :| 0 <= i < |scope| && Covers(scope[i], path);
      TargetCoversExactly(scope[i], path);
    }
    if TargetInScope(path, scope) && scope != [] && (forall e :: e in scope && !IsGlob(e) ==> Base(e) == Normalize(e)) {
      var i :| 0 <= i < |scope| && TargetCovers(scope[i], path);
      TargetCoversExactly(scope[i], path);
      if !Covers(scope[i], path) {
        assert scope[i] in scope;
        NormalizeIdempotent(scope[i]);
        LiteralMatch(Normalize(scope[i]), path);
      }
    }
  }

  // ---- witnesses ----

  const MAX_WITNESSES := 64

  function Choices(p: string): (string, string, nat)
    requires p != ""
    ensures 1 <= Choices(p).2 <= |p|
  {
    if TwoStars(p) && |p| > 2 && p[2] == '/' then ("", "x/", 3)
    else if TwoStars(p) then ("", "x", 2)
    else if p[0] == '*' then ("", "x", 1)
    else if p[0] == '?' then ("x", "x", 1)
    else ([p[0]], [p[0]], 1)
  }

  /** Every prefix continued by each choice, at most 64 kept. */
  function Spread(prefixes: seq<string>, a: string, b: string): (r: seq<string>)
    ensures forall w :: w in r ==> exists q :: q in prefixes && (w == q + a || w == q + b)
  {
    var all := Product(prefixes, a, b);
    assert |all| > MAX_WITNESSES ==> forall w :: w in all[..MAX_WITNESSES] ==> w in all;
    if |all| > MAX_WITNESSES then all[..MAX_WITNESSES] else all
  }

  function Product(prefixes: seq<string>, a: string, b: string): (r: seq<string>)
    ensures forall w :: w in r ==> exists q :: q in prefixes && (w == q + a || w == q + b)
  {
    if prefixes == [] then []
    else
      var last := prefixes[|prefixes| - 1];
      Product(prefixes[..|prefixes| - 1], a, b) + (if a == b then [last + a] else [last + a, last + b])
  }

  function Generated(prefixes: seq<string>, p: string): seq<string>
    decreases |p|
  {
    if p == "" then prefixes
    else Generated(Spread(prefixes, Choices(p).0, Choices(p).1), p[Choices(p).2..])
  }

  function GlobWitnesses(pattern: string): (r: seq<string>) {
    Matching(Generated([""], Normalize(pattern)), Normalize(pattern))
  }

  lemma GeneratedStep(witnesses: seq<string>, pattern: string, index: nat)
    requires index < |pattern|
    ensures var (a, b, width) := Choices(pattern[index..]);
            Generated(witnesses, pattern[index..]) == Generated(Spread(witnesses, a, b), pattern[index + width..])
  {
    var width := Choices(pattern[index..]).2;
    assert pattern[index..][width..] == pattern[index + width..];
  }

  lemma GeneratedEnd(witnesses: seq<string>)
    ensures Generated(witnesses, "") == witnesses
  {
  }

  /** The loop that grows the witnesses token by token. */
  method BuildWitnesses(raw: string) returns (r: seq<string>)
    ensures r == GlobWitnesses(raw)
  {
    hide GlobMatch, Choices, Generated, Spread, Matching;
    var pattern := Normalize(raw);
    var witnesses := [""];
    var index := 0;
    assert pattern[0..] == pattern;
    while index < |pattern|
      invariant 0 <= index <= |pattern|
      invariant Generated([""], pattern) == Generated(witnesses, pattern[index..])
    {
      var (a, b, width) := Choices(pattern[index..]);
      GeneratedStep(witnesses, pattern, index);
      witnesses, index := Spread(witnesses, a, b), index + width;
    }
    assert pattern[index..] == "";
    GeneratedEnd(witnesses);
    return Matching(witnesses, pattern);
  }

  function Matching(ws: seq<string>, pattern: string): (r: seq<string>)
    ensures forall w :: w in r <==> w in ws && GlobMatch(w, pattern)
  {
    if ws == [] then []
    else Matching(ws[..|ws| - 1], pattern) + (if GlobMatch(ws[|ws| - 1], pattern) then [ws[|ws| - 1]] else [])
  }

  /** Before any path normalization, every generated string matches the pattern it came from. */
  lemma SpreadFrom(prefixes: seq<string>, a: string, b: string, mid: string) returns (base: string, c: string)
    requires mid in Spread(prefixes, a, b)
    ensures base in prefixes && mid == base + c && (c == a || c == b)
  {
    hide Product;
    base :| base in prefixes && (mid == base + a || mid == base + b);
    c := if mid == base + a then a else b;
  }

  lemma Regrouped(w: string, mid: string, tail: string, base: string, c: string)
    requires w == mid + tail && mid == base + c
    ensures w == base + (c + tail)
  {
  }

  lemma GeneratedUnfolds(prefixes: seq<string>, p: string)
    requires p != ""
    ensures Generated(prefixes, p) == Generated(Spread(prefixes, Choices(p).0, Choices(p).1), p[Choices(p).2..])
  {
  }

  lemma {:induction false} GeneratedMatch(prefixes: seq<string>, p: string, w: string) returns (q: string, t: string)
    requires w in Generated(prefixes, p)
    ensures q in prefixes && w == q + t && Match(Tokens(p), t)
    decreases |p|
  {
    if p == "" {
      q, t := w, "";
    } else {
      GeneratedUnfolds(prefixes, p);
      hide Generated, Choices, Spread, Match, Tokens;
      var (a, b, n) := Choices(p);
      var mid, tail := GeneratedMatch(Spread(prefixes, a, b), p[n..], w);
      var base, c := SpreadFrom(prefixes, a, b, mid);
      ChoiceMatches(p, c, tail);
      Regrouped(w, mid, tail, base, c);
      q, t := base, c + tail;
    }
  }

  lemma ChoiceMatches(p: string, c: string, tail: string)
    requires p != "" && (c == Choices(p).0 || c == Choices(p).1)
    requires Match(Tokens(p[Choices(p).2..]), tail)
    ensures Match(Tokens(p), c + tail)
  {
    var rest := Tokens(p[Choices(p).2..]);
    if c == "" {
      assert c + tail == tail;
    } else {
      assert (c + tail)[0] == c[0];
      if |c| == 1 {
        assert (c + tail)[1..] == tail;
      } else {
        assert c == "x/" && (c + tail)[1] == '/' && (c + tail)[1..][1..] == tail;
        assert MatchBelow(rest, (c + tail)[1..]);
      }
    }
  }

  // ---- reported overlaps ----

  predicate PairOverlaps(a: string, b: string) {
    if !IsGlob(a) && !IsGlob(b) then
      Base(a) == Base(b) || StartsWith(Base(a), Base(b) + "/") || StartsWith(Base(b), Base(a) + "/")
    else if !IsGlob(a) then
      GlobMatch(Normalize(a), b) || GlobMatch(Normalize(a) + "/x", b)
    else if !IsGlob(b) then
      GlobMatch(Normalize(b), a) || GlobMatch(Normalize(b) + "/x", a)
    else
      || (exists i :: 0 <= i < |GlobWitnesses(a)| && GlobMatch(GlobWitnesses(a)[i], b))
      || (exists i :: 0 <= i < |GlobWitnesses(b)| && GlobMatch(GlobWitnesses(b)[i], a))
  }

  predicate PatternsOverlap(left: seq<string>, right: seq<string>, targets: seq<string>) {
    || (exists i :: 0 <= i < |targets| && ScopeContains(targets[i], left) && ScopeContains(targets[i], right))
    || (exists i, j :: 0 <= i < |left| && 0 <= j < |right| && PairOverlaps(left[i], right[j]))
  }

  /** A literal entry that names something: neither the empty path nor `.`, whatever its trailing slashes. */
  predicate Names(entry: string) {
    IsGlob(entry) || (Base(entry) != "" && Base(entry) != ".")
  }

  lemma {:induction false} TrimOfNormal(s: string)
    requires Normal(s)
    ensures Normal(TrimSlashes(s))
    ensures TrimSlashes(s) == s || s == TrimSlashes(s) + "/"
  {
    NormalShape(s);
    if s != "" && s[|s| - 1] == '/' {
      var t := s[..|s| - 1];
      assert s == t + "/";
      if t != "" { assert t[|t| - 1] != '/'; }
      assert NoDoubleSlash(t);
      DotSlashStart(t);
      DotSlashStart(s);
      NormalShape(t);
    }
  }

  lemma BaseShape(entry: string)
    requires !IsGlob(entry) && Names(entry)
    ensures var base := Base(entry);
            && Normal(base) && base != "" && base != "." && base[|base| - 1] != '/'
            && (Normalize(entry) == base || Normalize(entry) == base + "/") && Normal(Normalize(entry))
  {
    NormalizeIdempotent(entry);
    TrimOfNormal(Normalize(entry));
  }

  lemma ChildNormal(base: string)
    requires Normal(base) && base != "" && base != "." && base[|base| - 1] != '/'
    ensures Normal(base + "/x")
  {
    var child := base + "/x";
    NormalShape(base);
    assert NoDoubleSlash(child);
    DotSlashStart(child);
    DotSlashStart(base);
    NormalShape(child);
  }

  lemma ChildOfBase(entry: string)
    requires !IsGlob(entry) && Names(entry)
    ensures Normal(Base(entry) + "/x")
    ensures Normalize(Normalize(entry) + "/x") == Base(entry) + "/x"
    ensures Covers(entry, Base(entry) + "/x")
  {
    var base := Base(entry);
    BaseShape(entry);
    ChildNormal(base);
    if Normalize(entry) == base + "/" { CollapseBeforeX(base); }
    assert StartsWith(base + "/x", base + "/");
  }

  /** Collapsing the doubled slash of `base//x`. */
  lemma CollapseBeforeX(base: string)
    requires base != "" && Normal(base) && base[|base| - 1] != '/' && Normal(base + "/")
    ensures Normalize(base + "/" + "/x") == base + "/x"
  {
    var s := base + "/" + "/x";
    NormalShape(base);
    NormalShape(base + "/");
    assert Slashes(s) == s;
    DotSlashStart(s);
    DotSlashStart(base + "/");
    CollapseOnce(base);
  }

  lemma {:induction false} CollapseOnce(base: string)
    requires base != "" && NoDoubleSlash(base) && base[|base| - 1] != '/'
    ensures Collapse(base + "/" + "/x") == base + "/x"
  {
    var s := base + "/" + "/x";
    assert s[0] == base[0] && s[1..] == base[1..] + "/" + "/x";
    if |base| == 1 {
      assert s[1..] == "//x";
      assert Collapse("//x") == Collapse("/x") == "/x";
      assert Collapse(s) == [s[0]] + Collapse(s[1..]);
    } else {
      assert s[1] == base[1];
      CollapseOnce(base[1..]);
      assert base == [base[0]] + base[1..];
    }
  }

  /** A reported pair always has a string that both entries cover. */
  lemma PairOverlapReal(a: string, b: string) returns (w: string)
    requires PairOverlaps(a, b) && Names(a) && Names(b)
    ensures Covers(a, w) && Covers(b, w)
  {
    NormalizeIdempotent(a);
    NormalizeIdempotent(b);
    if !IsGlob(a) && !IsGlob(b) {
      w := LiteralPairWitness(a, b);
    } else if !IsGlob(a) {
      w := LiteralWitness(a, b);
    } else if !IsGlob(b) {
      w := LiteralWitness(b, a);
    } else if exists i :: 0 <= i < |GlobWitnesses(a)| && GlobMatch(GlobWitnesses(a)[i], b) {
      var i :| 0 <= i < |GlobWitnesses(a)| && GlobMatch(GlobWitnesses(a)[i], b);
      w := GlobWitnesses(a)[i];
      assert w in GlobWitnesses(a);
      NormalizeIdempotent(w);
    } else {
      var i :| 0 <= i < |GlobWitnesses(b)| && GlobMatch(GlobWitnesses(b)[i], a);
      w := GlobWitnesses(b)[i];
      assert w in GlobWitnesses(b);
      NormalizeIdempotent(w);
    }
  }

  lemma LiteralPairWitness(a: string, b: string) returns (w: string)
    requires !IsGlob(a) && !IsGlob(b) && Names(a) && Names(b) && PairOverlaps(a, b)
    ensures Covers(a, w) && Covers(b, w)
  {
    ChildOfBase(a);
    ChildOfBase(b);
    if StartsWith(Base(b), Base(a) + "/") {
      w := Base(b) + "/x";
      BeneathCovered(a, w);
    } else {
      w := Base(a) + "/x";
      BeneathCovered(b, w);
    }
  }

  lemma BeneathCovered(a: string, w: string)
    requires !IsGlob(a) && Names(a) && Normal(w) && StartsWith(w, Base(a) + "/")
    ensures Covers(a, w)
  {
  }

  lemma LiteralWitness(a: string, b: string) returns (w: string)
    requires !IsGlob(a) && Names(a)
    requires GlobMatch(Normalize(a), b) || GlobMatch(Normalize(a) + "/x", b)
    ensures Covers(a, w) && Covers(b, w)
  {
    NormalizeIdempotent(a);
    if GlobMatch(Normalize(a), b) {
      w := Normalize(a);
      LiteralMatch(w, w);
    } else {
      w := Base(a) + "/x";
      ChildOfBase(a);
    }
  }

  /** Some string is covered by both entries. */
  ghost predicate CommonString(a: string, b: string) {
    exists w :: Covers(a, w) && Covers(b, w)
  }

  /** A literal that names nothing covers only paths that normalize to it. */
  lemma NamelessCovers(a: string, w: string)
    requires !Names(a)
    ensures Covers(a, w) <==> Normalize(w) == Normalize(a)
  {
    var n := Normalize(w);
    NormalizeIdempotent(a);
    NormalizeIdempotent(w);
    LiteralMatch(Normalize(a), n);
    NormalShape(n);
    DotSlashStart(n);
    if Base(a) == "." && |n| >= 2 { assert ("." + "/")[1] == '/'; }
  }

  /** Coverage looks only at the normalized path. */
  lemma CoversNormalized(b: string, w: string, v: string)
    requires Normalize(w) == Normalize(v)
    ensures Covers(b, w) <==> Covers(b, v)
  {
  }

  /** An entry that names something, or one whose normal form the other covers. */
  predicate Backed(a: string, b: string) {
    Names(a) || Covers(b, Normalize(a))
  }

  /** A reported pair has a string both entries cover exactly when each side names something or is itself covered. */
  lemma ReportedPairExactly(a: string, b: string)
    requires PairOverlaps(a, b)
    ensures CommonString(a, b) <==> Backed(a, b) && Backed(b, a)
  {
    if Names(a) && Names(b) {
      var w := PairOverlapReal(a, b);
      assert Covers(a, w) && Covers(b, w);
    } else if !Names(a) {
      NamelessPair(a, b);
    } else {
      NamelessPair(b, a);
      CommonSymmetric(a, b);
    }
  }

  lemma CommonSymmetric(a: string, b: string)
    ensures CommonString(a, b) <==> CommonString(b, a)
  {
    forall w ensures Covers(a, w) && Covers(b, w) <==> Covers(b, w) && Covers(a, w) {}
  }

  lemma NamelessPair(a: string, b: string)
    requires !Names(a)
    ensures CommonString(a, b) <==> Backed(a, b) && Backed(b, a)
  {
    NormalizeIdempotent(a);
    NamelessCovers(a, Normalize(a));
    if Covers(b, Normalize(a)) {
      assert CommonString(a, b);
      if !Names(b) {
        NamelessCovers(b, Normalize(a));
        NamelessCovers(a, Normalize(b));
      }
    }
    forall w | Covers(a, w) && Covers(b, w) ensures Covers(b, Normalize(a)) {
      NamelessCovers(a, w);
      CoversNormalized(b, w, Normalize(a));
    }
  }

  ghost predicate RealTarget(left: seq<string>, right: seq<string>, targets: seq<string>) {
    exists i :: 0 <= i < |targets| && ScopeContains(targets[i], left) && ScopeContains(targets[i], right)
  }

  /** A reported pair backed on both sides. */
  predicate RealPair(a: string, b: string) {
    PairOverlaps(a, b) && Backed(a, b) && Backed(b, a)
  }

  predicate SomeRealPair(left: seq<string>, right: seq<string>) {
    exists i, j :: 0 <= i < |left| && 0 <= j < |right| && RealPair(left[i], right[j])
  }

  ghost predicate ReportedInCommon(a: string, b: string) {
    PairOverlaps(a, b) && CommonString(a, b)
  }

  /** Some reported pair of two scopes has a common string exactly when some reported pair is backed on both sides. */
  lemma ReportedScopesExactly(left: seq<string>, right: seq<string>)
    ensures (exists i, j :: 0 <= i < |left| && 0 <= j < |right| && ReportedInCommon(left[i], right[j]))
            <==> SomeRealPair(left, right)
  {
    hide PairOverlaps, Backed, CommonString;
    forall a, b ensures ReportedInCommon(a, b) <==> RealPair(a, b) {
      if PairOverlaps(a, b) { ReportedPairExactly(a, b); }
    }
  }

  /** A report backed by a target or by such a pair is real: a string is covered by both scopes. */
  lemma OverlapReal(left: seq<string>, right: seq<string>, targets: seq<string>) returns (w: string)
    requires RealTarget(left, right, targets) || SomeRealPair(left, right)
    ensures ScopeContains(w, left) && ScopeContains(w, right)
  {
    if RealTarget(left, right, targets) {
      var i :| 0 <= i < |targets| && ScopeContains(targets[i], left) && ScopeContains(targets[i], right);
      w := targets[i];
    } else {
      var i, j :| 0 <= i < |left| && 0 <= j < |right| && RealPair(left[i], right[j]);
      ReportedPairExactly(left[i], right[j]);
      w :| Covers(left[i], w) && Covers(right[j], w);
    }
  }

  /** Every report over entries that all name something is of that kind. */
  lemma NamedReportsReal(left: seq<string>, right: seq<string>, targets: seq<string>)
    requires PatternsOverlap(left, right, targets) && forall e :: e in left || e in right ==> Names(e)
    ensures RealTarget(left, right, targets) || SomeRealPair(left, right)
  {
    if !RealTarget(left, right, targets) {
      var i, j :| 0 <= i < |left| && 0 <= j < |right| && PairOverlaps(left[i], right[j]);
      assert RealPair(left[i], right[j]);
    }
  }

  /** The entry `.` is why `Names` is needed: nothing below it is covered, yet an overlap is reported. */
  lemma DotReportsTooMuch(w: string)
    ensures PairOverlaps(".", "x*")
    ensures !(Covers(".", w) && Covers("x*", w))
  {
    assert Normalize(".") == ".";
    assert Normalize("x*") == "x*";
    assert Normalize("./x") == "x";
    assert "." + "/x" == "./x";
    assert GlobMatch("./x", "x*");
    var n := Normalize(w);
    NormalizeIdempotent(w);
    NormalShape(n);
    LiteralMatch(".", n);
    assert StartsWith(n, "./") == StartsWith(n, "." + "/");
    assert Tokens("x*")[0] == Lit('x');
  }
}
