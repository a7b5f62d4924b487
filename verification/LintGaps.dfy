/** Which overlaps the plan lint's pair test reports and which it misses (runs/plan_lint.py). */
module LintGaps {
  import opened Scope
  import opened Conflicts
  import L = Lint

  lemma NormalizedCovers(e: string, w: string)
    ensures Covers(e, w) <==> Covers(e, Normalize(w))
  {
    NormalizeIdempotent(w);
  }

  /** What covers the two literals is at or beneath both, so one is at or beneath the other. */
  lemma CoveredIsNested(a: string, b: string, w: string)
    requires !IsGlob(a) && !IsGlob(b) && L.Names(a) && L.Names(b) && Covers(a, w) && Covers(b, w)
    ensures L.PairOverlaps(a, b)
  {
    var n := Normalize(w);
    NormalizeIdempotent(w);
    NormalizedCovers(a, w);
    NormalizedCovers(b, w);
    hide Covers, Normalize, L.Base, L.Names;
    LiteralCovers(a, n);
    LiteralCovers(b, n);
    NestedPrefixes(L.Base(a), L.Base(b), n);
  }

  lemma NestedPrefixes(x: string, y: string, n: string)
    requires StartsWith(n + "/", x + "/") && StartsWith(n + "/", y + "/")
    ensures x == y || StartsWith(x, y + "/") || StartsWith(y, x + "/")
  {
    var all := n + "/";
    assert x + "/" == all[..|x| + 1] && y + "/" == all[..|y| + 1];
    if |x| < |y| {
      assert y == all[..|y|] && x + "/" == y[..|x| + 1];
    } else if |y| < |x| {
      assert x == all[..|x|] && y + "/" == x[..|y| + 1];
    } else {
      assert x == all[..|x|] && y == all[..|y|];
    }
  }

  lemma LiteralCovers(a: string, n: string)
    requires !IsGlob(a) && L.Names(a) && Normal(n) && Covers(a, n)
    ensures StartsWith(n + "/", L.Base(a) + "/")
  {
    NormalizeIdempotent(a);
    L.BaseShape(a);
    LiteralMatch(Normalize(a), n);
  }

  /** Two literals that name something are reported exactly when some string is covered by both. */
  lemma LiteralPairExactly(a: string, b: string)
    requires !IsGlob(a) && !IsGlob(b) && L.Names(a) && L.Names(b)
    ensures L.PairOverlaps(a, b) <==> L.CommonString(a, b)
  {
    if L.PairOverlaps(a, b) {
      var w := L.PairOverlapReal(a, b);
      assert Covers(a, w) && Covers(b, w);
    }
    if L.CommonString(a, b) {
      var w :| Covers(a, w) && Covers(b, w);
      CoveredIsNested(a, b, w);
    }
  }

  /** The order of the two entries does not matter. */
  lemma PairSymmetric(a: string, b: string)
    ensures L.PairOverlaps(a, b) <==> L.PairOverlaps(b, a)
  {
    hide GlobMatch, L.GlobWitnesses, L.Base, Normalize;
  }

  /**
   * A literal and a glob that share a path are missed exactly when the glob
   * matches neither the literal nor a file `x` directly beneath it.
   */
  lemma GlobMissedExactly(a: string, b: string)
    requires Entry(a) && !IsGlob(a) && IsGlob(b)
    ensures ShareAPath(a, b) && !L.PairOverlaps(a, b) <==>
            GlobReaches(a, b) && !Match(Tokens(Normalize(b)), Normalize(a))
            && !Match(Tokens(Normalize(b)), Normalize(Normalize(a) + "/x"))
  {
    ReachIsExact(a, b);
    NormalizeIdempotent(a);
    hide Match, Tokens, ShareAPath, GlobReaches;
  }

  /** A target that both scopes cover is always reported. */
  lemma TargetReported(left: seq<string>, right: seq<string>, targets: seq<string>, t: string)
    requires t in targets && ScopeContains(t, left) && ScopeContains(t, right)
    ensures L.PatternsOverlap(left, right, targets)
  {
    var i :| 0 <= i < |targets| && targets[i] == t;
  }

  ghost predicate LiteralNames(scope: seq<string>) {
    scope != [] && forall i :: 0 <= i < |scope| ==> !IsGlob(scope[i]) && L.Names(scope[i])
  }

  /** Scopes of literals are reported exactly when they have a string in common, whatever the targets are. */
  lemma LiteralScopesExactly(left: seq<string>, right: seq<string>, targets: seq<string>)
    requires LiteralNames(left) && LiteralNames(right)
    ensures L.PatternsOverlap(left, right, targets) <==>
            exists w :: ScopeContains(w, left) && ScopeContains(w, right)
  {
    hide Covers, L.PairOverlaps;
    if exists i, j :: 0 <= i < |left| && 0 <= j < |right| && L.PairOverlaps(left[i], right[j]) {
      var i, j :| 0 <= i < |left| && 0 <= j < |right| && L.PairOverlaps(left[i], right[j]);
      var w := L.PairOverlapReal(left[i], right[j]);
      assert ScopeContains(w, left) && ScopeContains(w, right);
    }
    if exists w :: ScopeContains(w, left) && ScopeContains(w, right) {
      var w :| ScopeContains(w, left) && ScopeContains(w, right);
      var i :| 0 <= i < |left| && Covers(left[i], w);
      var j :| 0 <= j < |right| && Covers(right[j], w);
      CoveredIsNested(left[i], right[j], w);
    }
  }

  lemma TheirNormalForms()
    ensures Normalize("a") == "a" && Normalize("a/b") == "a/b"
    ensures Normalize("a/b*") == "a/b*" && Normalize("a/x") == "a/x"
  {
  }

  lemma ItsTokens()
    ensures Tokens("a/b*") == [Lit('a'), Lit('/'), Lit('b'), Segment]
  {
    assert Tokens("*") == [Segment];
    assert Tokens("b*") == [Lit('b'), Segment];
    assert Tokens("/b*") == [Lit('/'), Lit('b'), Segment];
  }

  /** The directory `a` and the pattern `a/b*` share a file, and are not reported. */
  lemma MissedBeneath()
    ensures !L.PairOverlaps("a", "a/b*")
    ensures Covers("a", "a/b") && Covers("a/b*", "a/b")
  {
    TheirNormalForms();
    ItsTokens();
    assert "a" + "/x" == "a/x";
    hide Normalize, Tokens, L.GlobWitnesses;
    assert TrimSlashes("a") == "a";
  }

  // ---- the sampled strings of a glob ----

  /** Every wildcard stands for nothing or for its one sample, and a question mark for `x`. */
  predicate Sampled(ts: seq<Token>, w: string) {
    if ts == [] then w == ""
    else
      match ts[0]
      case Lit(c) => w != "" && w[0] == c && Sampled(ts[1..], w[1..])
      case AnyChar => w != "" && w[0] == 'x' && Sampled(ts[1..], w[1..])
      case DirStars => Sampled(ts[1..], w) || (StartsWith(w, "x/") && Sampled(ts[1..], w[2..]))
      case _ => Sampled(ts[1..], w) || (w != "" && w[0] == 'x' && Sampled(ts[1..], w[1..]))
  }

  function Stars(ts: seq<Token>): nat {
    if ts == [] then 0 else (if ts[0].Lit? || ts[0].AnyChar? then 0 else 1) + Stars(ts[1..])
  }

  function Doubled(n: nat, k: nat): nat
    decreases k
  {
    if k == 0 then n else Doubled(2 * n, k - 1)
  }

  lemma {:induction false} DoubledGrows(n: nat, k: nat)
    ensures n <= Doubled(n, k)
    decreases k
  {
    if k > 0 { DoubledGrows(2 * n, k - 1); }
  }

  lemma {:induction false} ProductAll(prefixes: seq<string>, a: string, b: string, q: string)
    ensures |L.Product(prefixes, a, b)| == (if a == b then |prefixes| else 2 * |prefixes|)
    ensures q in prefixes ==> q + a in L.Product(prefixes, a, b) && q + b in L.Product(prefixes, a, b)
    decreases |prefixes|
  {
    if prefixes != [] {
      var front, last := prefixes[..|prefixes| - 1], prefixes[|prefixes| - 1];
      ProductAll(front, a, b, q);
      assert prefixes == front + [last];
    }
  }

  /** Within the cap, spreading keeps every combination. */
  lemma SpreadHas(prefixes: seq<string>, a: string, b: string, q: string)
    requires (if a == b then |prefixes| else 2 * |prefixes|) <= 64
    ensures |L.Spread(prefixes, a, b)| == (if a == b then |prefixes| else 2 * |prefixes|)
    ensures q in prefixes ==> q + a in L.Spread(prefixes, a, b) && q + b in L.Spread(prefixes, a, b)
  {
    ProductAll(prefixes, a, b, q);
    hide L.Product;
  }

  /** One choice for the first part, then the rest. */
  predicate Via(p: string, c: string, t: string)
    requires p != ""
  {
    StartsWith(t, c) && Sampled(Tokens(p[L.Choices(p).2..]), t[|c|..])
  }

  lemma ReadChoice(p: string)
    requires p != ""
    ensures var (a, b, n) := L.Choices(p); Tokens(p) != [] && Tokens(p)[1..] == Tokens(p[n..])
    ensures var (a, b, n) := L.Choices(p);
            match Tokens(p)[0]
            case Lit(c) => a == b == [c]
            case AnyChar => a == b == "x"
            case DirStars => a == "" && b == "x/"
            case _ => a == "" && b == "x"
  {
  }

  lemma SampledChoice(p: string, t: string)
    requires p != ""
    ensures var (a, b, n) := L.Choices(p);
            && (Sampled(Tokens(p), t) <==> Via(p, a, t) || Via(p, b, t))
            && Stars(Tokens(p)) == (if a == b then 0 else 1) + Stars(Tokens(p[n..]))
  {
    ReadChoice(p);
    hide Tokens, L.Choices;
    assert t[0..] == t;
  }

  /** The strings grown from `prefixes` along the pattern. */
  ghost predicate Grown(prefixes: seq<string>, p: string, w: string) {
    exists k :: 0 <= k <= |w| && w[..k] in prefixes && Sampled(Tokens(p), w[k..])
  }

  lemma CutAt(w: string, k: nat, q: string, c: string)
    requires k <= |w| && w[..k] == q + c
    ensures w[..|q|] == q && StartsWith(w[|q|..], c) && w[|q|..][|c|..] == w[k..]
  {
    assert w[..k][..|q|] == q && w[..k][|q|..] == c;
    assert w[|q|..][..|c|] == w[..k][|q|..];
  }

  lemma CutTo(w: string, j: nat, c: string)
    requires j <= |w| && StartsWith(w[j..], c)
    ensures j + |c| <= |w| && w[..j + |c|] == w[..j] + c && w[j..][|c|..] == w[j + |c|..]
  {
    assert w[j..][..|c|] == c;
  }

  lemma GrownBack(prefixes: seq<string>, p: string, w: string)
    requires p != "" && var (a, b, n) := L.Choices(p); Grown(L.Spread(prefixes, a, b), p[n..], w)
    ensures Grown(prefixes, p, w)
  {
    var (a, b, n) := L.Choices(p);
    hide Sampled, Tokens, L.Spread, L.Choices;
    var k :| 0 <= k <= |w| && w[..k] in L.Spread(prefixes, a, b) && Sampled(Tokens(p[n..]), w[k..]);
    var q, c := L.SpreadFrom(prefixes, a, b, w[..k]);
    CutAt(w, k, q, c);
    SampledChoice(p, w[|q|..]);
    assert Via(p, c, w[|q|..]);
  }

  lemma GrownForth(prefixes: seq<string>, p: string, w: string)
    requires p != "" && var (a, b, n) := L.Choices(p); (if a == b then |prefixes| else 2 * |prefixes|) <= 64
    requires Grown(prefixes, p, w)
    ensures var (a, b, n) := L.Choices(p); Grown(L.Spread(prefixes, a, b), p[n..], w)
  {
    var (a, b, n) := L.Choices(p);
    hide Sampled, Tokens, L.Spread, L.Choices;
    var j :| 0 <= j <= |w| && w[..j] in prefixes && Sampled(Tokens(p), w[j..]);
    SampledChoice(p, w[j..]);
    var c := if Via(p, a, w[j..]) then a else b;
    CutTo(w, j, c);
    SpreadHas(prefixes, a, b, w[..j]);
    assert w[..j + |c|] in L.Spread(prefixes, a, b);
  }

  lemma {:induction false} GeneratedAll(prefixes: seq<string>, p: string, w: string)
    requires Doubled(|prefixes|, Stars(Tokens(p))) <= 64
    ensures w in L.Generated(prefixes, p) <==> Grown(prefixes, p, w)
    decreases |p|
  {
    if p == "" {
      assert w[..|w|] == w;
    } else {
      var (a, b, n) := L.Choices(p);
      SampledChoice(p, "");
      DoubledGrows(if a == b then |prefixes| else 2 * |prefixes|, Stars(Tokens(p[n..])));
      SpreadHas(prefixes, a, b, "");
      L.GeneratedUnfolds(prefixes, p);
      hide L.Generated, L.Choices, L.Spread, Sampled, Tokens;
      GeneratedAll(L.Spread(prefixes, a, b), p[n..], w);
      if Grown(prefixes, p, w) {
        GrownForth(prefixes, p, w);
      } else if Grown(L.Spread(prefixes, a, b), p[n..], w) {
        GrownBack(prefixes, p, w);
      }
    }
  }

  /** Up to six stars, the samples of a glob are all its sampled strings that still match once normalized. */
  lemma SamplesExactly(pattern: string, w: string)
    requires Stars(Tokens(Normalize(pattern))) <= 6
    ensures w in L.GlobWitnesses(pattern) <==>
              Sampled(Tokens(Normalize(pattern)), w) && GlobMatch(w, Normalize(pattern))
  {
    var p := Normalize(pattern);
    var k := Stars(Tokens(p));
    assert Doubled(1, k) <= 64 by { SixDoublings(k); }
    GeneratedAll([""], p, w);
    assert w[..0] == "" && w[0..] == w;
    hide Sampled, Tokens, Normalize, GlobMatch, L.Generated;
  }

  lemma SixDoublings(k: nat)
    requires k <= 6
    ensures Doubled(1, k) <= 64
  {
    assert Doubled(64, 0) == 64;
    assert Doubled(32, 1) == 64 && Doubled(32, 0) == 32;
    assert Doubled(16, 2) == 64;
    assert Doubled(8, 3) == 64;
    assert Doubled(4, 4) == 64;
    assert Doubled(2, 5) == 64;
    assert Doubled(1, 6) == 64;
  }

  /** A sampled string of the first glob that both match. */
  ghost predicate SampleInBoth(a: string, b: string) {
    exists w :: Sampled(Tokens(Normalize(a)), w) && GlobMatch(w, a) && GlobMatch(w, b)
  }

  lemma SampleFound(a: string, b: string)
    requires Stars(Tokens(Normalize(a))) <= 6
    ensures SampleInBoth(a, b) <==>
            exists i :: 0 <= i < |L.GlobWitnesses(a)| && GlobMatch(L.GlobWitnesses(a)[i], b)
  {
    hide Sampled, Tokens, Stars, Normalize, Match;
    NormalizeIdempotent(a);
    forall w ensures w in L.GlobWitnesses(a) <==> Sampled(Tokens(Normalize(a)), w) && GlobMatch(w, a) {
      SamplesExactly(a, w);
    }
    if SampleInBoth(a, b) {
      var w :| Sampled(Tokens(Normalize(a)), w) && GlobMatch(w, a) && GlobMatch(w, b);
      var i :| 0 <= i < |L.GlobWitnesses(a)| && L.GlobWitnesses(a)[i] == w;
    }
    if exists i :: 0 <= i < |L.GlobWitnesses(a)| && GlobMatch(L.GlobWitnesses(a)[i], b) {
      var i :| 0 <= i < |L.GlobWitnesses(a)| && GlobMatch(L.GlobWitnesses(a)[i], b);
      assert L.GlobWitnesses(a)[i] in L.GlobWitnesses(a);
    }
  }

  /** Globs of up to six stars each are reported exactly when both match some sampled string of one of them. */
  lemma GlobPairExactly(a: string, b: string)
    requires IsGlob(a) && IsGlob(b)
    requires Stars(Tokens(Normalize(a))) <= 6 && Stars(Tokens(Normalize(b))) <= 6
    ensures L.PairOverlaps(a, b) <==> SampleInBoth(a, b) || SampleInBoth(b, a)
  {
    SampleFound(a, b);
    SampleFound(b, a);
    hide SampleInBoth, Stars, Tokens, Normalize, Match, L.GlobWitnesses;
  }
}
