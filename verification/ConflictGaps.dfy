/** Every pair of entries: whether they share a path, and which sharing pairs the overlap test lets through. */
module ConflictGaps {
  import opened Conflicts
  import opened GlobMeaning
  import opened GlobMeet
  import opened Scope
  import opened Text

  // ---- every pair ----

  lemma {:induction false} StarMatches(s: string)
    ensures FnMatch(s, "*")
  {
    if s != "" {
      assert "*"[1..] == "";
      StarMatches(s[1..]);
    }
  }

  lemma {:induction false} BlankTrims(e: string)
    requires forall i :: 0 <= i < |e| ==> IsSpace(e[i])
    ensures TrimLeft(e) == ""
    decreases |e|
  {
    if e != "" { BlankTrims(e[1..]); }
  }

  /** A blank entry, and the root by itself, are read as everything. */
  lemma BlankOverlapsAll(e: string, other: string)
    requires e == "/" || e == "./" || forall i :: 0 <= i < |e| ==> IsSpace(e[i])
    ensures PatternsOverlap(e, other) && PatternsOverlap(other, e)
  {
    if e != "/" && e != "./" {
      BlankTrims(e);
    } else {
      assert Strip(e) == e;
      assert "./"[2..] == "";
    }
    assert Norm(e) == "*";
    StarMatches(Norm(other));
    assert Prefix("*") == "";
  }

  lemma LiteralPairOverlaps(a: string, b: string)
    requires !IsGlob(a) && !IsGlob(b) && '[' !in a && '[' !in b
    ensures PatternsOverlap(a, b) <==> Norm(a) == "*" || Norm(b) == "*" || Nested(Norm(a), Norm(b))
  {
    WildKept(a);
    WildKept(b);
    StarMatches(Norm(a));
    StarMatches(Norm(b));
  }

  /** An entry that names nothing covers at most its own normal form. */
  lemma NamelessCovers(e: string, path: string)
    requires !Entry(e) && Normal(path) && Covers(e, path)
    ensures path == Normalize(e)
  {
    NormalizeIdempotent(e);
    WildKept(e);
    LiteralMatch(Normalize(e), path);
  }

  lemma NamelessIsLiteral(e: string)
    requires !Entry(e)
    ensures !IsGlob(e) && Normal(Normalize(e)) && Covers(e, Normalize(e))
  {
    NormalizeIdempotent(e);
    WildKept(e);
    LiteralMatch(Normalize(e), Normalize(e));
  }

  lemma NamelessShares(e: string, f: string)
    requires !Entry(e)
    ensures ShareAPath(e, f) <==> Covers(f, Normalize(e))
  {
    NamelessIsLiteral(e);
    forall path | Normal(path) && Covers(e, path) && Covers(f, path) ensures Covers(f, Normalize(e)) {
      NamelessCovers(e, path);
    }
  }

  /** Do two entries share a path? Decided on the two strings. */
  predicate StringsMeet(e: string, f: string) {
    if !Entry(e) then Covers(f, Normalize(e))
    else if !Entry(f) then Covers(e, Normalize(f))
    else if !IsGlob(e) && !IsGlob(f) then Nested(Dir(e), Dir(f))
    else if !IsGlob(e) then GlobReaches(e, f)
    else if !IsGlob(f) then GlobReaches(f, e)
    else Meet(Tokens(Normalize(e)), Tokens(Normalize(f)), AtStart)
  }

  lemma GlobsShare(a: string, b: string)
    requires IsGlob(a) && IsGlob(b)
    ensures ShareAPath(a, b) <==> Meet(Tokens(Normalize(a)), Tokens(Normalize(b)), AtStart)
  {
    MeetIsExact(Tokens(Normalize(a)), Tokens(Normalize(b)));
    forall path | Normal(path)
      ensures Covers(a, path) && Covers(b, path)
         <==> Match(Tokens(Normalize(a)), path) && Match(Tokens(Normalize(b)), path) {
      CoversGlob(a, path);
      CoversGlob(b, path);
    }
  }

  lemma ShareSymmetric(e: string, f: string)
    ensures ShareAPath(e, f) <==> ShareAPath(f, e)
  {
    forall path | Normal(path) ensures Covers(e, path) && Covers(f, path) <==> Covers(f, path) && Covers(e, path) {}
  }

  /** Any two entries share a path exactly when the strings say so. */
  lemma SharingIsDecided(e: string, f: string)
    ensures ShareAPath(e, f) <==> StringsMeet(e, f)
  {
    hide Entry, ShareAPath, Covers, Nested, GlobReaches, Meet, IsGlob;
    ShareSymmetric(e, f);
    if !Entry(e) {
      NamelessShares(e, f);
    } else if !Entry(f) {
      NamelessShares(f, e);
    } else if !IsGlob(e) && !IsGlob(f) {
      NestingIsExact(e, f);
    } else if !IsGlob(e) {
      ReachIsExact(e, f);
    } else if !IsGlob(f) {
      ReachIsExact(f, e);
    } else {
      GlobsShare(e, f);
    }
  }

  /** The literal and the glob, as the overlap test reads them, do not meet. */
  predicate Unmet(literal: string, glob: string) {
    Norm(literal) != "*" && !LiteralMeetsGlob(Norm(literal), Norm(glob))
  }

  /** The guards that let a pair through, by the kinds of its entries. */
  predicate LetThrough(e: string, f: string) {
    if !IsGlob(e) && !IsGlob(f) then !Nested(Norm(e), Norm(f)) && Norm(e) != "*" && Norm(f) != "*"
    else if !IsGlob(e) then Unmet(e, f)
    else if !IsGlob(f) then Unmet(f, e)
    else !Comparable(Prefix(Norm(e)), Prefix(Norm(f)))
  }

  lemma MixedOverlaps(literal: string, glob: string)
    requires !IsGlob(literal) && IsGlob(glob) && '[' !in literal
    ensures PatternsOverlap(literal, glob) <==> !Unmet(literal, glob)
  {
    assert Prefix("*") == "" && HasWild("*");
    WildKept(literal);
    WildKept(glob);
    hide Norm, FnMatch, LiteralMeetsGlob, HasWild, Prefix, IsGlob;
  }

  lemma LetThroughExactly(e: string, f: string)
    requires '[' !in e && '[' !in f
    ensures PatternsOverlap(e, f) <==> !LetThrough(e, f)
  {
    hide PatternsOverlap, IsGlob, Unmet, Comparable, Nested, Norm;
    OverlapSymmetric(e, f);
    if !IsGlob(e) && !IsGlob(f) {
      LiteralPairOverlaps(e, f);
    } else if !IsGlob(e) {
      MixedOverlaps(e, f);
    } else if !IsGlob(f) {
      MixedOverlaps(f, e);
    } else {
      GlobPairOverlaps(e, f);
    }
  }

  /** Which pairs share a path and are reported disjoint, for any entries without `[`. */
  lemma PairExactly(e: string, f: string)
    requires '[' !in e && '[' !in f
    ensures ShareAPath(e, f) && !PatternsOverlap(e, f) <==> StringsMeet(e, f) && LetThrough(e, f)
  {
    hide ShareAPath, PatternsOverlap, StringsMeet, LetThrough;
    SharingIsDecided(e, f);
    LetThroughExactly(e, f);
  }

  // ---- the pairs it misses ----

  lemma {:induction false} FnMatchNeedsSlashes(s: string, p: string)
    requires FnMatch(s, p)
    ensures Slashed(p) <= Slashed(s)
    decreases |p|, |s|
  {
    if p != "" {
      if p[0] == '*' {
        if FnMatch(s, p[1..]) { FnMatchNeedsSlashes(s, p[1..]); } else { FnMatchNeedsSlashes(s[1..], p); }
      } else {
        FnMatchNeedsSlashes(s[1..], p[1..]);
      }
    }
  }

  lemma {:induction false} FnMatchKeepsLast(s: string, p: string)
    requires FnMatch(s, p) && p != "" && p[|p| - 1] !in WILD
    ensures s != "" && s[|s| - 1] == p[|p| - 1]
    decreases |p|, |s|
  {
    if p[0] == '*' {
      if FnMatch(s, p[1..]) { FnMatchKeepsLast(s, p[1..]); } else { FnMatchKeepsLast(s[1..], p); }
    } else if |p| > 1 {
      FnMatchKeepsLast(s[1..], p[1..]);
    }
  }

  lemma NormKeeps(p: string)
    requires p != "" && !IsSpace(p[0]) && !IsSpace(p[|p| - 1]) && p[|p| - 1] != '/' && !StartsWith(p, "./")
    ensures Norm(p) == p
  {
  }

  /** A glob with more slashes than the literal has, and no wildcard at its end, is not met. */
  lemma NotMet(literal: string, glob: string)
    requires Slashed(literal) < Slashed(glob) && Prefix(glob) == ""
    requires glob != "" && glob[|glob| - 1] !in WILD && glob[|glob| - 1] != 'x'
    ensures !LiteralMeetsGlob(literal, glob)
  {
    if FnMatch(literal, glob) { FnMatchNeedsSlashes(literal, glob); }
    if FnMatch(literal + "/x", glob) { FnMatchKeepsLast(literal + "/x", glob); }
  }

  lemma PairMissed(literal: string, glob: string)
    requires Norm(literal) == literal && Norm(glob) == glob && !HasWild(literal) && HasWild(glob)
    requires !LiteralMeetsGlob(literal, glob)
    ensures !PatternsOverlap(literal, glob)
  {
  }

  /** A file name and the glob for that name at any depth are reported disjoint. */
  lemma MissedFile()
    ensures !PatternsOverlap("a", "**/a")
    ensures Covers("a", "a") && Covers("**/a", "a")
  {
    NormKeeps("a");
    NormKeeps("**/a");
    assert Slashed("a") < Slashed("**/a") && Prefix("**/a") == "";
    NotMet("a", "**/a");
    PairMissed("a", "**/a");
    FileCovered();
  }

  lemma FileCovered()
    ensures Covers("a", "a") && Covers("**/a", "a")
  {
  }

  /** A directory and a glob naming a file in it are reported disjoint. */
  lemma MissedDirectory()
    ensures !PatternsOverlap("s", "*/a")
    ensures Covers("s", "s/a") && Covers("*/a", "s/a")
  {
    NormKeeps("s");
    NormKeeps("*/a");
    assert Slashed("s") < Slashed("*/a") && Prefix("*/a") == "";
    NotMet("s", "*/a");
    PairMissed("s", "*/a");
    DirectoryCovered();
  }

  lemma DirectoryCovered()
    ensures Covers("s", "s/a") && Covers("*/a", "s/a")
  {
  }

  lemma NormTrailingSpace(p: string)
    requires p != "" && !IsSpace(p[0]) && !IsSpace(p[|p| - 1]) && p[|p| - 1] != '/' && !StartsWith(p, "./")
    ensures Norm(p + " ") == p
  {
    var s := p + " ";
    assert s[0] == p[0] && s[|p|] == ' ' && s[..|p|] == p;
    assert IsSpace(' ') && TrimRight(s) == TrimRight(p);
  }

  lemma LiteralsUnmet(a: string, b: string, p: string, q: string)
    requires Norm(a) == p && Norm(b) == q && !HasWild(p) && !HasWild(q) && !Nested(p, q)
    ensures !PatternsOverlap(a, b)
  {
  }

  /** The directory `a `, with a space at its end, and a path below it are reported disjoint. */
  lemma MissedSpace()
    ensures !PatternsOverlap("a ", "a /b")
    ensures Covers("a ", "a /b") && Covers("a /b", "a /b")
  {
    NormTrailingSpace("a");
    assert "a" + " " == "a ";
    NormKeeps("a /b");
    assert ("a" + "/")[1] == '/' && "a /b"[1] == ' ';
    LiteralsUnmet("a ", "a /b", "a", "a /b");
    SpaceCovered();
  }

  lemma SpaceCovered()
    ensures Covers("a ", "a /b") && Covers("a /b", "a /b")
  {
    NormalShape("a ");
    NormalShape("a /b");
    CoversLiteral("a ", "a /b");
    CoversLiteral("a /b", "a /b");
  }

  // Globs are compared as spelled: `a//*` and `a/b*` are reported disjoint.
  lemma MissedGlobs()
    ensures !PatternsOverlap("a//*", "a/b*")
    ensures Covers("a//*", "a/b") && Covers("a/b*", "a/b")
  {
    hide Covers, Norm, Prefix;
    NormKeeps("a//*");
    NormKeeps("a/b*");
    FixedParts();
    GlobPairOverlaps("a//*", "a/b*");
    SpelledGlobCovers();
    NormalGlobCovers();
  }

  lemma FixedParts()
    ensures Prefix("a//*") == "a//" && Prefix("a/b*") == "a/b"
  {
  }

  lemma Spelling()
    ensures Normalize("a//*") == "a/*" && Normal("a/b")
  {
    assert "a//*"[1..] == "//*" && "//*"[1..] == "/*";
    assert Collapse("/*") == "/*" && Collapse("//*") == "/*";
    NormalShape("a/b");
  }

  lemma SpelledGlobCovers()
    ensures Covers("a//*", "a/b")
  {
    Spelling();
    hide Normalize, Normal;
    CoversGlob("a//*", "a/b");
  }

  lemma NormalGlobCovers()
    ensures Covers("a/b*", "a/b")
  {
  }
}
