/** What a match means: the text falls into pieces, one for each part of the pattern (tasks/scope.py). */
module GlobMeaning {
  import opened Scope
  import opened Conflicts

  function Joined(pieces: seq<string>): string {
    if pieces == [] then "" else pieces[0] + Joined(pieces[1..])
  }

  // ---- reading a pattern ----

  function Spelling(t: Token): string {
    match t
    case Lit(c) => [c]
    case AnyChar => "?"
    case Segment => "*"
    case AnyPath => "**"
    case DirStars => "**/"
  }

  function Spelt(ts: seq<Token>): string {
    if ts == [] then "" else Spelling(ts[0]) + Spelt(ts[1..])
  }

  /** No wildcard is left as a literal, and each run of stars is read in twos, taking the slash with it. */
  predicate LongestRead(ts: seq<Token>) {
    if ts == [] then true
    else
      && (ts[0].Lit? ==> ts[0].c != '*' && ts[0].c != '?')
      && (ts[0].Segment? ==> ts[1..] == [] || ts[1].Lit? || ts[1].AnyChar?)
      && (ts[0].AnyPath? ==> ts[1..] == [] || ts[1] != Lit('/'))
      && LongestRead(ts[1..])
  }

  lemma SpeltStart(ts: seq<Token>)
    requires ts != []
    ensures Spelt(ts) != "" && Spelt(ts)[0] == Spelling(ts[0])[0]
  {
  }

  lemma {:induction false} TokensSpell(p: string)
    ensures Spelt(Tokens(p)) == p && LongestRead(Tokens(p))
    decreases |p|
  {
    if p != "" {
      var n := if TwoStars(p) && |p| > 2 && p[2] == '/' then 3 else if TwoStars(p) then 2 else 1;
      var rest := Tokens(p[n..]);
      TokensSpell(p[n..]);
      assert Tokens(p)[1..] == rest;
      assert p == p[..n] + p[n..];
      if rest != [] { SpeltStart(rest); }
    }
  }

  lemma {:induction false} SpeltReads(ts: seq<Token>)
    requires LongestRead(ts)
    ensures Tokens(Spelt(ts)) == ts
  {
    if ts != [] {
      var p, head, rest := Spelt(ts), Spelling(ts[0]), Spelt(ts[1..]);
      SpeltReads(ts[1..]);
      assert p == head + rest && p[|head|..] == rest;
      if ts[1..] != [] {
        SpeltStart(ts[1..]);
        assert ts[1..][0] == ts[1];
      }
    }
  }

  /** The parts of a pattern are the one longest reading of it. */
  lemma ReadsExactly(p: string, ts: seq<Token>)
    ensures ts == Tokens(p) <==> Spelt(ts) == p && LongestRead(ts)
  {
    TokensSpell(p);
    if LongestRead(ts) { SpeltReads(ts); }
  }

  // ---- scope patterns ----

  /** `*` and `?` stay within a segment; `**` crosses slashes, and before a slash it stands for whole directories. */
  predicate Fits(t: Token, piece: string) {
    match t
    case Lit(c) => piece == [c]
    case AnyChar => |piece| == 1 && piece[0] != '/'
    case Segment => '/' !in piece
    case AnyPath => '\n' !in piece
    case DirStars => piece == "" || (piece[|piece| - 1] == '/' && '\n' !in piece[..|piece| - 1])
  }

  ghost predicate Explains(ts: seq<Token>, s: string, pieces: seq<string>) {
    |pieces| == |ts| && Joined(pieces) == s && forall i :: 0 <= i < |ts| ==> Fits(ts[i], pieces[i])
  }

  lemma PieceBefore(ts: seq<Token>, s: string, piece: string, pieces: seq<string>, rest: string)
    requires ts != [] && Fits(ts[0], piece) && Explains(ts[1..], rest, pieces) && s == piece + rest
    ensures Explains(ts, s, [piece] + pieces)
  {
    var all := [piece] + pieces;
    assert all[1..] == pieces;
    forall i | 0 <= i < |ts| ensures Fits(ts[i], all[i]) { if i > 0 { assert ts[i] == ts[1..][i - 1]; } }
  }

  /** The first piece grows by the character before it. */
  lemma LongerPiece(ts: seq<Token>, s: string, pieces: seq<string>) returns (more: seq<string>)
    requires ts != [] && s != "" && Explains(ts, s[1..], pieces) && Fits(ts[0], [s[0]] + pieces[0])
    ensures Explains(ts, s, more)
  {
    more := [[s[0]] + pieces[0]] + pieces[1..];
    assert more[1..] == pieces[1..];
    assert s == [s[0]] + s[1..];
    assert ([s[0]] + pieces[0]) + Joined(pieces[1..]) == [s[0]] + (pieces[0] + Joined(pieces[1..]));
  }

  lemma {:induction false} MatchPieces(ts: seq<Token>, s: string) returns (pieces: seq<string>)
    requires Match(ts, s)
    ensures Explains(ts, s, pieces)
    decreases |ts|, |s|, 0
  {
    if ts == [] { return []; }
    var rest := ts[1..];
    if (ts[0].Segment? || ts[0].AnyPath? || ts[0].DirStars?) && Match(rest, s) {
      pieces := MatchPieces(rest, s);
      PieceBefore(ts, s, "", pieces, s);
      pieces := [""] + pieces;
    } else if ts[0].DirStars? {
      var piece;
      piece, pieces := BelowPieces(rest, s);
      PieceBefore(ts, s, piece, pieces, Joined(pieces));
      pieces := [piece] + pieces;
    } else if ts[0].Segment? || ts[0].AnyPath? {
      pieces := MatchPieces(ts, s[1..]);
      assert Fits(ts[0], pieces[0]);
      pieces := LongerPiece(ts, s, pieces);
    } else {
      pieces := MatchPieces(rest, s[1..]);
      assert s == [s[0]] + s[1..];
      PieceBefore(ts, s, [s[0]], pieces, s[1..]);
      pieces := [[s[0]]] + pieces;
    }
  }

  lemma {:induction false} BelowPieces(rest: seq<Token>, s: string) returns (piece: string, pieces: seq<string>)
    requires MatchBelow(rest, s)
    ensures piece != "" && Fits(DirStars, piece)
    ensures Explains(rest, Joined(pieces), pieces) && s == piece + Joined(pieces)
    decreases |rest|, |s|, 1
  {
    assert s == [s[0]] + s[1..];
    if s[0] == '/' && Match(rest, s[1..]) {
      pieces := MatchPieces(rest, s[1..]);
      piece := "/";
    } else {
      piece, pieces := BelowPieces(rest, s[1..]);
      LongerDirectory(s[0], piece);
      assert ([s[0]] + piece) + Joined(pieces) == [s[0]] + (piece + Joined(pieces));
      piece := [s[0]] + piece;
    }
  }

  lemma LongerDirectory(c: char, piece: string)
    requires c != '\n' && piece != "" && Fits(DirStars, piece)
    ensures Fits(DirStars, [c] + piece)
  {
    var p := [c] + piece;
    assert p[..|p| - 1] == [c] + piece[..|piece| - 1];
  }

  lemma {:induction false} PiecesMatch(ts: seq<Token>, s: string, pieces: seq<string>)
    requires Explains(ts, s, pieces)
    ensures Match(ts, s)
    decreases |ts|, |s|, 0
  {
    if ts != [] {
      var rest, tail := ts[1..], Joined(pieces[1..]);
      forall i | 0 <= i < |rest| ensures Fits(rest[i], pieces[1..][i]) { assert rest[i] == ts[i + 1]; }
      assert Explains(rest, tail, pieces[1..]) && s == pieces[0] + tail;
      if pieces[0] == "" {
        assert s == tail;
        PiecesMatch(rest, tail, pieces[1..]);
      } else if ts[0].DirStars? {
        DirectoryMatches(rest, s, pieces[0], pieces[1..]);
      } else if ts[0].Lit? || ts[0].AnyChar? {
        assert s[1..] == tail;
        PiecesMatch(rest, tail, pieces[1..]);
      } else {
        var shorter := [pieces[0][1..]] + pieces[1..];
        assert s[0] == pieces[0][0] && s[1..] == pieces[0][1..] + tail && shorter[1..] == pieces[1..];
        assert pieces[0] == [pieces[0][0]] + pieces[0][1..];
        PiecesMatch(ts, s[1..], shorter);
      }
    }
  }

  lemma {:induction false} DirectoryMatches(rest: seq<Token>, s: string, piece: string, pieces: seq<string>)
    requires piece != "" && Fits(DirStars, piece)
    requires Explains(rest, Joined(pieces), pieces) && s == piece + Joined(pieces)
    ensures MatchBelow(rest, s)
    decreases |rest|, |s|, 1
  {
    assert s[0] == piece[0] && s[1..] == piece[1..] + Joined(pieces);
    if |piece| == 1 {
      assert s[1..] == Joined(pieces);
      PiecesMatch(rest, s[1..], pieces);
    } else {
      assert piece[..|piece| - 1] == [piece[0]] + piece[1..][..|piece| - 2];
      DirectoryMatches(rest, s[1..], piece[1..], pieces);
    }
  }

  /** A text matches exactly if it falls into such pieces. */
  lemma MatchMeans(ts: seq<Token>, s: string)
    ensures Match(ts, s) <==> exists pieces :: Explains(ts, s, pieces)
  {
    if Match(ts, s) {
      var pieces := MatchPieces(ts, s);
    }
    if pieces :| Explains(ts, s, pieces) {
      PiecesMatch(ts, s, pieces);
    }
  }

  // ---- shell-style patterns ----

  predicate FnFits(c: char, piece: string) {
    c == '*' || (|piece| == 1 && (c == '?' || piece[0] == c))
  }

  ghost predicate FnExplains(p: string, s: string, pieces: seq<string>) {
    |pieces| == |p| && Joined(pieces) == s && forall i :: 0 <= i < |p| ==> FnFits(p[i], pieces[i])
  }

  lemma FnPieceBefore(p: string, s: string, piece: string, pieces: seq<string>, rest: string)
    requires p != "" && FnFits(p[0], piece) && FnExplains(p[1..], rest, pieces) && s == piece + rest
    ensures FnExplains(p, s, [piece] + pieces)
  {
    var all := [piece] + pieces;
    assert all[1..] == pieces;
    forall i | 0 <= i < |p| ensures FnFits(p[i], all[i]) { if i > 0 { assert p[i] == p[1..][i - 1]; } }
  }

  lemma {:induction false} FnPieces(s: string, p: string) returns (pieces: seq<string>)
    requires FnMatch(s, p)
    ensures FnExplains(p, s, pieces)
    decreases |p|, |s|
  {
    if p == "" { return []; }
    if p[0] == '*' && FnMatch(s, p[1..]) {
      pieces := FnPieces(s, p[1..]);
      FnPieceBefore(p, s, "", pieces, s);
      pieces := [""] + pieces;
    } else if p[0] == '*' {
      pieces := FnPieces(s[1..], p);
      var more := [[s[0]] + pieces[0]] + pieces[1..];
      assert more[1..] == pieces[1..] && s == [s[0]] + s[1..];
      assert ([s[0]] + pieces[0]) + Joined(pieces[1..]) == [s[0]] + (pieces[0] + Joined(pieces[1..]));
      pieces := more;
    } else {
      pieces := FnPieces(s[1..], p[1..]);
      assert s == [s[0]] + s[1..];
      FnPieceBefore(p, s, [s[0]], pieces, s[1..]);
      pieces := [[s[0]]] + pieces;
    }
  }

  lemma {:induction false} PiecesFn(s: string, p: string, pieces: seq<string>)
    requires FnExplains(p, s, pieces)
    ensures FnMatch(s, p)
    decreases |p|, |s|
  {
    if p != "" {
      var tail := Joined(pieces[1..]);
      forall i | 0 <= i < |p| - 1 ensures FnFits(p[1..][i], pieces[1..][i]) { assert FnFits(p[i + 1], pieces[i + 1]); }
      assert FnExplains(p[1..], tail, pieces[1..]) && s == pieces[0] + tail;
      if pieces[0] == "" {
        assert s == tail;
        PiecesFn(s, p[1..], pieces[1..]);
      } else if p[0] == '*' {
        var shorter := [pieces[0][1..]] + pieces[1..];
        assert s[1..] == pieces[0][1..] + tail && shorter[1..] == pieces[1..];
        PiecesFn(s[1..], p, shorter);
      } else {
        assert s[1..] == tail;
        PiecesFn(s[1..], p[1..], pieces[1..]);
      }
    }
  }

  /** In the overlap test's matcher a star stands for any text, slashes included. */
  lemma FnMatchMeans(s: string, p: string)
    ensures FnMatch(s, p) <==> exists pieces :: FnExplains(p, s, pieces)
  {
    if FnMatch(s, p) {
      var pieces := FnPieces(s, p);
    }
    if pieces :| FnExplains(p, s, pieces) {
      PiecesFn(s, p, pieces);
    }
  }

  // ---- what the documentation promises of patterns ----

  /** `**` and a slash before a name match the name at any depth, and nothing else. */
  lemma AtAnyDepth(name: string, s: string)
    requires !IsGlob(name)
    ensures Match([DirStars] + Tokens(name), s) <==>
              exists dir: string :: s == dir + name && Fits(DirStars, dir)
  {
    var ts := [DirStars] + Tokens(name);
    assert ts[1..] == Tokens(name);
    if Match(ts, s) {
      if Match(Tokens(name), s) {
        LiteralMatch(name, s);
        assert s == "" + name && Fits(DirStars, "");
      } else {
        var piece, pieces := BelowPieces(Tokens(name), s);
        PiecesMatch(Tokens(name), Joined(pieces), pieces);
        LiteralMatch(name, Joined(pieces));
      }
    }
    if dir: string :| s == dir + name && Fits(DirStars, dir) {
      LiteralMatch(name, name);
      var pieces := MatchPieces(Tokens(name), name);
      if dir == "" { assert s == name; } else { DirectoryMatches(Tokens(name), s, dir, pieces); }
    }
  }

  lemma {:induction false} PiecesWithin(ts: seq<Token>, pieces: seq<string>)
    requires |pieces| == |ts| && forall i :: 0 <= i < |ts| ==> Fits(ts[i], pieces[i])
    requires forall i :: 0 <= i < |ts| ==> !ts[i].AnyPath? && !ts[i].DirStars?
    ensures Slashed(Joined(pieces)) == LitSlashes(ts)
  {
    if ts != [] {
      PiecesWithin(ts[1..], pieces[1..]);
      SlashedConcat(pieces[0], Joined(pieces[1..]));
      assert ts[0].Lit? ==> pieces[0][1..] == "";
      if !ts[0].Lit? { NoSlashed(pieces[0]); }
    }
  }

  function Slashed(s: string): nat {
    if s == "" then 0 else (if s[0] == '/' then 1 else 0) + Slashed(s[1..])
  }

  function LitSlashes(ts: seq<Token>): nat {
    if ts == [] then 0 else (if ts[0] == Lit('/') then 1 else 0) + LitSlashes(ts[1..])
  }

  lemma {:induction false} SlashedConcat(a: string, b: string)
    ensures Slashed(a + b) == Slashed(a) + Slashed(b)
  {
    if a == "" {
      assert a + b == b;
    } else {
      assert (a + b)[0] == a[0] && (a + b)[1..] == a[1..] + b;
      SlashedConcat(a[1..], b);
    }
  }

  lemma {:induction false} NoSlashed(s: string)
    requires '/' !in s
    ensures Slashed(s) == 0
  {
    if s != "" { NoSlashed(s[1..]); }
  }

  /** Without `**`, a match has just the slashes the pattern has: neither `*` nor `?` crosses one. */
  lemma StarsStayInSegments(ts: seq<Token>, s: string)
    requires Match(ts, s) && forall i :: 0 <= i < |ts| ==> !ts[i].AnyPath? && !ts[i].DirStars?
    ensures Slashed(s) == LitSlashes(ts)
  {
    var pieces := MatchPieces(ts, s);
    PiecesWithin(ts, pieces);
  }
}
