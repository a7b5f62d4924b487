/** Whether two globs match a common normal path, decided on their tokens alone. */
module GlobMeet {
  import opened Scope

  // ---- normal paths, read from left to right ----

  /** What the characters read so far allow next. */
  datatype Place = AtStart | AfterDot | AfterSlash | Inside

  predicate CanRead(q: Place, c: char) {
    c != '\\' && (c == '/' ==> q.AtStart? || q.Inside?)
  }

  function PlaceAfter(q: Place, c: char): Place {
    if c == '/' then AfterSlash else if c == '.' && q.AtStart? then AfterDot else Inside
  }

  predicate Reads(q: Place, s: string)
    decreases |s|
  {
    s == "" || (CanRead(q, s[0]) && Reads(PlaceAfter(q, s[0]), s[1..]))
  }

  ghost predicate Allowed(q: Place, s: string) {
    && '\\' !in s && NoDoubleSlash(s)
    && (q.AfterSlash? || q.AfterDot? ==> s == "" || s[0] != '/')
    && (q.AtStart? ==> !(|s| >= 2 && s[0] == '.' && s[1] == '/'))
  }

  lemma {:induction false} ReadsAllowed(q: Place, s: string)
    ensures Reads(q, s) <==> Allowed(q, s)
    decreases |s|
  {
    if s != "" {
      ReadsAllowed(PlaceAfter(q, s[0]), s[1..]);
      AllowedStep(q, s[0], s[1..]);
      assert s == [s[0]] + s[1..];
    }
  }

  lemma AllowedStep(q: Place, c: char, t: string)
    ensures Allowed(q, [c] + t) <==> CanRead(q, c) && Allowed(PlaceAfter(q, c), t)
  {
    var s := [c] + t;
    assert '\\' !in s <==> c != '\\' && '\\' !in t;
    assert NoDoubleSlash(s) <==> NoDoubleSlash(t) && !(c == '/' && t != "" && t[0] == '/') by {
      assert s[1..] == t && forall i :: 0 <= i < |t| ==> s[i + 1] == t[i];
      if NoDoubleSlash(s) {
        if t != "" { assert s[0] != '/' || s[1] != '/'; }
        forall i, j | 0 <= i && j == i + 1 && j < |t| ensures t[i] != '/' || t[j] != '/' {
          assert s[i + 1] == t[i] && s[j + 1] == t[j];
        }
      }
    }
  }

  lemma NormalReads(s: string)
    ensures Normal(s) <==> Reads(AtStart, s)
  {
    NormalShape(s);
    DotSlashStart(s);
    ReadsAllowed(AtStart, s);
  }

  // ---- the meeting of two token lists ----

  predicate IsStar(t: Token) {
    t.Segment? || t.AnyPath?
  }

  predicate Takes(t: Token, c: char) {
    match t
    case Lit(x) => c == x
    case AnyChar => c != '/'
    case Segment => c != '/'
    case AnyPath => c != '\n'
    case DirStars => false
  }

  /** What is left once the first token has taken a character. */
  function Left(ts: seq<Token>): seq<Token>
    requires ts != []
  {
    if IsStar(ts[0]) then ts else ts[1..]
  }

  /** What `**` followed by a slash stands for unless it stands for nothing. */
  function Expanded(rest: seq<Token>): seq<Token> {
    [AnyPath, Lit('/')] + rest
  }

  function Weight(ts: seq<Token>): nat {
    if ts == [] then 0 else (if ts[0].DirStars? then 3 else 1) + Weight(ts[1..])
  }

  /** Can some text that may stand at `q` match both lists? */
  predicate Meet(ts: seq<Token>, us: seq<Token>, q: Place)
    decreases Weight(ts) + Weight(us), if q.Inside? then 0 else 1
  {
    if ts != [] && ts[0].DirStars? then
      assert Weight(Expanded(ts[1..])) == 2 + Weight(ts[1..]) by { ExpandedWeight(ts[1..]); }
      Meet(ts[1..], us, q) || Meet(Expanded(ts[1..]), us, q)
    else if us != [] && us[0].DirStars? then
      assert Weight(Expanded(us[1..])) == 2 + Weight(us[1..]) by { ExpandedWeight(us[1..]); }
      Meet(ts, us[1..], q) || Meet(ts, Expanded(us[1..]), q)
    else
      || (ts == [] && us == [])
      || (ts != [] && IsStar(ts[0]) && Meet(ts[1..], us, q))
      || (us != [] && IsStar(us[0]) && Meet(ts, us[1..], q))
      || (ts != [] && us != [] && Common(ts[0], us[0], q) && MeetLeft(ts, us, q))
  }

  /** Both first tokens take one character: a literal's, or `x`, after which anything may follow. */
  predicate MeetLeft(ts: seq<Token>, us: seq<Token>, q: Place)
    requires ts != [] && us != [] && !ts[0].DirStars? && !us[0].DirStars?
    decreases Weight(ts) + Weight(us), if q.Inside? then 0 else 1, 0
  {
    if IsStar(ts[0]) && IsStar(us[0]) then !q.Inside? && Meet(ts, us, Inside)
    else Meet(Left(ts), Left(us), PlaceAfter(q, Shared(ts[0], us[0])))
  }

  /** The character to take. */
  function Shared(t: Token, u: Token): char {
    if t.Lit? then t.c else if u.Lit? then u.c else 'x'
  }

  predicate Common(t: Token, u: Token, q: Place) {
    Takes(t, Shared(t, u)) && Takes(u, Shared(t, u)) && CanRead(q, Shared(t, u))
  }

  lemma ExpandedWeight(rest: seq<Token>)
    ensures Weight(Expanded(rest)) == 2 + Weight(rest)
  {
    assert Expanded(rest)[1..] == [Lit('/')] + rest && ([Lit('/')] + rest)[1..] == rest;
  }

  // ---- a meeting gives a common text ----

  lemma {:induction false} BelowExpanded(rest: seq<Token>, s: string)
    ensures Match(Expanded(rest), s) <==> MatchBelow(rest, s)
    decreases |s|
  {
    assert Expanded(rest)[1..] == [Lit('/')] + rest && ([Lit('/')] + rest)[1..] == rest;
    if s != "" { BelowExpanded(rest, s[1..]); }
  }

  lemma DirStarsMatch(ts: seq<Token>, s: string)
    requires ts != [] && ts[0].DirStars?
    ensures Match(ts, s) <==> Match(ts[1..], s) || Match(Expanded(ts[1..]), s)
  {
    BelowExpanded(ts[1..], s);
  }

  predicate Drops(ts: seq<Token>, s: string)
    requires ts != []
  {
    IsStar(ts[0]) && Match(ts[1..], s)
  }

  /** A list that does not begin with `**` and a slash drops its first star or takes a character. */
  lemma MatchSteps(ts: seq<Token>, s: string)
    requires ts != [] && !ts[0].DirStars?
    ensures Match(ts, s) <==> Drops(ts, s) || (s != "" && Takes(ts[0], s[0]) && Match(Left(ts), s[1..]))
  {
  }

  lemma {:induction false} MeetingFound(ts: seq<Token>, us: seq<Token>, q: Place) returns (s: string)
    requires Meet(ts, us, q)
    ensures Match(ts, s) && Match(us, s) && Reads(q, s)
    decreases Weight(ts) + Weight(us), if q.Inside? then 0 else 1
  {
    if ts != [] && ts[0].DirStars? {
      ExpandedWeight(ts[1..]);
      s := MeetingFound(if Meet(ts[1..], us, q) then ts[1..] else Expanded(ts[1..]), us, q);
      DirStarsMatch(ts, s);
    } else if us != [] && us[0].DirStars? {
      ExpandedWeight(us[1..]);
      s := MeetingFound(ts, if Meet(ts, us[1..], q) then us[1..] else Expanded(us[1..]), q);
      DirStarsMatch(us, s);
    } else if ts == [] && us == [] {
      s := "";
    } else if ts != [] && IsStar(ts[0]) && Meet(ts[1..], us, q) {
      s := MeetingFound(ts[1..], us, q);
      MatchSteps(ts, s);
    } else if us != [] && IsStar(us[0]) && Meet(ts, us[1..], q) {
      s := MeetingFound(ts, us[1..], q);
      MatchSteps(us, s);
    } else {
      var c := Shared(ts[0], us[0]);
      s := MeetingFound(Left(ts), Left(us), PlaceAfter(q, c));
      OneMore(ts, us, q, c, s);
      s := [c] + s;
    }
  }

  lemma OneMore(ts: seq<Token>, us: seq<Token>, q: Place, c: char, s: string)
    requires ts != [] && us != [] && !ts[0].DirStars? && !us[0].DirStars?
    requires Takes(ts[0], c) && Takes(us[0], c) && CanRead(q, c)
    requires Match(Left(ts), s) && Match(Left(us), s) && Reads(PlaceAfter(q, c), s)
    ensures Match(ts, [c] + s) && Match(us, [c] + s) && Reads(q, [c] + s)
  {
    assert ([c] + s)[1..] == s;
    MatchSteps(ts, [c] + s);
    MatchSteps(us, [c] + s);
  }

  // ---- a common text gives a meeting ----

  /** Nowhere is more allowed than inside a name. */
  lemma {:induction false} InsideAllowsMost(ts: seq<Token>, us: seq<Token>, q: Place)
    requires Meet(ts, us, q)
    ensures Meet(ts, us, Inside)
    decreases Weight(ts) + Weight(us), if q.Inside? then 0 else 1
  {
    if ts != [] && ts[0].DirStars? {
      ExpandedWeight(ts[1..]);
      InsideAllowsMost(if Meet(ts[1..], us, q) then ts[1..] else Expanded(ts[1..]), us, q);
    } else if us != [] && us[0].DirStars? {
      ExpandedWeight(us[1..]);
      InsideAllowsMost(ts, if Meet(ts, us[1..], q) then us[1..] else Expanded(us[1..]), q);
    } else if ts == [] && us == [] {
    } else if ts != [] && IsStar(ts[0]) && Meet(ts[1..], us, q) {
      InsideAllowsMost(ts[1..], us, q);
    } else if us != [] && IsStar(us[0]) && Meet(ts, us[1..], q) {
      InsideAllowsMost(ts, us[1..], q);
    } else if !(IsStar(ts[0]) && IsStar(us[0])) {
      InsideAllowsMost(Left(ts), Left(us), PlaceAfter(q, Shared(ts[0], us[0])));
    }
  }

  lemma {:induction false} MeetingExists(ts: seq<Token>, us: seq<Token>, q: Place, s: string)
    requires Match(ts, s) && Match(us, s) && Reads(q, s)
    ensures Meet(ts, us, q)
    decreases |s|, Weight(ts) + Weight(us)
  {
    if ts != [] && ts[0].DirStars? {
      ExpandedWeight(ts[1..]);
      DirStarsMatch(ts, s);
      MeetingExists(if Match(ts[1..], s) then ts[1..] else Expanded(ts[1..]), us, q, s);
    } else if us != [] && us[0].DirStars? {
      ExpandedWeight(us[1..]);
      DirStarsMatch(us, s);
      MeetingExists(ts, if Match(us[1..], s) then us[1..] else Expanded(us[1..]), q, s);
    } else if ts != [] && IsStar(ts[0]) && Match(ts[1..], s) {
      MeetingExists(ts[1..], us, q, s);
    } else if us != [] && IsStar(us[0]) && Match(us[1..], s) {
      MeetingExists(ts, us[1..], q, s);
    } else if ts != [] && us != [] {
      MatchSteps(ts, s);
      MatchSteps(us, s);
      MeetingExists(Left(ts), Left(us), PlaceAfter(q, s[0]), s[1..]);
      TakenTogether(ts, us, q, s[0]);
    }
  }

  lemma TakenTogether(ts: seq<Token>, us: seq<Token>, q: Place, c: char)
    requires ts != [] && us != [] && !ts[0].DirStars? && !us[0].DirStars?
    requires Takes(ts[0], c) && Takes(us[0], c) && CanRead(q, c)
    requires Meet(Left(ts), Left(us), PlaceAfter(q, c))
    ensures Meet(ts, us, q)
  {
    if !ts[0].Lit? && !us[0].Lit? {
      InsideAllowsMost(Left(ts), Left(us), PlaceAfter(q, c));
    }
  }

  /** Some normal path matches both token lists exactly when they meet. */
  lemma MeetIsExact(ts: seq<Token>, us: seq<Token>)
    ensures Meet(ts, us, AtStart) <==> exists path :: Normal(path) && Match(ts, path) && Match(us, path)
  {
    if Meet(ts, us, AtStart) {
      var path := MeetingFound(ts, us, AtStart);
      NormalReads(path);
    }
    forall path | Normal(path) && Match(ts, path) && Match(us, path) ensures Meet(ts, us, AtStart) {
      NormalReads(path);
      MeetingExists(ts, us, AtStart, path);
    }
  }
}
