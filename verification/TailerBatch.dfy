/** What one batch of lines delivers, whatever its numbers and ids (integrations/openclaw-plugin/src/tailer.js). */
module TailerBatch {
  import opened Wrappers
  import opened Ordering
  import opened Lines
  import opened Tailer

  /** What line `i` reads as, if there is such a line. */
  ghost function EvAt(c: Codec<Ev>, lines: seq<Bytes>, i: int): Option<Ev> {
    if 0 <= i < |lines| then Read(c, lines[i]) else None
  }

  /** The line reads as an event with a number above the last one and an unseen id. */
  ghost predicate NewAt(c: Codec<Ev>, lines: seq<Bytes>, cur: Cursor, i: int, e: Ev) {
    EvAt(c, lines, i) == Some(e) && e.num > cur.last && e.body.id !in cur.seen
  }

  /** And no line before it has a new event with the same id. */
  ghost predicate FirstOfId(c: Codec<Ev>, lines: seq<Bytes>, cur: Cursor, i: int, e: Ev) {
    && NewAt(c, lines, cur, i, e)
    && forall j, f :: j < i && NewAt(c, lines, cur, j, f) ==> f.body.id != e.body.id
  }

  /** And of these none before it has the same number. */
  ghost predicate FirstOfNum(c: Codec<Ev>, lines: seq<Bytes>, cur: Cursor, i: int, e: Ev) {
    && FirstOfId(c, lines, cur, i, e)
    && forall j, f :: j < i && FirstOfId(c, lines, cur, j, f) ==> f.num != e.num
  }

  // ---- sorting keeps the file order of equal numbers ----

  /** The events with number `n`, in order. */
  function Of(n: nat, s: seq<Ev>): seq<Ev> {
    if s == [] then [] else (if s[0].num == n then [s[0]] else []) + Of(n, s[1..])
  }

  lemma {:induction false} OfConcat(n: nat, a: seq<Ev>, b: seq<Ev>)
    ensures Of(n, a + b) == Of(n, a) + Of(n, b)
  {
    if a == [] {
      assert a + b == b;
    } else {
      assert (a + b)[0] == a[0] && (a + b)[1..] == a[1..] + b;
      OfConcat(n, a[1..], b);
    }
  }

  lemma OfSnoc(n: nat, s: seq<Ev>, e: Ev)
    ensures Of(n, s + [e]) == Of(n, s) + if e.num == n then [e] else []
  {
    OfConcat(n, s, [e]);
    assert [e][1..] == [];
  }

  lemma {:induction false} OfMembers(n: nat, s: seq<Ev>)
    ensures forall e :: e in Of(n, s) <==> e in s && e.num == n
  {
    if s != [] {
      assert s == [s[0]] + s[1..];
      OfMembers(n, s[1..]);
    }
  }

  lemma {:induction false} InsertOf(x: Ev, s: seq<Ev>, n: nat)
    ensures Of(n, Insert(x, s, ByNum)) == Of(n, [x] + s)
  {
    if s != [] && !ByNum(x, s[0]) {
      InsertOf(x, s[1..], n);
      var t := Insert(x, s[1..], ByNum);
      assert ([s[0]] + t)[1..] == t && ([x] + s)[1..] == s && ([x] + s[1..])[1..] == s[1..];
    } else {
      assert Insert(x, s, ByNum) == [x] + s;
    }
  }

  lemma {:induction false} SortOf(s: seq<Ev>, n: nat)
    ensures Of(n, Sort(s, ByNum)) == Of(n, s)
  {
    if s != [] {
      SortOf(s[1..], n);
      InsertOf(s[0], Sort(s[1..], ByNum), n);
      var t := Sort(s[1..], ByNum);
      assert ([s[0]] + t)[1..] == t;
    }
  }

  lemma SortedLast(s: seq<Ev>, e: Ev)
    requires SortedBy(s, ByNum) && e in s
    ensures e.num <= s[|s| - 1].num
  {
    var i :| 0 <= i < |s| && s[i] == e;
    if i < |s| - 1 { assert ByNum(s[i], s[|s| - 1]); }
  }

  /** Of sorted events above `prev`, the first of each number is kept. */
  lemma {:induction false} RisingFirst(s: seq<Ev>, prev: nat)
    requires SortedBy(s, ByNum) && forall e :: e in s ==> e.num > prev
    ensures LastNum(Rising(s, prev), prev) == LastNum(s, prev)
    ensures forall e :: e in Rising(s, prev) <==> Of(e.num, s) != [] && Of(e.num, s)[0] == e
  {
    if s != [] {
      hide SortedBy, ByNum;
      var front, last := s[..|s| - 1], s[|s| - 1];
      assert s == front + [last];
      SortedFront(s);
      RisingFirst(front, prev);
      OfMembers(last.num, front);
      RisingOne(front, last, prev);
    }
  }

  lemma SortedFront(s: seq<Ev>)
    requires s != [] && SortedBy(s, ByNum)
    ensures SortedBy(s[..|s| - 1], ByNum) && LastNum(s[..|s| - 1], 0) <= s[|s| - 1].num
    ensures forall e :: e in s[..|s| - 1] ==> e.num <= LastNum(s[..|s| - 1], 0)
  {
    var front := s[..|s| - 1];
    if front != [] { assert ByNum(s[|front| - 1], s[|front|]); }
    forall e | e in front ensures e.num <= LastNum(front, 0) { SortedLast(front, e); }
  }

  lemma RisingOne(front: seq<Ev>, last: Ev, prev: nat)
    requires last.num > prev && LastNum(front, 0) <= last.num
    requires forall e :: e in front ==> prev < e.num <= LastNum(front, 0)
    requires LastNum(Rising(front, prev), prev) == LastNum(front, prev)
    requires forall e :: e in Rising(front, prev) <==> Of(e.num, front) != [] && Of(e.num, front)[0] == e
    ensures var s := front + [last];
            && LastNum(Rising(s, prev), prev) == LastNum(s, prev)
            && forall e :: e in Rising(s, prev) <==> Of(e.num, s) != [] && Of(e.num, s)[0] == e
  {
    var s := front + [last];
    assert s[..|s| - 1] == front;
    OfMembers(last.num, front);
    forall e: Ev ensures Of(e.num, s) == Of(e.num, front) + if last.num == e.num then [last] else [] {
      OfSnoc(e.num, front, last);
    }
    hide Of;
    if front != [] && last.num == LastNum(front, 0) {
      assert front[|front| - 1] in Of(last.num, front);
    } else {
      NoneOf(Of(last.num, front), front, last.num);
    }
  }

  lemma NoneOf(some: seq<Ev>, front: seq<Ev>, n: nat)
    requires forall e :: e in some <==> e in front && e.num == n
    ensures some == [] <==> forall e :: e in front ==> e.num != n
  {
    if some != [] { assert some[0] in some; }
  }

  // ---- which lines are accepted ----

  /** The accepted ids are the ids of the new events. */
  ghost predicate IdsAgree(c: Codec<Ev>, lines: seq<Bytes>, cur: Cursor, accepted: seq<Ev>) {
    && (forall i, e :: NewAt(c, lines, cur, i, e) ==> e.body.id in IdsOf(accepted))
    && (forall x :: x in IdsOf(accepted) ==> exists i, e :: NewAt(c, lines, cur, i, e) && e.body.id == x)
  }

  /** The accepted events begin, number by number, with the first line of that number. */
  ghost predicate NumsAgree(c: Codec<Ev>, lines: seq<Bytes>, cur: Cursor, accepted: seq<Ev>) {
    && (forall i, e :: FirstOfId(c, lines, cur, i, e) ==> e in accepted)
    && (forall i, e :: FirstOfNum(c, lines, cur, i, e) ==> Of(e.num, accepted) != [] && Of(e.num, accepted)[0] == e)
    && (forall e :: e in accepted ==> exists i, f :: FirstOfNum(c, lines, cur, i, f) && f.num == e.num)
  }

  lemma SameNew(c: Codec<Ev>, lines: seq<Bytes>, cur: Cursor, n: nat)
    requires n == |lines| - 1
    ensures forall i, e :: NewAt(c, lines, cur, i, e) <==>
                             if i == n then NewAt(c, lines, cur, n, e) else NewAt(c, lines[..n], cur, i, e)
  {
  }

  lemma SameFirstOfId(c: Codec<Ev>, lines: seq<Bytes>, cur: Cursor, n: nat)
    requires n == |lines| - 1
    ensures forall i, e :: FirstOfId(c, lines, cur, i, e) <==>
                             if i == n then FirstOfId(c, lines, cur, n, e) else FirstOfId(c, lines[..n], cur, i, e)
  {
    SameNew(c, lines, cur, n);
    NewInside(c, lines[..n], cur);
    NewInside(c, lines, cur);
    hide NewAt;
  }

  lemma SameFirstOfNum(c: Codec<Ev>, lines: seq<Bytes>, cur: Cursor, n: nat)
    requires n == |lines| - 1
    ensures forall i, e :: FirstOfNum(c, lines, cur, i, e) <==>
                             if i == n then FirstOfNum(c, lines, cur, n, e) else FirstOfNum(c, lines[..n], cur, i, e)
  {
    SameFirstOfId(c, lines, cur, n);
    FirstInside(c, lines[..n], cur);
    FirstInside(c, lines, cur);
    hide NewAt, FirstOfId;
  }

  lemma NewInside(c: Codec<Ev>, lines: seq<Bytes>, cur: Cursor)
    ensures forall i, e :: NewAt(c, lines, cur, i, e) ==> 0 <= i < |lines|
  {
  }

  lemma FirstInside(c: Codec<Ev>, lines: seq<Bytes>, cur: Cursor)
    ensures forall i, e :: FirstOfId(c, lines, cur, i, e) ==> 0 <= i < |lines|
  {
  }

  lemma OneEventAt(c: Codec<Ev>, lines: seq<Bytes>, cur: Cursor, i: int, e: Ev, f: Ev)
    requires NewAt(c, lines, cur, i, e) && NewAt(c, lines, cur, i, f)
    ensures e == f
  {
  }

  lemma IdsStep(c: Codec<Ev>, lines: seq<Bytes>, cur: Cursor, n: nat, before: seq<Ev>, after: seq<Ev>)
    requires n == |lines| - 1 && IdsAgree(c, lines[..n], cur, before)
    requires after == before || exists e :: NewAt(c, lines, cur, n, e) && after == before + [e]
    requires forall e :: NewAt(c, lines, cur, n, e) ==> e.body.id in IdsOf(after)
    ensures IdsAgree(c, lines, cur, after)
  {
    SameNew(c, lines, cur, n);
    NewInside(c, lines[..n], cur);
    hide NewAt;
    if after != before {
      var e :| NewAt(c, lines, cur, n, e) && after == before + [e];
      assert IdsOf(after) == IdsOf(before) + [e.body.id];
    }
    forall x | x in IdsOf(after) ensures exists i, e :: NewAt(c, lines, cur, i, e) && e.body.id == x {
      if x in IdsOf(before) {
        var i, e :| NewAt(c, lines[..n], cur, i, e) && e.body.id == x;
        assert NewAt(c, lines, cur, i, e);
      }
    }
  }

  /** Line `n` is the first of its id exactly if the id was not accepted before. */
  lemma FirstIfNotAccepted(c: Codec<Ev>, lines: seq<Bytes>, cur: Cursor, n: nat, before: seq<Ev>, e: Ev)
    requires n == |lines| - 1 && IdsAgree(c, lines[..n], cur, before) && NewAt(c, lines, cur, n, e)
    ensures FirstOfId(c, lines, cur, n, e) <==> e.body.id !in IdsOf(before)
  {
    SameNew(c, lines, cur, n);
    NewInside(c, lines[..n], cur);
    hide NewAt;
    if e.body.id in IdsOf(before) {
      var i, f :| NewAt(c, lines[..n], cur, i, f) && f.body.id == e.body.id;
      assert NewAt(c, lines, cur, i, f);
    }
  }

  lemma NumsSkip(c: Codec<Ev>, lines: seq<Bytes>, cur: Cursor, n: nat, accepted: seq<Ev>)
    requires n == |lines| - 1 && NumsAgree(c, lines[..n], cur, accepted)
    requires forall e :: !FirstOfId(c, lines, cur, n, e)
    ensures NumsAgree(c, lines, cur, accepted)
  {
    SameFirstOfId(c, lines, cur, n);
    SameFirstOfNum(c, lines, cur, n);
    NumIsId(c, lines, cur);
    FirstInside(c, lines[..n], cur);
    NumIsId(c, lines[..n], cur);
    hide FirstOfId, FirstOfNum, Of;
    forall e | e in accepted ensures exists i, f :: FirstOfNum(c, lines, cur, i, f) && f.num == e.num {
      var i, f :| FirstOfNum(c, lines[..n], cur, i, f) && f.num == e.num;
      assert FirstOfNum(c, lines, cur, i, f);
    }
  }

  lemma NumIsId(c: Codec<Ev>, lines: seq<Bytes>, cur: Cursor)
    ensures forall i, e :: FirstOfNum(c, lines, cur, i, e) ==> FirstOfId(c, lines, cur, i, e)
  {
  }

  /** An accepted line is the first of its number exactly if no event with that number was accepted before. */
  lemma FirstIfNewNumber(c: Codec<Ev>, lines: seq<Bytes>, cur: Cursor, n: nat, before: seq<Ev>, e: Ev)
    requires n == |lines| - 1 && NumsAgree(c, lines[..n], cur, before) && FirstOfId(c, lines, cur, n, e)
    ensures FirstOfNum(c, lines, cur, n, e) <==> forall f :: f in before ==> f.num != e.num
  {
    SameFirstOfId(c, lines, cur, n);
    NumIsId(c, lines[..n], cur);
    FirstInside(c, lines[..n], cur);
    hide FirstOfId, Of;
    if f :| f in before && f.num == e.num {
      var i, g :| FirstOfNum(c, lines[..n], cur, i, g) && g.num == f.num;
      assert FirstOfId(c, lines[..n], cur, i, g) && i < n;
      assert FirstOfId(c, lines, cur, i, g);
    }
  }

  lemma NumsExist(c: Codec<Ev>, lines: seq<Bytes>, cur: Cursor, n: nat, before: seq<Ev>, e: Ev)
    requires n == |lines| - 1 && NumsAgree(c, lines[..n], cur, before) && FirstOfId(c, lines, cur, n, e)
    ensures forall x :: x in before + [e] ==> exists i, f :: FirstOfNum(c, lines, cur, i, f) && f.num == x.num
  {
    SameFirstOfNum(c, lines, cur, n);
    FirstInside(c, lines[..n], cur);
    NumIsId(c, lines[..n], cur);
    FirstIfNewNumber(c, lines, cur, n, before, e);
    hide FirstOfId, FirstOfNum, Of;
    forall x | x in before + [e] ensures exists i, f :: FirstOfNum(c, lines, cur, i, f) && f.num == x.num {
      if x in before || !FirstOfNum(c, lines, cur, n, e) {
        var y :| y in before && y.num == x.num;
        var i, f :| FirstOfNum(c, lines[..n], cur, i, f) && f.num == y.num;
        assert FirstOfNum(c, lines, cur, i, f);
      }
    }
  }

  lemma NumsAccept(c: Codec<Ev>, lines: seq<Bytes>, cur: Cursor, n: nat, before: seq<Ev>, e: Ev)
    requires n == |lines| - 1 && NumsAgree(c, lines[..n], cur, before) && FirstOfId(c, lines, cur, n, e)
    requires forall f :: FirstOfId(c, lines, cur, n, f) ==> f == e
    ensures NumsAgree(c, lines, cur, before + [e])
  {
    var after := before + [e];
    SameFirstOfId(c, lines, cur, n);
    SameFirstOfNum(c, lines, cur, n);
    NumIsId(c, lines, cur);
    FirstIfNewNumber(c, lines, cur, n, before, e);
    NumsExist(c, lines, cur, n, before, e);
    hide FirstOfId, FirstOfNum;
    forall x: nat ensures Of(x, after) == Of(x, before) + if e.num == x then [e] else [] { OfSnoc(x, before, e); }
    OfMembers(e.num, before);
    hide Of;
    NoneOf(Of(e.num, before), before, e.num);
  }

  lemma {:induction false} AcceptedAgrees(c: Codec<Ev>, lines: seq<Bytes>, cur: Cursor)
    ensures var accepted := Accepted(c, lines, cur.seen, cur.last);
            && (forall e :: e in accepted ==> e.num > cur.last)
            && IdsAgree(c, lines, cur, accepted) && NumsAgree(c, lines, cur, accepted)
  {
    if lines != [] {
      var n := |lines| - 1;
      var before, after := Accepted(c, lines[..n], cur.seen, cur.last), Accepted(c, lines, cur.seen, cur.last);
      AcceptedAgrees(c, lines[..n], cur);
      AcceptedStep(c, lines, cur, n);
      if e :| NewAt(c, lines, cur, n, e) {
        FirstIfNotAccepted(c, lines, cur, n, before, e);
        forall f | NewAt(c, lines, cur, n, f) ensures f == e { OneEventAt(c, lines, cur, n, e, f); }
        hide IdsAgree, NumsAgree, NewAt;
        if e.body.id !in IdsOf(before) {
          assert IdsOf(after) == IdsOf(before) + [e.body.id];
          NumsAccept(c, lines, cur, n, before, e);
        } else {
          NumsSkip(c, lines, cur, n, before);
        }
      } else {
        NumsSkip(c, lines, cur, n, before);
      }
      IdsStep(c, lines, cur, n, before, after);
    }
  }

  lemma AcceptedStep(c: Codec<Ev>, lines: seq<Bytes>, cur: Cursor, n: nat)
    requires n == |lines| - 1
    ensures var before, after := Accepted(c, lines[..n], cur.seen, cur.last), Accepted(c, lines, cur.seen, cur.last);
            && ((forall e :: !NewAt(c, lines, cur, n, e)) ==> after == before)
            && forall e :: NewAt(c, lines, cur, n, e) ==>
                             after == if e.body.id in IdsOf(before) then before else before + [e]
  {
    hide Read;
    var e := Read(c, lines[n]);
    if e.Some? && e.value.num > cur.last && e.value.body.id !in cur.seen { assert NewAt(c, lines, cur, n, e.value); }
  }

  lemma NumOrder()
    ensures TotalPreorder(ByNum)
  {
  }

  lemma FirstOfItsNumber(c: Codec<Ev>, lines: seq<Bytes>, cur: Cursor, accepted: seq<Ev>, e: Ev)
    requires NumsAgree(c, lines, cur, accepted)
    ensures Of(e.num, accepted) != [] && Of(e.num, accepted)[0] == e
       <==> exists i :: FirstOfNum(c, lines, cur, i, e)
  {
    OfMembers(e.num, accepted);
    hide Of, FirstOfNum;
    if Of(e.num, accepted) != [] && Of(e.num, accepted)[0] == e {
      assert e in Of(e.num, accepted);
      var i, f :| FirstOfNum(c, lines, cur, i, f) && f.num == e.num;
      assert f == e;
    }
  }

  /**
   * Any batch delivers rising numbers above the last one, and exactly the first
   * line of each: of lines that read as events with new numbers and unseen ids,
   * the first with its id, and of these the first with its number.
   */
  lemma BatchExactly(c: Codec<Ev>, lines: seq<Bytes>, cur: Cursor, e: Ev)
    ensures StrictlyAbove(Batch(c, lines, cur), cur.last)
    ensures e in Batch(c, lines, cur) <==> exists i :: FirstOfNum(c, lines, cur, i, e)
  {
    var accepted := Accepted(c, lines, cur.seen, cur.last);
    var sorted := Sort(accepted, ByNum);
    RisingRises(sorted, cur.last);
    AcceptedAgrees(c, lines, cur);
    NumOrder();
    SortSorted(accepted, ByNum);
    SortMembers(accepted, ByNum);
    RisingFirst(sorted, cur.last);
    SortOf(accepted, e.num);
    FirstOfItsNumber(c, lines, cur, accepted, e);
  }
}
