/** From a crashing writer to the tailer: one log, appended to and polled at any of its byte states. */
module EventFlow {
  import opened Wrappers
  import opened Ordering
  import opened Lines
  import Jsonl
  import opened Tailer
  import opened Tailing

  type Call = (Msg, Option<nat>)

  // ---- the log at any byte ----

  /** Every byte state of a log is what some calls, the last perhaps cut shorter, leave. */
  lemma {:induction false} PrefixIsEmitted(c: Codec<Ev>, calls: seq<Call>, p: Bytes) returns (done: seq<Call>)
    requires p <= Jsonl.EmitAll(c, [], calls)
    ensures Jsonl.EmitAll(c, [], done) == p
    ensures |done| <= |calls| && forall i :: 0 <= i < |done| ==> done[i].0 == calls[i].0
    decreases |calls|
  {
    hide Jsonl.Emit;
    if calls == [] { return []; }
    var n := |calls| - 1;
    var before := Jsonl.EmitAll(c, [], calls[..n]);
    if p <= before {
      done := PrefixIsEmitted(c, calls[..n], p);
    } else {
      var cut := CutWithin(c, before, calls[n].0, calls[n].1, p);
      EmitMore(c, calls[..n], (calls[n].0, Some(cut)));
      done := calls[..n] + [(calls[n].0, Some(cut))];
    }
  }

  lemma ShorterPrefix(before: Bytes, all: Bytes, p: Bytes)
    requires before <= all && p <= all && |p| <= |before|
    ensures p <= before
  {
    assert p == before[..|p|];
  }

  lemma EmitMore(c: Codec<Ev>, calls: seq<Call>, call: Call)
    ensures Jsonl.EmitAll(c, [], calls + [call]) == Jsonl.Emit(c, Jsonl.EmitAll(c, [], calls), call.0, call.1)
  {
    assert (calls + [call])[..|calls|] == calls;
  }

  lemma CutWithin(c: Codec<Ev>, before: Bytes, body: Msg, cut: Option<nat>, p: Bytes) returns (k: nat)
    requires p <= Jsonl.Emit(c, before, body, cut) && !(p <= before)
    ensures Jsonl.Emit(c, before, body, Some(k)) == p
  {
    var all := Jsonl.Emit(c, before, body, cut);
    var w := Jsonl.Written(c, before, Jsonl.Rec(Jsonl.LastNum(Records(c, before)) + 1, body));
    assert before <= all && p == all[..|p|];
    if |p| <= |before| {
      ShorterPrefix(before, all, p);
      assert false;
    }
    k := |p| - |before|;
    assert all[..|p|] == before + w[..k];
    if k == |w| { assert w[..k] == w; }
  }

  function IdsGiven(calls: seq<Call>): seq<string> {
    seq(|calls|, i requires 0 <= i < |calls| => calls[i].0.id)
  }

  /** The records read back carry ids that were given, in order and without repetition. */
  lemma {:induction false} ReadIds(c: Codec<Ev>, calls: seq<Call>)
    requires Faithful(c) && Distinct(IdsGiven(calls))
    ensures var rs := Records(c, Jsonl.EmitAll(c, [], calls));
            Distinct(IdsOf(rs)) && forall x :: x in IdsOf(rs) ==> x in IdsGiven(calls)
    decreases |calls|
  {
    if calls == [] {
      NothingRead(c);
    } else {
      var n := |calls| - 1;
      var front, body := calls[..n], calls[n].0;
      GivenShape(calls, n);
      ReadIds(c, front);
      var content := Jsonl.EmitAll(c, [], front);
      Jsonl.EmitOneOrNone(c, content, body, calls[n].1);
      AddedId(Records(c, content), Records(c, Jsonl.EmitAll(c, [], calls)), IdsGiven(front), body);
    }
  }

  lemma GivenShape(calls: seq<Call>, n: nat)
    requires n == |calls| - 1 && Distinct(IdsGiven(calls))
    ensures IdsGiven(calls) == IdsGiven(calls[..n]) + [calls[n].0.id]
    ensures Distinct(IdsGiven(calls[..n])) && calls[n].0.id !in IdsGiven(calls[..n])
  {
    var all, front := IdsGiven(calls), IdsGiven(calls[..n]);
    forall i, j | 0 <= i < j < n ensures front[i] != front[j] { assert all[i] != all[j]; }
    forall i | 0 <= i < n ensures front[i] != calls[n].0.id { assert all[i] != all[n]; }
  }

  lemma AddedId(before: seq<Ev>, after: seq<Ev>, given: seq<string>, body: Msg)
    requires Distinct(IdsOf(before)) && (forall x :: x in IdsOf(before) ==> x in given) && body.id !in given
    requires after == before || (|after| == |before| + 1 && after[..|before|] == before && after[|before|].body == body)
    ensures Distinct(IdsOf(after)) && forall x :: x in IdsOf(after) ==> x in given + [body.id]
  {
    if after != before {
      assert IdsOf(after) == IdsOf(before) + [body.id];
    }
  }

  lemma CountedRises(rs: seq<Ev>)
    requires Jsonl.Counted(rs)
    ensures StrictlyAbove(rs, 0)
  {
  }

  lemma FewerIds(calls: seq<Call>, done: seq<Call>)
    requires Distinct(IdsGiven(calls)) && |done| <= |calls| && forall i :: 0 <= i < |done| ==> done[i].0 == calls[i].0
    ensures Distinct(IdsGiven(done))
  {
    forall i, j | 0 <= i < j < |done| ensures IdsGiven(done)[i] != IdsGiven(done)[j] {
      assert IdsGiven(calls)[i] != IdsGiven(calls)[j];
    }
  }

  /** What a writer with fresh ids leaves, stopped at any byte, reads as rising numbers and distinct ids. */
  lemma EveryByteState(c: Codec<Ev>, calls: seq<Call>, p: Bytes)
    requires Faithful(c) && Distinct(IdsGiven(calls)) && p <= Jsonl.EmitAll(c, [], calls)
    ensures SinkEvents(Records(c, p))
  {
    var done := PrefixIsEmitted(c, calls, p);
    FewerIds(calls, done);
    Jsonl.NumbersStayExact(c, done);
    CountedRises(Records(c, p));
    ReadIds(c, done);
  }

  // ---- the line limit ----

  lemma {:induction false} FirstLine(s: Bytes)
    ensures var line := Split(s)[0]; line <= s && NL !in line
  {
    if s != [] && s[0] != NL { FirstLine(s[1..]); }
  }

  lemma ShortTail(s: Bytes)
    requires ShortLines(s) && s != []
    ensures ShortLines(s[1..])
  {
    forall o | 0 <= o <= |s[1..]| ensures BreakInReach(s[1..], o) {
      assert BreakInReach(s, o + 1);
      if |s[1..]| - o >= MAX_LINE { assert s[1..][o..o + MAX_LINE] == s[o + 1..o + 1 + MAX_LINE]; }
    }
  }

  lemma LineOutOfReach(s: Bytes, line: Bytes)
    requires line <= s && NL !in line && |line| >= MAX_LINE
    ensures !BreakInReach(s, 0)
  {
    assert s[0..MAX_LINE] == line[..MAX_LINE];
  }

  lemma FirstLineShort(s: Bytes)
    requires ShortLines(s)
    ensures |Split(s)[0]| < MAX_LINE
  {
    FirstLine(s);
    assert BreakInReach(s, 0);
    var line := Split(s)[0];
    if |line| >= MAX_LINE {
      LineOutOfReach(s, line);
      assert false;
    }
  }

  lemma {:induction false} LinesShort(s: Bytes)
    requires ShortLines(s)
    ensures forall i :: 0 <= i < |Split(s)| ==> |Split(s)[i]| < MAX_LINE
  {
    FirstLineShort(s);
    if s != [] {
      ShortTail(s);
      LinesShort(s[1..]);
    }
  }

  lemma {:induction false} LimitIrrelevant(c: Codec<Ev>, lines: seq<Bytes>)
    requires forall i :: 0 <= i < |lines| ==> |lines[i]| < MAX_LINE
    ensures Pass(c, lines) == ParseLines(c, lines)
  {
    if lines != [] { LimitIrrelevant(c, lines[..|lines| - 1]); }
  }

  /** Below the limit the tailer's pass is what every other reader reads. */
  lemma PassIsRead(c: Codec<Ev>, content: Bytes)
    requires ShortLines(content)
    ensures WholePass(c, content) == Records(c, content)
  {
    LinesShort(content);
    LimitIrrelevant(c, Split(content));
  }

  lemma ShortPrefix(content: Bytes, p: Bytes)
    requires ShortLines(content) && p <= content
    ensures ShortLines(p)
  {
    forall o | 0 <= o <= |p| ensures BreakInReach(p, o) {
      assert BreakInReach(content, o);
      if |p| - o >= MAX_LINE { assert p[o..o + MAX_LINE] == content[o..o + MAX_LINE]; }
    }
  }

  // ---- exactly once ----

  /** Every state a poll can find is a good log. */
  lemma EveryStateGood(c: Codec<Ev>, id: string, calls: seq<Call>, polls: seq<Option<File>>)
    requires Faithful(c) && Distinct(IdsGiven(calls)) && ShortLines(Jsonl.EmitAll(c, [], calls))
    requires Watches(id, polls, Jsonl.EmitAll(c, [], calls))
    ensures AllGood(c, polls)
  {
    forall i | 0 <= i < |polls| && polls[i].Some? ensures GoodLog(c, polls[i].value.content) {
      assert Finds(id, polls[i], Jsonl.EmitAll(c, [], calls));
      StateGood(c, calls, polls[i].value.content);
    }
  }

  lemma StateGood(c: Codec<Ev>, calls: seq<Call>, p: Bytes)
    requires Faithful(c) && Distinct(IdsGiven(calls)) && ShortLines(Jsonl.EmitAll(c, [], calls))
    requires p <= Jsonl.EmitAll(c, [], calls)
    ensures GoodLog(c, p)
  {
    ShortPrefix(Jsonl.EmitAll(c, [], calls), p);
    EveryByteState(c, calls, p);
    PassIsRead(c, p);
  }

  /**
   * A writer that may crash at any byte of any append, and a tailer that polls
   * before there is a log and at any byte states of its growth up to `now`: what
   * is delivered is exactly the records of the log up to the cursor, a leading
   * part of what the writer recorded.
   */
  lemma ExactlyOnce(c: Codec<Ev>, id: string, calls: seq<Call>, polls: seq<Option<File>>, now: Bytes, maxRead: nat)
    requires Faithful(c) && Distinct(IdsGiven(calls)) && ShortLines(Jsonl.EmitAll(c, [], calls))
    requires Watches(id, polls, now) && now <= Jsonl.EmitAll(c, [], calls) && maxRead >= MAX_LINE
    ensures var s := PollAll(c, START, polls, maxRead);
            && s.cursor.offset <= |now| && s.delivered == Records(c, now[..s.cursor.offset])
            && s.delivered <= Records(c, Jsonl.EmitAll(c, [], calls))
  {
    var all := Jsonl.EmitAll(c, [], calls);
    WatchesMore(id, polls, now, all);
    EveryStateGood(c, id, calls, polls);
    DeliveredIsOnePass(c, id, polls, now, maxRead);
    ReadUpTo(c, all, now, PollAll(c, START, polls, maxRead).cursor.offset);
  }

  lemma WatchesMore(id: string, polls: seq<Option<File>>, now: Bytes, later: Bytes)
    requires Watches(id, polls, now) && now <= later
    ensures Watches(id, polls, later)
  {
    forall i | 0 <= i < |polls| ensures Finds(id, polls[i], later) { assert Finds(id, polls[i], now); }
  }

  lemma ReadUpTo(c: Codec<Ev>, all: Bytes, last: Bytes, offset: nat)
    requires ShortLines(all) && last <= all && offset <= |last| && Closed(last[..offset])
    ensures WholePass(c, last[..offset]) == Records(c, last[..offset]) <= Records(c, all)
  {
    var read := last[..offset];
    assert read <= all && all == read + all[offset..];
    ShortPrefix(all, read);
    PassIsRead(c, read);
    ClosedConcat(c, read, all[offset..]);
  }

  /**
   * Polled often enough after the writer is done, the tailer has delivered every
   * complete line, whatever byte states of the log it polled before, or none.
   */
  lemma AllDelivered(c: Codec<Ev>, id: string, calls: seq<Call>, polls: seq<Option<File>>, n: nat, maxRead: nat)
    requires Faithful(c) && Distinct(IdsGiven(calls)) && ShortLines(Jsonl.EmitAll(c, [], calls))
    requires Watches(id, polls, Jsonl.EmitAll(c, [], calls))
    requires maxRead >= MAX_LINE && n >= |Jsonl.EmitAll(c, [], calls)|
    ensures var all := Jsonl.EmitAll(c, [], calls);
            var s := PollAll(c, START, polls + Same(File(id, all), n), maxRead);
            && s.cursor.offset <= |all| && NL !in all[s.cursor.offset..]
            && s.delivered == Records(c, all[..s.cursor.offset])
            && (Closed(all) ==> s.delivered == Records(c, all))
  {
    hide Watches, ShortLines, PollAll;
    var all := Jsonl.EmitAll(c, [], calls);
    EveryStateGood(c, id, calls, polls);
    StateGood(c, calls, all);
    Drains(c, polls, File(id, all), n, maxRead);
    var offset := PollAll(c, START, polls + Same(File(id, all), n), maxRead).cursor.offset;
    ReadUpTo(c, all, all, offset);
    if Closed(all) { ClosedIsConsumed(all, offset); }
  }

  lemma LastIsBreak(all: Bytes, offset: nat)
    requires offset < |all| && Closed(all)
    ensures NL in all[offset..]
  {
    assert all[offset..][|all| - 1 - offset] == all[|all| - 1];
  }

  lemma ClosedIsConsumed(all: Bytes, offset: nat)
    requires offset <= |all| && Closed(all) && NL !in all[offset..]
    ensures all[..offset] == all
  {
    if offset < |all| {
      LastIsBreak(all, offset);
      assert false;
    }
  }
}
