/** Tailing logs that grow, rotate and shrink: what many polls together deliver (openclaw-plugin/src/tailer.js). */
module Tailing {
  import opened Wrappers
  import opened Ordering
  import opened Lines
  import Jsonl
  import opened Tailer

  // ---- short lines, closed prefixes ----

  predicate BreakInReach(content: Bytes, o: nat)
    requires o <= |content|
  {
    |content| - o >= MAX_LINE ==> NL in content[o..o + MAX_LINE]
  }

  /** Every piece between newlines, and the torn end, is below the line limit. */
  ghost predicate ShortLines(content: Bytes) {
    forall o | 0 <= o <= |content| :: BreakInReach(content, o)
  }

  lemma SinkPrefix(a: seq<Ev>, b: seq<Ev>)
    requires SinkEvents(a + b)
    ensures SinkEvents(a)
  {
    var all := a + b;
    forall i | 0 <= i < |a| ensures a[i].num > 0 { assert all[i] == a[i]; }
    forall i, j | 0 <= i < j < |a| ensures a[i].num < a[j].num { assert all[i].num < all[j].num; }
    forall i, j | 0 <= i < j < |a| ensures IdsOf(a)[i] != IdsOf(a)[j] { assert IdsOf(all)[i] != IdsOf(all)[j]; }
  }

  lemma StretchOfSink(c: Codec<Ev>, content: Bytes, upto: nat)
    requires upto <= |content| && Closed(content[..upto]) && SinkEvents(WholePass(c, content))
    ensures SinkEvents(WholePass(c, content[..upto]))
  {
    assert content == content[..upto] + content[upto..];
    PassClosed(c, content[..upto], content[upto..]);
    SinkPrefix(WholePass(c, content[..upto]), WholePass(c, content[upto..]));
  }

  // ---- one poll of a growing log ----

  function After(cur: Cursor, log: File, upto: nat, events: seq<Ev>): Cursor {
    Cursor(upto, LastNum(events, cur.last), Some(log.id), LastSeen(cur.seen + IdsOf(events)))
  }

  lemma BreakInChunk(content: Bytes, o: nat, maxRead: nat)
    requires o + MAX_LINE <= |content| && BreakInReach(content, o) && maxRead >= MAX_LINE
    ensures NL in Chunk(content, o, maxRead)
  {
    assert Chunk(content, o, maxRead)[..MAX_LINE] == content[o..o + MAX_LINE];
  }

  /** Without a complete line in reach there is none at all, and the piece is short. */
  lemma WaitsForLine(content: Bytes, o: nat, maxRead: nat)
    requires o <= |content| && ShortLines(content) && maxRead >= MAX_LINE
    requires NL !in Chunk(content, o, maxRead)
    ensures Chunk(content, o, maxRead) == content[o..] && |content| - o < MAX_LINE
  {
    assert BreakInReach(content, o);
    if |content| - o >= MAX_LINE {
      BreakInChunk(content, o, maxRead);
      assert false;
    }
  }

  /** What a poll consumes is a stretch of the content that ends with a newline. */
  lemma StretchShape(content: Bytes, o: nat, maxRead: nat)
    requires o <= |content| && Consumable(Chunk(content, o, maxRead)) > 0
    ensures var chunk := Chunk(content, o, maxRead); var n := Consumable(chunk);
            o + n <= |content| && chunk[..n] == content[o..o + n] && Closed(content[..o + n])
  {
    var chunk := Chunk(content, o, maxRead);
    var upto := o + Consumable(chunk);
    assert chunk[..upto - o] == content[o..upto];
    assert content[upto - 1] == chunk[upto - o - 1];
  }

  /** The two outcomes of polling a short-lined log from a cursor that belongs to it. */
  lemma PollCases(c: Codec<Ev>, log: File, cur: Cursor, maxRead: nat)
    requires cur.offset <= |log.content| && (cur.fileId.Some? ==> cur.fileId.value == log.id)
    requires ShortLines(log.content) && maxRead >= MAX_LINE
    ensures var p := PollOnce(c, Some(log), cur, maxRead);
            || (NL !in log.content[cur.offset..] && p == Poll([], cur.(fileId := Some(log.id))))
            || (exists upto: nat :: StretchPolled(c, log, cur, upto, p))
  {
    hide Batch;
    var chunk := Chunk(log.content, cur.offset, maxRead);
    var n := Consumable(chunk);
    if n == 0 {
      assert chunk[0..] == chunk;
      WaitsForLine(log.content, cur.offset, maxRead);
    } else {
      var upto := cur.offset + n;
      StretchShape(log.content, cur.offset, maxRead);
      assert StretchPolled(c, log, cur, upto, PollOnce(c, Some(log), cur, maxRead));
    }
  }

  ghost predicate StretchPolled(c: Codec<Ev>, log: File, cur: Cursor, upto: nat, p: Poll) {
    && cur.offset < upto <= |log.content| && Closed(log.content[..upto])
    && p.events == Batch(c, Split(log.content[cur.offset..upto]), cur)
    && p.cursor == After(cur, log, upto, p.events)
  }

  /**
   * The records of a log that are new after `before`: above its last number and
   * with none of its ids.
   */
  function NewRecords(c: Codec<Ev>, content: Bytes, before: seq<Ev>): seq<Ev> {
    Fresh(WholePass(c, content), IdsOf(before), LastNum(before, 0))
  }

  /** The new records up to the cursor have been delivered after `before`, and the cursor stands at a line start. */
  ghost predicate UpTo(c: Codec<Ev>, log: File, before: seq<Ev>, s: Session) {
    && s.cursor.offset <= |log.content| && Closed(log.content[..s.cursor.offset])
    && SinkEvents(WholePass(c, log.content[..s.cursor.offset]))
    && s.delivered == NewRecords(c, log.content[..s.cursor.offset], before)
    && Remembers(before + s.delivered, s.cursor)
    && (s.cursor.fileId.Some? ==> s.cursor.fileId.value == log.id)
  }

  /** Ids of `before` that occur again are recent enough to be remembered while these events are read. */
  ghost predicate Recalled(before: seq<Ev>, events: seq<Ev>) {
    forall e :: e in events && e.body.id in IdsOf(before) ==>
      exists k :: 0 <= k < |before| && |before| + |events| <= k + MAX_SEEN && before[k].body.id == e.body.id
  }

  /** The number comes after everything kept of the records before it. */
  lemma NumberAfter(before: seq<Ev>, read: seq<Ev>, e: Ev)
    requires SinkEvents(read + [e])
    ensures var kept := Fresh(read, IdsOf(before), LastNum(before, 0));
            e.num > LastNum(before + kept, 0) <==> e.num > LastNum(before, 0)
  {
    var kept := Fresh(read, IdsOf(before), LastNum(before, 0));
    if kept != [] {
      var x := kept[|kept| - 1];
      assert x in read && x.num > LastNum(before, 0);
      var i :| 0 <= i < |read| && read[i] == x;
      assert (read + [e])[i] == x && (read + [e])[|read|] == e;
      assert (before + kept)[|before + kept| - 1] == x;
    } else {
      assert before + kept == before;
    }
  }

  /** The id is remembered exactly if it is one of `before`. */
  lemma IdRemembered(before: seq<Ev>, read: seq<Ev>, e: Ev, all: seq<Ev>)
    requires SinkEvents(read + [e]) && Recalled(before, all) && e in all && |read| < |all|
    ensures var kept := Fresh(read, IdsOf(before), LastNum(before, 0));
            e.body.id in LastSeen(IdsOf(before + kept)) <==> e.body.id in IdsOf(before)
  {
    var kept := Fresh(read, IdsOf(before), LastNum(before, 0));
    var ids := IdsOf(before + kept);
    if e.body.id in LastSeen(ids) {
      var k :| 0 <= k < |ids| && ids[k] == e.body.id;
      if k >= |before| { NotAmong(read, kept[k - |before|], e); } else { assert IdsOf(before)[k] == e.body.id; }
    }
    if e.body.id in IdsOf(before) {
      var k :| 0 <= k < |before| && |before| + |all| <= k + MAX_SEEN && before[k].body.id == e.body.id;
      assert ids[k] == e.body.id;
      if |ids| > MAX_SEEN { assert LastSeen(ids)[k - (|ids| - MAX_SEEN)] == ids[k]; }
    }
  }

  lemma NotAmong(read: seq<Ev>, x: Ev, e: Ev)
    requires SinkEvents(read + [e]) && x in read
    ensures x.body.id != e.body.id
  {
    var i :| 0 <= i < |read| && read[i] == x;
    assert IdsOf(read + [e])[i] == x.body.id && IdsOf(read + [e])[|read|] == e.body.id;
  }

  lemma PickOne(read: seq<Ev>, piece: seq<Ev>, e: Ev)
    requires SinkEvents(read + piece) && e in piece
    ensures SinkEvents(read + [e])
  {
    var all, one := read + piece, read + [e];
    var k :| 0 <= k < |piece| && piece[k] == e;
    assert all[|read| + k] == e;
    forall i | 0 <= i < |one| ensures one[i].num > 0 {
      assert one[i] == if i < |read| then all[i] else all[|read| + k];
    }
    forall i, j | 0 <= i < j < |one| ensures one[i].num < one[j].num && IdsOf(one)[i] != IdsOf(one)[j] {
      assert one[i] == all[i] && IdsOf(all)[i] == one[i].body.id;
      if j == |read| {
        assert one[j] == all[|read| + k] && IdsOf(all)[|read| + k] == one[j].body.id;
      } else {
        assert one[j] == all[j] && IdsOf(all)[j] == one[j].body.id;
      }
    }
  }

  lemma LastPart(read: seq<Ev>, piece: seq<Ev>)
    requires SinkEvents(read + piece)
    ensures SinkEvents(piece)
  {
    var all := read + piece;
    forall i | 0 <= i < |piece| ensures piece[i].num > 0 { assert all[|read| + i] == piece[i]; }
    forall i, j | 0 <= i < j < |piece| ensures piece[i].num < piece[j].num && IdsOf(piece)[i] != IdsOf(piece)[j] {
      assert all[|read| + i] == piece[i] && all[|read| + j] == piece[j];
      assert IdsOf(all)[|read| + i] != IdsOf(all)[|read| + j];
    }
  }

  /** The memory of the cursor separates new from old just as all of `before` would. */
  lemma MemorySuffices(before: seq<Ev>, read: seq<Ev>, piece: seq<Ev>, all: seq<Ev>, cur: Cursor)
    requires SinkEvents(read + piece) && Recalled(before, all) && read + piece <= all
    requires Remembers(before + Fresh(read, IdsOf(before), LastNum(before, 0)), cur)
    ensures Fresh(piece, cur.seen, cur.last) == Fresh(piece, IdsOf(before), LastNum(before, 0))
  {
    forall e | e in piece
      ensures e.num > cur.last && e.body.id !in cur.seen <==> e.num > LastNum(before, 0) && e.body.id !in IdsOf(before)
    {
      PickOne(read, piece, e);
      NumberAfter(before, read, e);
      assert e in read + piece && e in all;
      IdRemembered(before, read, e, all);
    }
    FreshSame(piece, cur.seen, cur.last, IdsOf(before), LastNum(before, 0));
  }

  /** A poll that consumes up to `upto` delivers exactly the new records of that stretch. */
  lemma StretchDelivered(c: Codec<Ev>, log: File, before: seq<Ev>, all: seq<Ev>, s: Session, upto: nat, piece: Bytes)
    requires UpTo(c, log, before, s) && s.cursor.offset <= upto <= |log.content| && Closed(log.content[..upto])
    requires piece == log.content[s.cursor.offset..upto] && SinkEvents(WholePass(c, log.content[..upto]))
    requires Recalled(before, all) && WholePass(c, log.content[..upto]) <= all
    ensures var events := Batch(c, Split(piece), s.cursor);
            UpTo(c, log, before, Session(s.delivered + events, After(s.cursor, log, upto, events)))
  {
    hide Batch, Recalled, SinkEvents, Fresh, Remembers;
    var read, new' := WholePass(c, log.content[..s.cursor.offset]), WholePass(c, piece);
    assert log.content[..upto] == log.content[..s.cursor.offset] + piece;
    PassClosed(c, log.content[..s.cursor.offset], piece);
    LastPart(read, new');
    SinkRises(new');
    BatchIsFresh(c, Split(piece), s.cursor, 0);
    MemorySuffices(before, read, new', all, s.cursor);
    FreshConcat(read, new', IdsOf(before), LastNum(before, 0));
    var events := Batch(c, Split(piece), s.cursor);
    RememberMore(before + s.delivered, events, s.cursor, After(s.cursor, log, upto, events));
    assert (before + s.delivered) + events == before + (s.delivered + events);
  }

  lemma SinkRises(events: seq<Ev>)
    requires SinkEvents(events)
    ensures StrictlyAbove(events, 0) && Distinct(IdsOf(events))
  {
  }

  lemma RecordsOfStretch(c: Codec<Ev>, content: Bytes, upto: nat, final: Bytes)
    requires upto <= |content| && Closed(content[..upto]) && content <= final
    ensures WholePass(c, content[..upto]) <= WholePass(c, final)
  {
    assert final == content[..upto] + final[upto..];
    PassClosed(c, content[..upto], final[upto..]);
  }

  /** One poll: still exactly up to the cursor, and further on if a line is complete. */
  lemma PollUpTo(c: Codec<Ev>, log: File, before: seq<Ev>, final: Bytes, s: Session, maxRead: nat, p: Poll)
    requires UpTo(c, log, before, s) && ShortLines(log.content) && maxRead >= MAX_LINE
    requires SinkEvents(WholePass(c, log.content)) && p == PollOnce(c, Some(log), s.cursor, maxRead)
    requires log.content <= final && Recalled(before, WholePass(c, final))
    ensures UpTo(c, log, before, Session(s.delivered + p.events, p.cursor)) && p.cursor.offset >= s.cursor.offset
    ensures NL in log.content[s.cursor.offset..] ==> p.cursor.offset > s.cursor.offset
  {
    PollCases(c, log, s.cursor, maxRead);
    if upto: nat :| StretchPolled(c, log, s.cursor, upto, p) {
      StretchOfSink(c, log.content, upto);
      RecordsOfStretch(c, log.content, upto, final);
      StretchDelivered(c, log, before, WholePass(c, final), s, upto, log.content[s.cursor.offset..upto]);
    } else {
      assert s.delivered + [] == s.delivered;
    }
  }

  // ---- many polls of a growing log ----

  ghost predicate GoodLog(c: Codec<Ev>, content: Bytes) {
    ShortLines(content) && SinkEvents(WholePass(c, content))
  }

  /** A poll finds no file, or the log with at most `content` in it. */
  predicate Finds(id: string, poll: Option<File>, content: Bytes) {
    poll.Some? ==> poll.value.id == id && poll.value.content <= content
  }

  /** The log grows towards `content` by appending; each poll comes too early or sees one of its states, torn or not. */
  ghost predicate Watches(id: string, polls: seq<Option<File>>, content: Bytes) {
    && (forall i :: 0 <= i < |polls| ==> Finds(id, polls[i], content))
    && (forall i, j :: 0 <= i <= j < |polls| && polls[j].Some? ==> Finds(id, polls[i], polls[j].value.content))
  }

  ghost predicate AllGood(c: Codec<Ev>, polls: seq<Option<File>>) {
    forall i :: 0 <= i < |polls| && polls[i].Some? ==> GoodLog(c, polls[i].value.content)
  }

  lemma WatchedBefore(c: Codec<Ev>, id: string, polls: seq<Option<File>>, content: Bytes)
    requires polls != [] && Watches(id, polls, content) && AllGood(c, polls)
    ensures var front, last := polls[..|polls| - 1], polls[|polls| - 1];
            && AllGood(c, front) && Watches(id, front, if last.Some? then last.value.content else content)
            && (last.Some? ==> GoodLog(c, last.value.content) && Finds(id, last, content))
  {
  }

  lemma UpToGrows(c: Codec<Ev>, log: File, longer: File, before: seq<Ev>, s: Session)
    requires UpTo(c, log, before, s) && log.id == longer.id && log.content <= longer.content
    ensures UpTo(c, longer, before, s)
  {
    assert longer.content[..s.cursor.offset] == log.content[..s.cursor.offset];
  }

  /** A cursor that stands at the beginning of whatever file it finds next. */
  ghost predicate AtBeginning(cur: Cursor) {
    cur.offset == 0 && cur.fileId == None
  }

  lemma BeginUpTo(c: Codec<Ev>, log: File, before: seq<Ev>, cur: Cursor)
    requires AtBeginning(cur) && Remembers(before, cur)
    ensures UpTo(c, log, before, Session([], cur))
  {
    PassNothing(c);
    assert log.content[..0] == [] && before + [] == before;
  }

  lemma NothingPolled(c: Codec<Ev>, s: Session, maxRead: nat)
    ensures var p := PollOnce(c, None, s.cursor, maxRead); Session(s.delivered + p.events, p.cursor) == s
  {
    assert s.delivered + [] == s.delivered;
  }

  /** For every growth of the log and every tearing of its last line: the new records up to the cursor. */
  lemma {:induction false} WatchingDelivers(c: Codec<Ev>, log: File, before: seq<Ev>, cur: Cursor, final: Bytes,
                                            polls: seq<Option<File>>, maxRead: nat)
    requires AtBeginning(cur) && Remembers(before, cur) && Recalled(before, WholePass(c, final))
    requires Watches(log.id, polls, log.content) && AllGood(c, polls) && log.content <= final && maxRead >= MAX_LINE
    ensures UpTo(c, log, before, PollAll(c, cur, polls, maxRead))
    decreases |polls|
  {
    hide PollOnce, GoodLog, Watches, AllGood, Finds, Recalled, Remembers;
    if polls == [] {
      BeginUpTo(c, log, before, cur);
    } else {
      var front, last := polls[..|polls| - 1], polls[|polls| - 1];
      var s := PollAll(c, cur, front, maxRead);
      WatchedBefore(c, log.id, polls, log.content);
      PollAllLast(c, cur, polls, maxRead);
      if last.None? {
        WatchingDelivers(c, log, before, cur, final, front, maxRead);
        NothingPolled(c, s, maxRead);
      } else {
        FoundState(log, last, final);
        WatchingDelivers(c, last.value, before, cur, final, front, maxRead);
        OnePollOn(c, log, last, before, final, s, maxRead);
      }
    }
  }

  lemma FoundState(log: File, poll: Option<File>, final: Bytes)
    requires poll.Some? && Finds(log.id, poll, log.content) && log.content <= final
    ensures poll.value.id == log.id && poll.value.content <= final
  {
  }

  lemma OnePollOn(c: Codec<Ev>, log: File, poll: Option<File>, before: seq<Ev>, final: Bytes, s: Session, maxRead: nat)
    requires poll.Some? && Finds(log.id, poll, log.content) && GoodLog(c, poll.value.content) && maxRead >= MAX_LINE
    requires log.content <= final && Recalled(before, WholePass(c, final)) && UpTo(c, poll.value, before, s)
    ensures var p := PollOnce(c, poll, s.cursor, maxRead);
            UpTo(c, log, before, Session(s.delivered + p.events, p.cursor))
  {
    hide UpTo, PollOnce, Recalled;
    var p := PollOnce(c, poll, s.cursor, maxRead);
    PollUpTo(c, poll.value, before, final, s, maxRead, p);
    UpToGrows(c, poll.value, log, before, Session(s.delivered + p.events, p.cursor));
  }

  function Same(log: File, n: nat): seq<Option<File>> {
    seq(n, _ => Some(log))
  }

  /** Delivered exactly up to the cursor, and either every line is or `n` bytes are behind it. */
  ghost predicate Drained(c: Codec<Ev>, log: File, before: seq<Ev>, s: Session, n: nat) {
    UpTo(c, log, before, s) && (s.cursor.offset >= n || NL !in log.content[s.cursor.offset..])
  }

  lemma DrainOne(c: Codec<Ev>, log: File, before: seq<Ev>, s: Session, n: nat, maxRead: nat, p: Poll)
    requires Drained(c, log, before, s, n) && GoodLog(c, log.content) && maxRead >= MAX_LINE
    requires Recalled(before, WholePass(c, log.content)) && p == PollOnce(c, Some(log), s.cursor, maxRead)
    ensures Drained(c, log, before, Session(s.delivered + p.events, p.cursor), n + 1)
  {
    PollUpTo(c, log, before, log.content, s, maxRead, p);
    var rest := log.content[s.cursor.offset..];
    assert log.content[p.cursor.offset..] == rest[p.cursor.offset - s.cursor.offset..];
  }

  /** Each poll of the finished log moves the tailer on or finds nothing left. */
  lemma {:induction false} Draining(c: Codec<Ev>, before: seq<Ev>, cur: Cursor, polls: seq<Option<File>>, log: File,
                                    n: nat, maxRead: nat)
    requires AtBeginning(cur) && Remembers(before, cur) && Recalled(before, WholePass(c, log.content))
    requires Watches(log.id, polls, log.content) && AllGood(c, polls) && GoodLog(c, log.content) && maxRead >= MAX_LINE
    ensures Drained(c, log, before, PollAll(c, cur, polls + Same(log, n), maxRead), n)
    decreases n
  {
    hide PollOnce, GoodLog, Watches, AllGood, SinkEvents, Recalled, Remembers, UpTo, AtBeginning;
    if n == 0 {
      assert polls + Same(log, 0) == polls;
      WatchingDelivers(c, log, before, cur, log.content, polls, maxRead);
    } else {
      var all, front := polls + Same(log, n), polls + Same(log, n - 1);
      Draining(c, before, cur, polls, log, n - 1, maxRead);
      assert all[..|all| - 1] == front && all[|all| - 1] == Some(log);
      var s := PollAll(c, cur, front, maxRead);
      DrainOne(c, log, before, s, n - 1, maxRead, PollOnce(c, Some(log), s.cursor, maxRead));
      PollAllLast(c, cur, all, maxRead);
    }
  }

  // ---- one log from the start ----

  lemma NothingBefore(events: seq<Ev>)
    requires SinkEvents(events)
    ensures Fresh(events, IdsOf([]), LastNum([], 0)) == events
  {
    AllFresh(events, [], 0);
  }

  /**
   * Exactly once: for every growth of the log and every tearing of its last
   * line, what has been delivered is one pass over the log up to the cursor.
   */
  lemma DeliveredIsOnePass(c: Codec<Ev>, id: string, polls: seq<Option<File>>, content: Bytes, maxRead: nat)
    requires Watches(id, polls, content) && AllGood(c, polls) && maxRead >= MAX_LINE
    ensures var s := PollAll(c, START, polls, maxRead);
            && s.cursor.offset <= |content| && Closed(content[..s.cursor.offset])
            && s.delivered == WholePass(c, content[..s.cursor.offset])
  {
    WatchingDelivers(c, File(id, content), [], START, content, polls, maxRead);
    NothingBefore(WholePass(c, content[..PollAll(c, START, polls, maxRead).cursor.offset]));
  }

  /**
   * Whatever states of the growing log earlier polls found, or found no file,
   * polling it often enough afterwards delivers all its complete lines.
   */
  lemma Drains(c: Codec<Ev>, polls: seq<Option<File>>, log: File, n: nat, maxRead: nat)
    requires Watches(log.id, polls, log.content) && AllGood(c, polls) && GoodLog(c, log.content) && maxRead >= MAX_LINE
    requires n >= |log.content|
    ensures var s := PollAll(c, START, polls + Same(log, n), maxRead);
            && s.cursor.offset <= |log.content| && NL !in log.content[s.cursor.offset..]
            && Closed(log.content[..s.cursor.offset])
            && s.delivered == WholePass(c, log.content[..s.cursor.offset])
  {
    Draining(c, [], START, polls, log, n, maxRead);
    NothingBefore(WholePass(c, log.content[..PollAll(c, START, polls + Same(log, n), maxRead).cursor.offset]));
  }

  // ---- rotation and shrinking ----

  lemma {:induction false} PollAllConcat(c: Codec<Ev>, cur: Cursor, a: seq<Option<File>>, b: seq<Option<File>>,
                                         maxRead: nat)
    ensures var s := PollAll(c, cur, a, maxRead); var t := PollAll(c, s.cursor, b, maxRead);
            PollAll(c, cur, a + b, maxRead) == Session(s.delivered + t.delivered, t.cursor)
    decreases |b|
  {
    hide PollOnce;
    var s := PollAll(c, cur, a, maxRead);
    if b == [] {
      assert a + b == a && s.delivered + [] == s.delivered;
    } else {
      var front, last := b[..|b| - 1], b[|b| - 1];
      assert (a + b)[..|a + b| - 1] == a + front && (a + b)[|a + b| - 1] == last;
      PollAllConcat(c, cur, a, front, maxRead);
      PollAllLast(c, cur, a + b, maxRead);
      PollAllLast(c, s.cursor, b, maxRead);
      JoinDelivered(s.delivered, PollAll(c, s.cursor, front, maxRead), last, c, maxRead);
    }
  }

  lemma JoinDelivered(delivered: seq<Ev>, t: Session, last: Option<File>, c: Codec<Ev>, maxRead: nat)
    ensures var p := PollOnce(c, last, t.cursor, maxRead);
            (delivered + t.delivered) + p.events == delivered + (t.delivered + p.events)
  {
  }

  /** The cursor with its place forgotten and its memory kept. */
  function Rewound(cur: Cursor): Cursor {
    Cursor(0, cur.last, None, cur.seen)
  }

  /** The file found is another one, or shorter than what was already read of it. */
  predicate Replaced(file: File, cur: Cursor) {
    (cur.fileId.Some? && cur.fileId.value != file.id) || |file.content| < cur.offset
  }

  lemma ReplacedIsReread(c: Codec<Ev>, file: File, cur: Cursor, maxRead: nat)
    requires Replaced(file, cur)
    ensures PollOnce(c, Some(file), cur, maxRead) == PollOnce(c, Some(file), Rewound(cur), maxRead)
  {
    var chunk := Chunk(file.content, 0, maxRead);
    SameBatch(c, Split(chunk[..Consumable(chunk)]), cur, Rewound(cur));
  }

  lemma SameBatch(c: Codec<Ev>, lines: seq<Bytes>, cur: Cursor, cur': Cursor)
    requires cur'.last == cur.last && cur'.seen == cur.seen
    ensures Batch(c, lines, cur') == Batch(c, lines, cur)
  {
  }

  /** A cursor that stands in another file, or never stood in one, is as good as a rewound one. */
  ghost predicate Elsewhere(cur: Cursor, id: string) {
    if cur.fileId.Some? then cur.fileId.value != id else cur.offset == 0
  }

  lemma ElsewherePoll(c: Codec<Ev>, poll: Option<File>, cur: Cursor, id: string, maxRead: nat)
    requires Elsewhere(cur, id) && poll.Some? && poll.value.id == id
    ensures PollOnce(c, poll, cur, maxRead) == PollOnce(c, poll, Rewound(cur), maxRead)
  {
    if cur.fileId.Some? { ReplacedIsReread(c, poll.value, cur, maxRead); } else { assert cur == Rewound(cur); }
  }

  ghost predicate FindsOnly(id: string, polls: seq<Option<File>>) {
    forall i :: 0 <= i < |polls| && polls[i].Some? ==> polls[i].value.id == id
  }

  ghost predicate FindsNothing(polls: seq<Option<File>>) {
    forall i :: 0 <= i < |polls| ==> polls[i] == None
  }

  lemma {:induction false} ElsewhereRereads(c: Codec<Ev>, cur: Cursor, id: string, polls: seq<Option<File>>,
                                            maxRead: nat)
    requires Elsewhere(cur, id) && FindsOnly(id, polls)
    ensures var s, t := PollAll(c, cur, polls, maxRead), PollAll(c, Rewound(cur), polls, maxRead);
            if FindsNothing(polls) then s == Session([], cur) && t == Session([], Rewound(cur)) else s == t
    decreases |polls|
  {
    if polls != [] {
      hide PollOnce;
      var front, last := polls[..|polls| - 1], polls[|polls| - 1];
      ElsewhereRereads(c, cur, id, front, maxRead);
      if last.None? {
        NothingPolled(c, PollAll(c, cur, front, maxRead), maxRead);
        NothingPolled(c, PollAll(c, Rewound(cur), front, maxRead), maxRead);
        assert FindsNothing(polls) <==> FindsNothing(front);
      } else {
        assert !FindsNothing(polls);
        if FindsNothing(front) { ElsewherePoll(c, last, cur, id, maxRead); }
      }
    }
  }

  lemma {:induction false} StandsElsewhere(c: Codec<Ev>, polls: seq<Option<File>>, id: string, maxRead: nat)
    requires forall i :: 0 <= i < |polls| && polls[i].Some? ==> polls[i].value.id != id
    ensures Elsewhere(PollAll(c, START, polls, maxRead).cursor, id)
    decreases |polls|
  {
    if polls != [] { StandsElsewhere(c, polls[..|polls| - 1], id, maxRead); }
  }

  /** The content up to and with its last newline. */
  function Complete(content: Bytes): Bytes {
    content[..Consumable(content)]
  }

  lemma NoBreakFrom(content: Bytes, start: nat)
    requires start <= |content| && NL !in content[start..]
    ensures forall i :: start <= i < |content| ==> content[i] != NL
  {
    forall i | start <= i < |content| ensures content[i] != NL { assert content[start..][i - start] == content[i]; }
  }

  lemma WholeLines(content: Bytes, upto: nat)
    requires upto <= |content| && Closed(content[..upto]) && NL !in content[upto..]
    ensures content[..upto] == Complete(content)
  {
    NoBreakFrom(content, upto);
    NoBreakFrom(content, Consumable(content));
    assert upto > 0 ==> content[upto - 1] == content[..upto][upto - 1];
  }

  lemma DrainedDelivers(c: Codec<Ev>, log: File, before: seq<Ev>, s: Session, n: nat)
    requires Drained(c, log, before, s, n) && n >= |log.content|
    ensures s.delivered == NewRecords(c, Complete(log.content), before)
  {
    WholeLines(log.content, s.cursor.offset);
  }

  /** The deliveries whose ids are still remembered. */
  function Recent(delivered: seq<Ev>): seq<Ev> {
    if |delivered| > 5000 then delivered[|delivered| - 5000..] else delivered
  }

  /**
   * Rotation: after any polls of other files, whatever they delivered, polling a
   * new file while it grows and often enough afterwards delivers exactly the
   * records of its complete lines with a higher number and an id that is new or forgotten.
   */
  lemma RotationDelivers(c: Codec<Ev>, others: seq<Option<File>>, polls: seq<Option<File>>, log: File, n: nat,
                         maxRead: nat)
    requires forall i :: 0 <= i < |others| && others[i].Some? ==> others[i].value.id != log.id
    requires Watches(log.id, polls, log.content) && AllGood(c, polls) && GoodLog(c, log.content) && maxRead >= MAX_LINE
    requires n >= |log.content|
    requires Recalled(Recent(PollAll(c, START, others, maxRead).delivered), WholePass(c, log.content))
    ensures var before := PollAll(c, START, others, maxRead).delivered;
            PollAll(c, START, others + (polls + Same(log, n)), maxRead).delivered
            == before + NewRecords(c, Complete(log.content), Recent(before))
  {
    var s, later := PollAll(c, START, others, maxRead), polls + Same(log, n);
    hide PollOnce, Recalled, GoodLog, AllGood, Remembers;
    SessionRemembers(c, others, maxRead);
    RewoundRemembers(s.delivered, s.cursor);
    StandsElsewhere(c, others, log.id, maxRead);
    PollAllConcat(c, START, others, later, maxRead);
    LaterFinds(polls, log, n);
    ElsewhereRereads(c, s.cursor, log.id, later, maxRead);
    Draining(c, Recent(s.delivered), Rewound(s.cursor), polls, log, n, maxRead);
    DrainedDelivers(c, log, Recent(s.delivered), PollAll(c, Rewound(s.cursor), later, maxRead), n);
  }

  lemma RewoundRemembers(before: seq<Ev>, cur: Cursor)
    requires Remembers(before, cur)
    ensures Remembers(Recent(before), Rewound(cur)) && AtBeginning(Rewound(cur))
  {
    if |before| > MAX_SEEN { assert IdsOf(Recent(before)) == LastSeen(IdsOf(before)); }
  }

  lemma LaterFinds(polls: seq<Option<File>>, log: File, n: nat)
    requires Watches(log.id, polls, log.content)
    ensures FindsOnly(log.id, polls + Same(log, n))
  {
    var later := polls + Same(log, n);
    forall i | 0 <= i < |later| && later[i].Some? ensures later[i].value.id == log.id {
      if i < |polls| { assert Finds(log.id, polls[i], log.content); }
    }
  }

  /**
   * Shrinking: after any polls at all, a file found shorter than the place
   * reached in it is read anew from its beginning, with the same result.
   */
  lemma ShrinkingDelivers(c: Codec<Ev>, earlier: seq<Option<File>>, first: File, polls: seq<Option<File>>, log: File,
                          n: nat, maxRead: nat)
    requires |first.content| < PollAll(c, START, earlier, maxRead).cursor.offset
    requires Watches(log.id, [Some(first)] + polls, log.content) && AllGood(c, [Some(first)] + polls)
    requires GoodLog(c, log.content) && maxRead >= MAX_LINE && n >= |log.content|
    requires Recalled(Recent(PollAll(c, START, earlier, maxRead).delivered), WholePass(c, log.content))
    ensures var before := PollAll(c, START, earlier, maxRead).delivered;
            PollAll(c, START, earlier + ([Some(first)] + polls + Same(log, n)), maxRead).delivered
            == before + NewRecords(c, Complete(log.content), Recent(before))
  {
    var s, all := PollAll(c, START, earlier, maxRead), [Some(first)] + polls;
    hide PollOnce, Recalled, GoodLog, AllGood, Remembers;
    SessionRemembers(c, earlier, maxRead);
    RewoundRemembers(s.delivered, s.cursor);
    PollAllConcat(c, START, earlier, all + Same(log, n), maxRead);
    ReplacedIsReread(c, first, s.cursor, maxRead);
    assert all + Same(log, n) == [Some(first)] + (polls + Same(log, n));
    FirstDecides(c, s.cursor, Rewound(s.cursor), first, polls + Same(log, n), maxRead);
    Draining(c, Recent(s.delivered), Rewound(s.cursor), all, log, n, maxRead);
    DrainedDelivers(c, log, Recent(s.delivered), PollAll(c, Rewound(s.cursor), all + Same(log, n), maxRead), n);
  }

  lemma FirstDecides(c: Codec<Ev>, cur: Cursor, cur': Cursor, first: File, rest: seq<Option<File>>, maxRead: nat)
    requires PollOnce(c, Some(first), cur, maxRead) == PollOnce(c, Some(first), cur', maxRead)
    ensures PollAll(c, cur, [Some(first)] + rest, maxRead) == PollAll(c, cur', [Some(first)] + rest, maxRead)
  {
    hide PollOnce;
    PollAllConcat(c, cur, [Some(first)], rest, maxRead);
    PollAllConcat(c, cur', [Some(first)], rest, maxRead);
    PollAllOne(c, cur, Some(first), maxRead);
    PollAllOne(c, cur', Some(first), maxRead);
  }
}
