/** The incremental reader of the event log (integrations/openclaw-plugin/src/tailer.js). */
module Tailer {
  import opened Wrappers
  import opened Ordering
  import opened Lines
  import Jsonl

  const MAX_LINE: nat := 1024 * 1024
  const MAX_SEEN: nat := 5000

  /** What an event carries besides its number. */
  datatype Msg = Msg(id: string, text: string)

  type Ev = Jsonl.Rec<Msg>

  /** The log as found by one poll: its identity and content. */
  datatype File = File(id: string, content: Bytes)

  datatype Cursor = Cursor(offset: nat, last: nat, fileId: Option<string>, seen: seq<string>)

  const START := Cursor(0, 0, None, [])

  // ---- one poll ----

  /** One past the last newline, or 0. */
  function Consumable(chunk: Bytes): (n: nat)
    ensures n <= |chunk|
    ensures n > 0 ==> chunk[n - 1] == NL
    ensures NL !in chunk[n..]
  {
    if chunk == [] then 0
    else if chunk[|chunk| - 1] == NL then |chunk|
    else
      var n := Consumable(chunk[..|chunk| - 1]);
      assert chunk[n..] == chunk[..|chunk| - 1][n..] + [chunk[|chunk| - 1]];
      n
  }

  function LastNum(events: seq<Ev>, prev: nat): nat {
    if events == [] then prev else events[|events| - 1].num
  }

  function IdsOf(events: seq<Ev>): seq<string> {
    seq(|events|, i requires 0 <= i < |events| => events[i].body.id)
  }

  function LastSeen(ids: seq<string>): seq<string> {
    if |ids| > MAX_SEEN then ids[|ids| - MAX_SEEN..] else ids
  }

  /** A line's event, unless it is blank, oversized or not an event. */
  function Read(c: Codec<Ev>, line: Bytes): Option<Ev> {
    if Blank(line) || |line| > MAX_LINE then None else c.parse(line)
  }

  /** New events in file order: not seen before, and above the last delivered number. */
  function Accepted(c: Codec<Ev>, lines: seq<Bytes>, seen: seq<string>, last: nat): seq<Ev> {
    if lines == [] then []
    else
      var front := Accepted(c, lines[..|lines| - 1], seen, last);
      var e := Read(c, lines[|lines| - 1]);
      if e.None? || e.value.body.id in seen || e.value.body.id in IdsOf(front) || e.value.num <= last then front
      else front + [e.value]
  }

  function ByNum(a: Ev, b: Ev): bool { a.num <= b.num }

  /** Drops events that do not exceed the one delivered before them. */
  function Rising(events: seq<Ev>, prev: nat): seq<Ev> {
    if events == [] then []
    else
      var front := Rising(events[..|events| - 1], prev);
      var e := events[|events| - 1];
      if e.num <= LastNum(front, prev) then front else front + [e]
  }

  function Batch(c: Codec<Ev>, lines: seq<Bytes>, cur: Cursor): seq<Ev> {
    Rising(Sort(Accepted(c, lines, cur.seen, cur.last), ByNum), cur.last)
  }

  datatype Poll = Poll(events: seq<Ev>, cursor: Cursor)

  /** Where reading starts: from the beginning again after a rotation or truncation. */
  function Offset(file: File, cur: Cursor): nat {
    if (cur.fileId.Some? && cur.fileId.value != file.id) || |file.content| < cur.offset then 0 else cur.offset
  }

  function Chunk(content: Bytes, offset: nat, maxRead: nat): Bytes
    requires offset <= |content|
  {
    if |content| - offset < maxRead then content[offset..] else content[offset..offset + maxRead]
  }

  function ReadFrom(c: Codec<Ev>, file: File, cur: Cursor, offset: nat, maxRead: nat): Poll
    requires offset <= |file.content|
  {
    var chunk := Chunk(file.content, offset, maxRead);
    var n := Consumable(chunk);
    if n == 0 then
      Poll([], cur.(offset := if |chunk| >= MAX_LINE then offset + |chunk| else offset, fileId := Some(file.id)))
    else
      var events := Batch(c, Split(chunk[..n]), cur);
      Poll(events, Cursor(offset + n, LastNum(events, cur.last), Some(file.id), LastSeen(cur.seen + IdsOf(events))))
  }

  function PollOnce(c: Codec<Ev>, file: Option<File>, cur: Cursor, maxRead: nat): Poll {
    if file.None? then Poll([], cur)
    else ReadFrom(c, file.value, cur, Offset(file.value, cur), maxRead)
  }

  /** The first loop: what is new, in file order. */
  method CollectNew(c: Codec<Ev>, lines: seq<Bytes>, cur: Cursor) returns (accepted: seq<Ev>)
    ensures accepted == Accepted(c, lines, cur.seen, cur.last)
  {
    accepted := [];
    var i := 0;
    while i < |lines|
      invariant 0 <= i <= |lines|
      invariant accepted == Accepted(c, lines[..i], cur.seen, cur.last)
    {
      assert lines[..i + 1][..i] == lines[..i];
      if !Blank(lines[i]) && |lines[i]| <= MAX_LINE {
        var e := c.parse(lines[i]);
        if e.Some? && e.value.body.id !in cur.seen && e.value.body.id !in IdsOf(accepted) && e.value.num > cur.last {
          accepted := accepted + [e.value];
        }
      }
      i := i + 1;
    }
    assert lines[..i] == lines;
  }

  /** The second loop, over the sorted events: repeated and stale numbers go. */
  method DropRepeats(sorted: seq<Ev>, last: nat) returns (events: seq<Ev>, prev: nat)
    ensures events == Rising(sorted, last) && prev == LastNum(events, last)
  {
    events, prev := [], last;
    var i := 0;
    while i < |sorted|
      invariant 0 <= i <= |sorted|
      invariant events == Rising(sorted[..i], last) && prev == LastNum(events, last)
    {
      assert sorted[..i + 1][..i] == sorted[..i];
      if sorted[i].num > prev {
        events := events + [sorted[i]];
        prev := sorted[i].num;
      }
      i := i + 1;
    }
    assert sorted[..i] == sorted;
  }

  /** The polling routine as it runs: line by line, then sort, then drop repeats. */
  method ReadNewEvents(c: Codec<Ev>, file: Option<File>, cur: Cursor, maxRead: nat) returns (r: Poll)
    ensures r == PollOnce(c, file, cur, maxRead)
  {
    hide Accepted, Rising, Consumable, LastSeen, IdsOf, LastNum, Chunk, Sort, Split;
    if file.None? { return Poll([], cur); }
    var content, id := file.value.content, file.value.id;
    var offset := cur.offset;
    if (cur.fileId.Some? && cur.fileId.value != id) || |content| < offset { offset := 0; }
    var chunk := Chunk(content, offset, maxRead);
    var n := Consumable(chunk);
    if n == 0 {
      if |chunk| >= MAX_LINE { return Poll([], cur.(offset := offset + |chunk|, fileId := Some(id))); }
      return Poll([], cur.(offset := offset, fileId := Some(id)));
    }
    var accepted := CollectNew(c, Split(chunk[..n]), cur);
    var events, prev := DropRepeats(Sort(accepted, ByNum), cur.last);
    return Poll(events, Cursor(offset + n, prev, Some(id), LastSeen(cur.seen + IdsOf(events))));
  }

  // ---- numbers only rise ----

  ghost predicate StrictlyAbove(events: seq<Ev>, prev: nat) {
    && (forall i :: 0 <= i < |events| ==> events[i].num > prev)
    && (forall i, j :: 0 <= i < j < |events| ==> events[i].num < events[j].num)
  }

  lemma {:induction false} RisingRises(events: seq<Ev>, prev: nat)
    ensures StrictlyAbove(Rising(events, prev), prev)
  {
    if events != [] { RisingRises(events[..|events| - 1], prev); }
  }

  lemma AboveConcat(a: seq<Ev>, b: seq<Ev>, prev: nat)
    requires StrictlyAbove(a, prev) && StrictlyAbove(b, LastNum(a, prev))
    ensures StrictlyAbove(a + b, prev) && LastNum(a + b, prev) == LastNum(b, LastNum(a, prev))
  {
  }

  datatype Session = Session(delivered: seq<Ev>, cursor: Cursor)

  /** A series of polls, each finding the log in whatever state it is. */
  function PollAll(c: Codec<Ev>, start: Cursor, files: seq<Option<File>>, maxRead: nat): Session {
    if files == [] then Session([], start)
    else
      var s := PollAll(c, start, files[..|files| - 1], maxRead);
      var p := PollOnce(c, files[|files| - 1], s.cursor, maxRead);
      Session(s.delivered + p.events, p.cursor)
  }

  lemma PollAllLast(c: Codec<Ev>, start: Cursor, files: seq<Option<File>>, maxRead: nat)
    requires files != []
    ensures var s := PollAll(c, start, files[..|files| - 1], maxRead);
            var p := PollOnce(c, files[|files| - 1], s.cursor, maxRead);
            PollAll(c, start, files, maxRead) == Session(s.delivered + p.events, p.cursor)
  {
  }

  /** Whatever the log's contents, truncations and rotations, delivered numbers strictly rise. */
  lemma {:induction false} NumbersRise(c: Codec<Ev>, start: Cursor, files: seq<Option<File>>, maxRead: nat)
    ensures var s := PollAll(c, start, files, maxRead);
            StrictlyAbove(s.delivered, start.last) && s.cursor.last == LastNum(s.delivered, start.last)
  {
    if files != [] {
      var s := PollAll(c, start, files[..|files| - 1], maxRead);
      var file := files[|files| - 1];
      NumbersRise(c, start, files[..|files| - 1], maxRead);
      if file.Some? {
        PollRises(c, file.value, s.cursor, maxRead);
        AboveConcat(s.delivered, PollOnce(c, file, s.cursor, maxRead).events, start.last);
      } else {
        assert s.delivered + [] == s.delivered;
      }
    }
  }

  lemma PollRises(c: Codec<Ev>, file: File, cur: Cursor, maxRead: nat)
    ensures var p := PollOnce(c, Some(file), cur, maxRead);
            StrictlyAbove(p.events, cur.last) && p.cursor.last == LastNum(p.events, cur.last)
  {
    var chunk := Chunk(file.content, Offset(file, cur), maxRead);
    if Consumable(chunk) > 0 {
      RisingRises(Sort(Accepted(c, Split(chunk[..Consumable(chunk)]), cur.seen, cur.last), ByNum), cur.last);
    }
  }

  // ---- what the cursor remembers ----

  /** The last number and the latest ids of everything delivered so far. */
  ghost predicate Remembers(delivered: seq<Ev>, cur: Cursor) {
    cur.last == LastNum(delivered, 0) && cur.seen == LastSeen(IdsOf(delivered))
  }

  lemma SeenMore(ids: seq<string>, more: seq<string>)
    ensures LastSeen(LastSeen(ids) + more) == LastSeen(ids + more)
  {
    if |ids| > MAX_SEEN {
      assert ids == ids[..|ids| - MAX_SEEN] + LastSeen(ids);
      assert ids + more == ids[..|ids| - MAX_SEEN] + (LastSeen(ids) + more);
    }
  }

  lemma RememberMore(delivered: seq<Ev>, events: seq<Ev>, cur: Cursor, cur': Cursor)
    requires Remembers(delivered, cur)
    requires cur'.last == LastNum(events, cur.last) && cur'.seen == LastSeen(cur.seen + IdsOf(events))
    ensures Remembers(delivered + events, cur')
  {
    assert IdsOf(delivered + events) == IdsOf(delivered) + IdsOf(events);
    SeenMore(IdsOf(delivered), IdsOf(events));
  }

  lemma PollRemembers(c: Codec<Ev>, delivered: seq<Ev>, file: Option<File>, cur: Cursor, maxRead: nat)
    requires Remembers(delivered, cur)
    ensures var p := PollOnce(c, file, cur, maxRead); Remembers(delivered + p.events, p.cursor)
  {
    hide Batch, Consumable;
    var p := PollOnce(c, file, cur, maxRead);
    if p.cursor.last == cur.last && p.cursor.seen == cur.seen && p.events == [] {
      assert delivered + [] == delivered;
    } else {
      RememberMore(delivered, p.events, cur, p.cursor);
    }
  }

  /** Whatever it polls, a cursor that began fresh remembers just what was delivered. */
  lemma {:induction false} SessionRemembers(c: Codec<Ev>, files: seq<Option<File>>, maxRead: nat)
    ensures var s := PollAll(c, START, files, maxRead); Remembers(s.delivered, s.cursor)
  {
    if files != [] {
      var s := PollAll(c, START, files[..|files| - 1], maxRead);
      SessionRemembers(c, files[..|files| - 1], maxRead);
      PollRemembers(c, s.delivered, files[|files| - 1], s.cursor, maxRead);
    }
  }

  // ---- one pass over the lines ----

  /** What a sink writes: positive rising numbers, ids never repeated. */
  ghost predicate SinkEvents(events: seq<Ev>) {
    StrictlyAbove(events, 0) && Distinct(IdsOf(events))
  }

  /** One pass over a list of lines, remembering nothing. */
  function Pass(c: Codec<Ev>, lines: seq<Bytes>): seq<Ev> {
    if lines == [] then [] else Pass(c, lines[..|lines| - 1]) + PassLine(c, lines[|lines| - 1])
  }

  function PassLine(c: Codec<Ev>, line: Bytes): seq<Ev> {
    var e := Read(c, line);
    if e.None? then [] else [e.value]
  }

  /** One pass over the whole content. */
  function WholePass(c: Codec<Ev>, content: Bytes): seq<Ev> {
    Pass(c, Split(content))
  }

  lemma {:induction false} PassConcat(c: Codec<Ev>, a: seq<Bytes>, b: seq<Bytes>)
    ensures Pass(c, a + b) == Pass(c, a) + Pass(c, b)
    decreases |b|
  {
    if b == [] {
      assert a + b == a;
    } else {
      assert (a + b)[..|a + b| - 1] == a + b[..|b| - 1];
      PassConcat(c, a, b[..|b| - 1]);
    }
  }

  lemma PassOne(c: Codec<Ev>, line: Bytes)
    ensures Pass(c, [line]) == PassLine(c, line)
  {
    assert [line][..0] == [];
  }

  lemma PassNothing(c: Codec<Ev>)
    ensures Pass(c, [[]]) == [] && WholePass(c, []) == []
  {
    PassOne(c, []);
    assert Split([]) == [[]];
  }

  lemma EmptyLinePassed(c: Codec<Ev>, front: seq<Bytes>, lines: seq<Bytes>)
    ensures Pass(c, front + lines) == Pass(c, front + [[]]) + Pass(c, lines)
  {
    PassConcat(c, front, lines);
    PassConcat(c, front, [[]]);
    PassNothing(c);
    assert Pass(c, front) + [] == Pass(c, front);
  }

  /** After closed content, the rest is read on its own. */
  lemma PassClosed(c: Codec<Ev>, a: Bytes, b: Bytes)
    requires Closed(a)
    ensures WholePass(c, a + b) == WholePass(c, a) + WholePass(c, b)
  {
    if a == [] {
      PassNothing(c);
      assert a + b == b && [] + WholePass(c, b) == WholePass(c, b);
    } else {
      SplitClosed(a, b);
      EmptyLinePassed(c, Split(a[..|a| - 1]), Split(b));
    }
  }

  // ---- what one batch delivers ----

  /** The events with a new id and a number above `last`. */
  function Fresh(events: seq<Ev>, seen: seq<string>, last: nat): (r: seq<Ev>)
    ensures |r| <= |events|
    ensures forall e :: e in r <==> e in events && e.num > last && e.body.id !in seen
  {
    if events == [] then []
    else
      var front, e := Fresh(events[..|events| - 1], seen, last), events[|events| - 1];
      assert events == events[..|events| - 1] + [e];
      if e.num > last && e.body.id !in seen then front + [e] else front
  }

  lemma {:induction false} FreshConcat(a: seq<Ev>, b: seq<Ev>, seen: seq<string>, last: nat)
    ensures Fresh(a + b, seen, last) == Fresh(a, seen, last) + Fresh(b, seen, last)
    decreases |b|
  {
    if b == [] {
      assert a + b == a;
    } else {
      assert (a + b)[..|a + b| - 1] == a + b[..|b| - 1];
      FreshConcat(a, b[..|b| - 1], seen, last);
    }
  }

  lemma {:induction false} FreshSame(events: seq<Ev>, seen: seq<string>, last: nat, seen': seq<string>, last': nat)
    requires forall e :: e in events ==> (e.num > last && e.body.id !in seen <==> e.num > last' && e.body.id !in seen')
    ensures Fresh(events, seen, last) == Fresh(events, seen', last')
  {
    if events != [] {
      assert events == events[..|events| - 1] + [events[|events| - 1]];
      FreshSame(events[..|events| - 1], seen, last, seen', last');
    }
  }

  lemma {:induction false} FreshRises(events: seq<Ev>, seen: seq<string>, last: nat, prev: nat)
    requires StrictlyAbove(events, prev)
    ensures StrictlyAbove(Fresh(events, seen, last), last)
    ensures Fresh(events, seen, last) != [] ==> LastNum(Fresh(events, seen, last), last) <= LastNum(events, prev)
  {
    if events != [] {
      AboveLast(events, prev);
      FreshRises(events[..|events| - 1], seen, last, prev);
    }
  }

  lemma AboveLast(events: seq<Ev>, prev: nat)
    requires events != [] && StrictlyAbove(events, prev)
    ensures var front, last := events[..|events| - 1], events[|events| - 1];
            StrictlyAbove(front, prev) && last.num > LastNum(front, prev) && events == front + [last]
  {
  }

  lemma DistinctFront(events: seq<Ev>)
    requires events != [] && Distinct(IdsOf(events))
    ensures Distinct(IdsOf(events[..|events| - 1]))
    ensures forall e :: e in events[..|events| - 1] ==> e.body.id != events[|events| - 1].body.id
  {
    var all, front := IdsOf(events), IdsOf(events[..|events| - 1]);
    forall i, j | 0 <= i < j < |front| ensures front[i] != front[j] { assert all[i] != all[j]; }
    forall e | e in events[..|events| - 1] ensures e.body.id != events[|events| - 1].body.id {
      var i :| 0 <= i < |events| - 1 && events[i] == e;
      assert all[i] != all[|events| - 1];
    }
  }

  /** Of events with distinct ids, exactly the fresh ones are accepted. */
  lemma {:induction false} AcceptedIsFresh(c: Codec<Ev>, lines: seq<Bytes>, seen: seq<string>, last: nat)
    requires Distinct(IdsOf(Pass(c, lines)))
    ensures Accepted(c, lines, seen, last) == Fresh(Pass(c, lines), seen, last)
  {
    if lines != [] {
      var front, p := Pass(c, lines[..|lines| - 1]), Pass(c, lines);
      if |p| > |front| {
        assert p[..|p| - 1] == front;
        DistinctFront(p);
        AcceptedIsFresh(c, lines[..|lines| - 1], seen, last);
        var kept := Fresh(front, seen, last);
        assert p[|p| - 1].body.id !in IdsOf(kept) by {
          forall i | 0 <= i < |kept| ensures IdsOf(kept)[i] != p[|p| - 1].body.id { assert kept[i] in front; }
        }
      } else {
        assert p == front;
        AcceptedIsFresh(c, lines[..|lines| - 1], seen, last);
      }
    }
  }

  lemma {:induction false} RisingKeeps(events: seq<Ev>, prev: nat)
    requires StrictlyAbove(events, prev)
    ensures Rising(events, prev) == events
  {
    if events != [] {
      AboveLast(events, prev);
      RisingKeeps(events[..|events| - 1], prev);
    }
  }

  /** A batch of rising events with distinct ids delivers the fresh ones. */
  lemma BatchIsFresh(c: Codec<Ev>, lines: seq<Bytes>, cur: Cursor, prev: nat)
    requires StrictlyAbove(Pass(c, lines), prev) && Distinct(IdsOf(Pass(c, lines)))
    ensures Batch(c, lines, cur) == Fresh(Pass(c, lines), cur.seen, cur.last)
  {
    var kept := Fresh(Pass(c, lines), cur.seen, cur.last);
    AcceptedIsFresh(c, lines, cur.seen, cur.last);
    FreshRises(Pass(c, lines), cur.seen, cur.last, prev);
    SortFixpoint(kept, ByNum);
    RisingKeeps(kept, cur.last);
  }

  lemma {:induction false} AllFresh(events: seq<Ev>, seen: seq<string>, last: nat)
    requires StrictlyAbove(events, last) && forall e :: e in events ==> e.body.id !in seen
    ensures Fresh(events, seen, last) == events
  {
    if events != [] {
      AboveLast(events, last);
      AllFresh(events[..|events| - 1], seen, last);
    }
  }

  lemma BatchIsPass(c: Codec<Ev>, lines: seq<Bytes>, cur: Cursor)
    requires StrictlyAbove(Pass(c, lines), cur.last) && Distinct(IdsOf(Pass(c, lines)))
    requires forall e :: e in Pass(c, lines) ==> e.body.id !in cur.seen
    ensures Batch(c, lines, cur) == Pass(c, lines)
  {
    BatchIsFresh(c, lines, cur, cur.last);
    AllFresh(Pass(c, lines), cur.seen, cur.last);
  }

  // ---- the limit is strict ----

  /**
   * A line of exactly the limit counts as short enough when it is complete, yet
   * a poll that finds it still torn skips it for good.
   */
  lemma BoundaryLineLost(c: Codec<Ev>, id: string, line: Bytes, e: Ev, maxRead: nat)
    requires |line| == 1048576 && NL !in line && !Blank(line) && c.parse(line) == Some(e) && e.num > 0
    requires maxRead > 1048576
    ensures PollAll(c, START, [Some(File(id, line + [NL]))], maxRead).delivered == [e]
    ensures PollAll(c, START, [Some(File(id, line)), Some(File(id, line + [NL]))], maxRead).delivered == []
  {
    WholeLinePolled(c, id, line, e, maxRead);
    TornLinePolled(c, id, line, maxRead);
    AfterTornPolled(c, id, line, maxRead);
    var torn, whole := Some(File(id, line)), Some(File(id, line + [NL]));
    PollAllOne(c, START, whole, maxRead);
    PollAllOne(c, START, torn, maxRead);
    assert [torn, whole][..1] == [torn];
    PollAllLast(c, START, [torn, whole], maxRead);
  }

  lemma PollAllOne(c: Codec<Ev>, cur: Cursor, file: Option<File>, maxRead: nat)
    ensures var p := PollOnce(c, file, cur, maxRead); PollAll(c, cur, [file], maxRead) == Session(p.events, p.cursor)
  {
    assert [file][..0] == [];
    PollAllLast(c, cur, [file], maxRead);
    var p := PollOnce(c, file, cur, maxRead);
    assert [] + p.events == p.events;
  }

  lemma PassBefore(c: Codec<Ev>, line: Bytes)
    requires NL !in line
    ensures Split(line + [NL]) == [line, []] && Pass(c, [line, []]) == PassLine(c, line)
  {
    assert line + [NL] == line + [NL] + [];
    SplitAtNewline(line, []);
    SplitWithoutNewline(line);
    assert Split([]) == [[]];
    assert [line, []] == [line] + [[]];
    PassConcat(c, [line], [[]]);
    PassOne(c, line);
    PassNothing(c);
  }

  lemma WholeBatch(c: Codec<Ev>, line: Bytes, e: Ev)
    requires |line| == MAX_LINE && NL !in line && !Blank(line) && c.parse(line) == Some(e) && e.num > 0
    ensures Batch(c, Split(line + [NL]), START) == [e]
  {
    hide Blank, Split;
    PassBefore(c, line);
    BatchIsPass(c, [line, []], START);
  }

  lemma WholeLinePolled(c: Codec<Ev>, id: string, line: Bytes, e: Ev, maxRead: nat)
    requires |line| == MAX_LINE && NL !in line && !Blank(line) && c.parse(line) == Some(e) && e.num > 0
    requires maxRead > MAX_LINE
    ensures PollOnce(c, Some(File(id, line + [NL])), START, maxRead).events == [e]
  {
    hide Blank, Split, Batch;
    var content := line + [NL];
    WholeBatch(c, line, e);
    assert Chunk(content, 0, maxRead) == content;
    assert Consumable(content) == |content| && content[..|content|] == content;
  }

  lemma TornLinePolled(c: Codec<Ev>, id: string, line: Bytes, maxRead: nat)
    requires |line| == MAX_LINE && NL !in line && maxRead > MAX_LINE
    ensures PollOnce(c, Some(File(id, line)), START, maxRead) == Poll([], Cursor(MAX_LINE, 0, Some(id), []))
  {
    assert Chunk(line, 0, maxRead) == line;
    NoneConsumable(line);
  }

  lemma AfterTornPolled(c: Codec<Ev>, id: string, line: Bytes, maxRead: nat)
    requires |line| == MAX_LINE && maxRead > MAX_LINE
    ensures PollOnce(c, Some(File(id, line + [NL])), Cursor(MAX_LINE, 0, Some(id), []), maxRead).events == []
  {
    assert Chunk(line + [NL], MAX_LINE, maxRead) == [NL];
    assert Consumable([NL]) == 1 && [NL][..1] == [NL];
    NewlineAlone(c, Cursor(MAX_LINE, 0, Some(id), []));
  }

  lemma NewlineAlone(c: Codec<Ev>, cur: Cursor)
    requires cur.seen == []
    ensures Batch(c, Split([NL]), cur) == []
  {
    assert [] + [NL] == [NL];
    PassBefore(c, []);
    BatchIsPass(c, [[], []], cur);
  }

  lemma {:induction false} NoneConsumable(chunk: Bytes)
    requires NL !in chunk
    ensures Consumable(chunk) == 0
  {
    if chunk != [] {
      assert chunk[|chunk| - 1] in chunk;
      NoneConsumable(chunk[..|chunk| - 1]);
    }
  }
}
