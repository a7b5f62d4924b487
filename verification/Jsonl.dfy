/** The append-only record log: repair, append, read, and crashes at any byte (runs/fsutil.py, plugin/events.py). */
module Jsonl {
  import opened Wrappers
  import opened Lines

  /** The newline written first when the content does not end in one. */
  function Mend(content: Bytes): Bytes {
    if Closed(content) then [] else [NL]
  }

  function Written<R>(c: Codec<R>, content: Bytes, r: R): Bytes {
    Mend(content) + c.render(r) + [NL]
  }

  /** Closing content with a newline changes nothing for a reader. */
  lemma LineReads<R>(c: Codec<R>, content: Bytes)
    ensures Records(c, content + [NL]) == Records(c, content)
  {
    SplitAtNewline(content, []);
    assert content + [NL] + [] == content + [NL] && Split([]) == [[]];
    ParseConcat(c, Split(content), [[]]);
    NothingRead(c);
  }

  /** What is read of one printed record. */
  lemma RecordReads<R(!new)>(c: Codec<R>, r: R)
    requires Faithful(c)
    ensures Records(c, c.render(r)) == [r] && Records(c, c.render(r) + [NL]) == [r]
  {
    SplitWithoutNewline(c.render(r));
    ParseOne(c, c.render(r));
    LineReads(c, c.render(r));
  }

  /** A part of a printed record reads as nothing. */
  lemma PartReads<R(!new)>(c: Codec<R>, r: R, cut: nat)
    requires Faithful(c) && cut < |c.render(r)|
    ensures Records(c, c.render(r)[..cut]) == []
  {
    SplitWithoutNewline(c.render(r)[..cut]);
    ParseOne(c, c.render(r)[..cut]);
  }

  lemma MendedReads<R>(c: Codec<R>, content: Bytes)
    ensures Closed(content + Mend(content))
    ensures Records(c, content + Mend(content)) == Records(c, content)
  {
    if !Closed(content) {
      LineReads(c, content);
    } else {
      assert content + Mend(content) == content;
    }
  }

  /** A reader sees the earlier records and exactly the new one, whatever the content was. */
  lemma AppendReads<R(!new)>(c: Codec<R>, content: Bytes, r: R)
    requires Faithful(c)
    ensures Records(c, content + Written(c, content, r)) == Records(c, content) + [r]
    ensures Closed(content + Written(c, content, r))
  {
    var base, line := content + Mend(content), c.render(r) + [NL];
    MendedReads(c, content);
    assert content + Written(c, content, r) == base + line;
    ClosedConcat(c, base, line);
    RecordReads(c, r);
  }

  /** Stopping the append after any number of bytes leaves the old records or the new ones, nothing between. */
  lemma TornAppendReads<R(!new)>(c: Codec<R>, content: Bytes, r: R, cut: nat)
    requires Faithful(c) && cut <= |Written(c, content, r)|
    ensures Records(c, content + Written(c, content, r)[..cut]) ==
            if cut < |Mend(content)| + |c.render(r)| then Records(c, content) else Records(c, content) + [r]
  {
    var w, m, line := Written(c, content, r), |Mend(content)|, c.render(r);
    if cut == |w| {
      assert w[..cut] == w;
      AppendReads(c, content, r);
    } else if cut < m {
      assert content + w[..cut] == content;
    } else {
      TornLineReads(c, content, r, cut - m);
      assert w[..cut] == Mend(content) + line[..cut - m];
      assert content + w[..cut] == content + Mend(content) + line[..cut - m];
    }
  }

  lemma TornLineReads<R(!new)>(c: Codec<R>, content: Bytes, r: R, cut: nat)
    requires Faithful(c) && cut <= |c.render(r)|
    ensures Records(c, content + Mend(content) + c.render(r)[..cut]) ==
            if cut < |c.render(r)| then Records(c, content) else Records(c, content) + [r]
  {
    var part := c.render(r)[..cut];
    MendedReads(c, content);
    ClosedConcat(c, content + Mend(content), part);
    if cut == |c.render(r)| {
      assert part == c.render(r);
      RecordReads(c, r);
    } else {
      PartReads(c, r, cut);
      assert Records(c, content) + [] == Records(c, content);
    }
  }

  // ---- sequence numbers ----

  datatype Rec<B> = Rec(num: nat, body: B)

  function LastNum<B>(rs: seq<Rec<B>>): nat {
    if rs == [] then 0
    else
      var m := LastNum(rs[..|rs| - 1]);
      if rs[|rs| - 1].num > m then rs[|rs| - 1].num else m
  }

  ghost predicate Counted<B>(rs: seq<Rec<B>>) {
    forall i :: 0 <= i < |rs| ==> rs[i].num == i + 1
  }

  lemma {:induction false} CountedLast<B>(rs: seq<Rec<B>>)
    requires Counted(rs)
    ensures LastNum(rs) == |rs|
  {
    if rs != [] { CountedLast(rs[..|rs| - 1]); }
  }

  /** One numbered append, cut short after `cut` bytes if a crash comes. */
  function Emit<B>(c: Codec<Rec<B>>, content: Bytes, body: B, cut: Option<nat>): Bytes {
    var w := Written(c, content, Rec(LastNum(Records(c, content)) + 1, body));
    content + if cut.Some? && cut.value < |w| then w[..cut.value] else w
  }

  function EmitAll<B>(c: Codec<Rec<B>>, content: Bytes, calls: seq<(B, Option<nat>)>): Bytes
    decreases |calls|
  {
    if calls == [] then content
    else Emit(c, EmitAll(c, content, calls[..|calls| - 1]), calls[|calls| - 1].0, calls[|calls| - 1].1)
  }

  lemma EmitOneOrNone<B(!new)>(c: Codec<Rec<B>>, content: Bytes, body: B, cut: Option<nat>)
    requires Faithful(c)
    ensures var before, after := Records(c, content), Records(c, Emit(c, content, body, cut));
            after == before || after == before + [Rec(LastNum(before) + 1, body)]
    ensures cut == None ==> Records(c, Emit(c, content, body, cut)) ==
                            Records(c, content) + [Rec(LastNum(Records(c, content)) + 1, body)]
    ensures content <= Emit(c, content, body, cut)
  {
    hide Records, Written, LastNum;
    var r := Rec(LastNum(Records(c, content)) + 1, body);
    var w := Written(c, content, r);
    if cut.Some? && cut.value < |w| {
      TornAppendReads(c, content, r, cut.value);
    } else {
      AppendReads(c, content, r);
    }
  }

  /** Whatever crashes happen at whatever bytes, the records read back are numbered 1 to n. */
  lemma {:induction false} NumbersStayExact<B(!new)>(c: Codec<Rec<B>>, calls: seq<(B, Option<nat>)>)
    requires Faithful(c)
    ensures Counted(Records(c, EmitAll(c, [], calls)))
    decreases |calls|
  {
    if calls == [] {
      ParseOne(c, []);
    } else {
      var front := calls[..|calls| - 1];
      NumbersStayExact(c, front);
      var content := EmitAll(c, [], front);
      CountedLast(Records(c, content));
      EmitOneOrNone(c, content, calls[|calls| - 1].0, calls[|calls| - 1].1);
    }
  }

  // ---- the file ----

  class LogFile<B(0)> {
    var content: Bytes

    constructor ()
      ensures content == []
    {
      content := [];
    }

    /** Goes over the lines, keeping what parses. */
    method ReadRecords(c: Codec<Rec<B>>) returns (records: seq<Rec<B>>)
      ensures records == Records(c, content)
    {
      records := [];
      var lines := Split(content);
      var i := 0;
      while i < |lines|
        invariant 0 <= i <= |lines|
        invariant records == ParseLines(c, lines[..i])
      {
        assert lines[..i + 1][..i] == lines[..i];
        if !Blank(lines[i]) {
          var parsed := c.parse(lines[i]);
          if parsed.Some? { records := records + [parsed.value]; }
        }
        i := i + 1;
      }
      assert lines[..i] == lines;
    }

    /** Finds the last number, mends a torn tail, writes the line; a crash leaves the first `cut` bytes. */
    method Append(c: Codec<Rec<B>>, body: B, cut: Option<nat>)
      modifies this
      ensures content == Emit(c, old(content), body, cut)
    {
      hide Records, LastNum;
      var records := ReadRecords(c);
      var line := c.render(Rec(LastNum(records) + 1, body));
      var pending: Bytes := [];
      if |content| > 0 && content[|content| - 1] != NL { pending := pending + [NL]; }
      pending := pending + line + [NL];
      if cut.Some? && cut.value < |pending| { pending := pending[..cut.value]; }
      content := content + pending;
    }
  }
}
