/** Newline-separated byte content. */
module Lines {
  import opened Wrappers

  type Byte = x: int | 0 <= x < 256
  type Bytes = seq<Byte>

  const NL: Byte := 10

  /** The pieces between newlines, like splitting a text on its newline character. */
  function Split(s: Bytes): (r: seq<Bytes>)
    ensures |r| >= 1
  {
    if s == [] then [[]]
    else if s[0] == NL then [[]] + Split(s[1..])
    else
      var r := Split(s[1..]);
      [[s[0]] + r[0]] + r[1..]
  }

  predicate Closed(s: Bytes) {
    s == [] || s[|s| - 1] == NL
  }

  lemma {:induction false} SplitAtNewline(a: Bytes, b: Bytes)
    ensures Split(a + [NL] + b) == Split(a) + Split(b)
  {
    if a == [] {
      assert ([NL] + b)[1..] == b;
      assert a + [NL] + b == [NL] + b;
    } else {
      assert (a + [NL] + b)[1..] == a[1..] + [NL] + b;
      SplitAtNewline(a[1..], b);
    }
  }

  lemma {:induction false} SplitWithoutNewline(s: Bytes)
    requires NL !in s
    ensures Split(s) == [s]
  {
    if s != [] {
      SplitWithoutNewline(s[1..]);
      assert [s[0]] + s[1..] == s;
    }
  }

  predicate IsSpace(b: Byte) {
    b == 32 || 9 <= b <= 13
  }

  predicate Blank(line: Bytes) {
    forall i :: 0 <= i < |line| ==> IsSpace(line[i])
  }

  /** A way to read and write records as lines; printing and parsing are taken as given. */
  datatype Codec<!R> = Codec(parse: Bytes -> Option<R>, render: R -> Bytes)

  /** Printed records are nonblank single lines that read back, and no part of one reads as a record. */
  ghost predicate Faithful<R(!new)>(c: Codec<R>) {
    forall r :: && c.parse(c.render(r)) == Some(r) && NL !in c.render(r) && !Blank(c.render(r))
                && forall k :: 0 <= k < |c.render(r)| ==> c.parse(c.render(r)[..k]) == None
  }

  /** The records of a list of lines, skipping what is blank or does not parse. */
  function ParseLines<R>(c: Codec<R>, lines: seq<Bytes>): seq<R> {
    if lines == [] then []
    else
      var last := lines[|lines| - 1];
      ParseLines(c, lines[..|lines| - 1]) + ParseLine(c, last)
  }

  function ParseLine<R>(c: Codec<R>, line: Bytes): seq<R> {
    if Blank(line) then [] else match c.parse(line) case None => [] case Some(r) => [r]
  }

  lemma {:induction false} ParseConcat<R>(c: Codec<R>, a: seq<Bytes>, b: seq<Bytes>)
    ensures ParseLines(c, a + b) == ParseLines(c, a) + ParseLines(c, b)
    decreases |b|
  {
    if b == [] {
      assert a + b == a;
    } else {
      assert (a + b)[..|a + b| - 1] == a + b[..|b| - 1];
      ParseConcat(c, a, b[..|b| - 1]);
    }
  }

  lemma ParseOne<R>(c: Codec<R>, line: Bytes)
    ensures ParseLines(c, [line]) == ParseLine(c, line)
  {
    assert [line][..0] == [];
  }

  /** Everything a reader of the whole content gets. */
  function Records<R>(c: Codec<R>, content: Bytes): seq<R> {
    ParseLines(c, Split(content))
  }

  lemma NothingRead<R>(c: Codec<R>)
    ensures ParseLines(c, [[]]) == [] && Records(c, []) == []
  {
    ParseOne(c, []);
    assert Split([]) == [[]];
  }

  /** What follows closed content starts on a line of its own. */
  lemma SplitClosed(a: Bytes, b: Bytes)
    requires Closed(a) && a != []
    ensures Split(a) == Split(a[..|a| - 1]) + [[]] && Split(a + b) == Split(a[..|a| - 1]) + Split(b)
  {
    var front := a[..|a| - 1];
    assert front + [NL] == a;
    SplitAtNewline(front, b);
    SplitAtNewline(front, []);
    assert a + [] == a && Split([]) == [[]];
  }

  lemma EmptyLineIgnored<R>(c: Codec<R>, front: seq<Bytes>, lines: seq<Bytes>)
    ensures ParseLines(c, front + lines) == ParseLines(c, front + [[]]) + ParseLines(c, lines)
  {
    ParseConcat(c, front, lines);
    ParseConcat(c, front, [[]]);
    NothingRead(c);
    assert ParseLines(c, front) + [] == ParseLines(c, front);
  }

  /** After closed content, the rest is read on its own. */
  lemma ClosedConcat<R>(c: Codec<R>, a: Bytes, b: Bytes)
    requires Closed(a)
    ensures Records(c, a + b) == Records(c, a) + Records(c, b)
  {
    if a == [] {
      NothingRead(c);
      assert a + b == b && [] + Records(c, b) == Records(c, b);
    } else {
      SplitClosed(a, b);
      EmptyLineIgnored(c, Split(a[..|a| - 1]), Split(b));
    }
  }
}
