/** The chunked reader of a child process's output (process/supervisor.py). */
module LineReader {
  import opened Wrappers
  import opened Lines

  const MAX_LINE: nat := 65536

  // ---- cutting a whole stream ----

  /** Where the first newline is, or the length when there is none. */
  function Find(s: Bytes): (k: nat)
    ensures k <= |s| && NL !in s[..k] && (k < |s| ==> s[k] == NL)
  {
    if s == [] || s[0] == NL then 0
    else
      var k := Find(s[1..]);
      assert s[..k + 1] == [s[0]] + s[1..][..k];
      k + 1
  }

  /** The length of the piece that can be cut off without seeing more, or 0. */
  function ReadyCut(s: Bytes): nat {
    var k := Find(s);
    if k == |s| || k >= MAX_LINE then (if |s| >= MAX_LINE then MAX_LINE else 0) else k + 1
  }

  /** The pieces cut so far from what has arrived. */
  function Ready(s: Bytes): seq<Bytes> {
    var n := ReadyCut(s);
    if n == 0 then [] else [s[..n]] + Ready(s[n..])
  }

  /** What is kept until more arrives. */
  function Rest(s: Bytes): Bytes {
    var n := ReadyCut(s);
    if n == 0 then s else Rest(s[n..])
  }

  /** Cutting a whole stream: all ready pieces, then what is left. */
  function Cut(s: Bytes): seq<Bytes> {
    Ready(s) + if Rest(s) == [] then [] else [Rest(s)]
  }

  function Flatten(pieces: seq<Bytes>): Bytes {
    if pieces == [] then [] else pieces[0] + Flatten(pieces[1..])
  }

  // ---- what cutting means ----

  /** A complete piece: nothing after its newline, and a newline unless it is as long as allowed. */
  predicate Complete(piece: Bytes) {
    && 0 < |piece| <= MAX_LINE && NL !in piece[..|piece| - 1]
    && (piece[|piece| - 1] == NL || |piece| == MAX_LINE)
  }

  predicate Tail(piece: Bytes) {
    0 < |piece| < MAX_LINE && NL !in piece
  }

  /** Every piece is complete, except that the last may be a tail. */
  predicate WellCut(pieces: seq<Bytes>) {
    pieces == [] || (Complete(pieces[0]) && WellCut(pieces[1..])) || (|pieces| == 1 && Tail(pieces[0]))
  }

  lemma InFront(s: Bytes, n: nat, k: nat)
    requires k < n <= |s|
    ensures s[k] in s[..n]
  {
    assert s[..n][k] == s[k];
  }

  /** A complete piece is cut off the same way whatever follows it. */
  lemma CompleteIsCut(piece: Bytes, more: Bytes)
    requires Complete(piece)
    ensures ReadyCut(piece + more) == |piece|
    ensures (piece + more)[..|piece|] == piece && (piece + more)[|piece|..] == more
  {
    var s, last := piece + more, |piece| - 1;
    var k := Find(s);
    assert s[last] == piece[last] && s[..last] == piece[..last];
    if k < last { InFront(s, last, k); }
    if k > last { InFront(s, k, last); }
  }

  lemma CutIsComplete(s: Bytes)
    requires ReadyCut(s) > 0
    ensures ReadyCut(s) <= |s| && Complete(s[..ReadyCut(s)])
  {
    var k, n := Find(s), ReadyCut(s);
    assert s[..n][..n - 1] == s[..k][..n - 1];
  }

  lemma TailIsKept(s: Bytes)
    ensures Tail(s) || s == [] <==> ReadyCut(s) == 0
  {
    var k := Find(s);
    assert k == |s| ==> s[..k] == s;
    assert k < |s| ==> s[k] in s;
  }

  lemma TailAlone(s: Bytes)
    requires Tail(s)
    ensures WellCut([s]) && Flatten([s]) == s
  {
    assert [s][1..] == [] && s + [] == s;
  }

  lemma CutAlone(s: Bytes)
    requires ReadyCut(s) == 0
    ensures WellCut(Cut(s)) && Flatten(Cut(s)) == s
  {
    TailIsKept(s);
    if s != [] { TailAlone(s); }
  }

  lemma CutStep(s: Bytes)
    requires ReadyCut(s) > 0
    ensures ReadyCut(s) <= |s| && Cut(s) == [s[..ReadyCut(s)]] + Cut(s[ReadyCut(s)..])
  {
    CutIsComplete(s);
  }

  lemma WellCutMore(piece: Bytes, pieces: seq<Bytes>)
    requires Complete(piece) && WellCut(pieces)
    ensures WellCut([piece] + pieces) && Flatten([piece] + pieces) == piece + Flatten(pieces)
  {
    assert ([piece] + pieces)[1..] == pieces;
  }

  /** The pieces of a stream are well cut and are, in order, the whole stream. */
  lemma {:induction false} CutIsWellCut(s: Bytes)
    ensures WellCut(Cut(s)) && Flatten(Cut(s)) == s
    decreases |s|
  {
    hide Cut, ReadyCut, Complete;
    var n := ReadyCut(s);
    if n == 0 {
      CutAlone(s);
    } else {
      CutIsComplete(s);
      CutIsWellCut(s[n..]);
      CutStep(s);
      WellCutMore(s[..n], Cut(s[n..]));
      assert s[..n] + s[n..] == s;
    }
  }

  /** There is only one way to cut a stream well: the reader's. */
  lemma {:induction false} OnlyOneCut(pieces: seq<Bytes>)
    requires WellCut(pieces)
    ensures pieces == Cut(Flatten(pieces))
  {
    if pieces == [] {
    } else if Complete(pieces[0]) && WellCut(pieces[1..]) {
      OnlyOneCut(pieces[1..]);
      CompleteIsCut(pieces[0], Flatten(pieces[1..]));
      assert pieces == [pieces[0]] + pieces[1..];
    } else {
      assert pieces[1..] == [];
      assert Flatten(pieces) == pieces[0];
      TailIsKept(pieces[0]);
    }
  }

  /** The reader's pieces are exactly the well-cut pieces that make up the stream. */
  lemma CutExactly(s: Bytes, pieces: seq<Bytes>)
    ensures pieces == Cut(s) <==> WellCut(pieces) && Flatten(pieces) == s
  {
    CutIsWellCut(s);
    if WellCut(pieces) && Flatten(pieces) == s { OnlyOneCut(pieces); }
  }

  lemma {:induction false} PiecesBounded(pieces: seq<Bytes>)
    requires WellCut(pieces)
    ensures forall p :: p in pieces ==> 0 < |p| <= MAX_LINE
  {
    if pieces != [] {
      if Complete(pieces[0]) && WellCut(pieces[1..]) { PiecesBounded(pieces[1..]); }
    }
  }

  // ---- arriving in chunks ----

  /** What has been cut stays cut when more arrives, and only the rest is looked at again. */
  lemma {:induction false} ReadyGrows(s: Bytes, more: Bytes)
    ensures Ready(s + more) == Ready(s) + Ready(Rest(s) + more)
    ensures Rest(s + more) == Rest(Rest(s) + more)
    decreases |s|
  {
    var n := ReadyCut(s);
    if n > 0 {
      CutIsComplete(s);
      CompleteIsCut(s[..n], s[n..] + more);
      assert s[..n] + (s[n..] + more) == s + more;
      ReadyGrows(s[n..], more);
    }
  }

  /** The bytes read before the stream ends: an empty read is the end. */
  function Stream(chunks: seq<Bytes>): Bytes {
    if chunks == [] || chunks[0] == [] then [] else chunks[0] + Stream(chunks[1..])
  }

  lemma StreamStep(chunks: seq<Bytes>, i: nat, got: Bytes)
    requires i < |chunks| && chunks[i] != [] && Stream(chunks) == got + Stream(chunks[i..])
    ensures Stream(chunks) == got + chunks[i] + Stream(chunks[i + 1..])
    ensures chunks[..i + 1] == chunks[..i] + [chunks[i]]
  {
    assert chunks[i..][1..] == chunks[i + 1..];
    assert got + (chunks[i] + Stream(chunks[i + 1..])) == got + chunks[i] + Stream(chunks[i + 1..]);
  }

  /** What the reader thread puts on its queue: pieces, then one end mark. */
  function Lined(pieces: seq<Bytes>): seq<Option<Bytes>> {
    seq(|pieces|, i requires 0 <= i < |pieces| => Some(pieces[i]))
  }

  lemma LinedConcat(a: seq<Bytes>, b: seq<Bytes>)
    ensures Lined(a + b) == Lined(a) + Lined(b)
  {
  }

  lemma LinedMore(done: seq<Bytes>, piece: Bytes)
    ensures Lined(done + [piece]) == Lined(done) + [Some(piece)]
  {
  }

  lemma ReadyStep(done: seq<Bytes>, rest: Bytes)
    requires ReadyCut(rest) > 0
    ensures ReadyCut(rest) <= |rest|
    ensures var piece, more := rest[..ReadyCut(rest)], rest[ReadyCut(rest)..];
            && done + Ready(rest) == (done + [piece]) + Ready(more) && Rest(rest) == Rest(more)
            && Lined(done + [piece]) == Lined(done) + [Some(piece)]
  {
    CutIsComplete(rest);
    var n := ReadyCut(rest);
    Regroup(done, [rest[..n]], Ready(rest[n..]));
    LinedMore(done, rest[..n]);
  }

  lemma Regroup<T>(a: seq<T>, b: seq<T>, c: seq<T>)
    ensures a + (b + c) == (a + b) + c
  {
  }

  /** The queue after one more chunk. */
  lemma QueueGrows(before: seq<Option<Bytes>>, got: Bytes, chunk: Bytes)
    ensures before + Lined(Ready(got)) + Lined(Ready(Rest(got) + chunk)) == before + Lined(Ready(got + chunk))
    ensures Rest(Rest(got) + chunk) == Rest(got + chunk)
  {
    ReadyGrows(got, chunk);
    LinedConcat(Ready(got), Ready(Rest(got) + chunk));
    Regroup(before, Lined(Ready(got)), Lined(Ready(Rest(got) + chunk)));
  }

  /** The queue after the rest is emitted too. */
  lemma QueueFlushed(before: seq<Option<Bytes>>, got: Bytes)
    requires Rest(got) != []
    ensures before + Lined(Ready(got)) + [Some(Rest(got))] == before + Lined(Cut(got))
  {
    LinedConcat(Ready(got), [Rest(got)]);
    Regroup(before, Lined(Ready(got)), [Some(Rest(got))]);
  }

  class Output {
    var counted: nat
    var queue: seq<Option<Bytes>>

    constructor ()
      ensures counted == 0 && queue == []
    {
      counted, queue := 0, [];
    }

    /** Cuts what it can off the buffer. */
    method CutReady(buffer: Bytes) returns (rest: Bytes)
      modifies this`queue
      ensures rest == Rest(buffer)
      ensures queue == old(queue) + Lined(Ready(buffer))
    {
      rest := buffer;
      ghost var done: seq<Bytes> := [];
      while ReadyCut(rest) > 0
        invariant done + Ready(rest) == Ready(buffer) && Rest(rest) == Rest(buffer)
        invariant queue == old(queue) + Lined(done)
        decreases |rest|
      {
        var n := ReadyCut(rest);
        ReadyStep(done, rest);
        done := done + [rest[..n]];
        queue, rest := queue + [Some(rest[..n])], rest[n..];
      }
      assert done == Ready(buffer);
    }

    /**
     * Reads until an empty read, which is the end of the stream, or until a
     * read raises: `chunks` are the reads that returned. In both cases the
     * queue is closed; only at the end of the stream is the rest emitted too.
     */
    method Reader(chunks: seq<Bytes>)
      modifies this
      ensures counted == old(counted) + |Stream(chunks)|
      ensures queue == old(queue) + Lined(if [] in chunks then Cut(Stream(chunks)) else Ready(Stream(chunks))) + [None]
    {
      var buffer: Bytes := [];
      ghost var got: Bytes := [];
      var i, ended := 0, false;
      while i < |chunks| && !ended
        invariant 0 <= i <= |chunks| && buffer == Rest(got)
        invariant [] !in chunks[..i]
        invariant ended ==> i < |chunks| && chunks[i] == []
        invariant Stream(chunks) == got + if ended then [] else Stream(chunks[i..])
        invariant counted == old(counted) + |got| && queue == old(queue) + Lined(Ready(got))
        decreases |chunks| - i, !ended
      {
        var chunk := chunks[i];
        if chunk == [] {
          ended := true;
        } else {
          StreamStep(chunks, i, got);
          QueueGrows(old(queue), got, chunk);
          counted := counted + |chunk|;
          buffer := CutReady(buffer + chunk);
          got := got + chunk;
          i := i + 1;
        }
      }
      assert ended ==> [] in chunks;
      assert !ended ==> chunks[..i] == chunks;
      assert got == Stream(chunks);
      if ended && buffer != [] {
        QueueFlushed(old(queue), got);
        queue := queue + [Some(buffer)];
      }
      queue := queue + [None];
    }
  }

  lemma {:induction false} PieceIsWhole(pieces: seq<Bytes>, i: nat)
    requires WellCut(pieces) && i + 1 < |pieces|
    ensures pieces[i] != [] && (pieces[i][|pieces[i]| - 1] == NL || |pieces[i]| == 65536)
    decreases i
  {
    if i > 0 { PieceIsWhole(pieces[1..], i - 1); }
  }

  /** However a stream is chunked, its pieces are the same, and only the limit of 64 KiB cuts a line. */
  lemma ChunkingIsIrrelevant(chunks: seq<Bytes>, whole: Bytes)
    requires [] in chunks && Stream(chunks) == whole
    ensures Cut(Stream(chunks)) == Cut(Stream([whole, []])) && Flatten(Cut(Stream(chunks))) == whole
    ensures forall p :: p in Cut(whole) ==> 0 < |p| <= 65536
    ensures forall i :: 0 <= i < |Cut(whole)| - 1 ==>
              Cut(whole)[i][|Cut(whole)[i]| - 1] == NL || |Cut(whole)[i]| == 65536
  {
    assert Stream([whole, []]) == whole by {
      if whole != [] { assert [whole, []][1..] == [[]]; }
    }
    CutIsWellCut(whole);
    PiecesBounded(Cut(whole));
    forall i | 0 <= i < |Cut(whole)| - 1
      ensures Cut(whole)[i][|Cut(whole)[i]| - 1] == NL || |Cut(whole)[i]| == 65536
    {
      PieceIsWhole(Cut(whole), i);
    }
  }
}
