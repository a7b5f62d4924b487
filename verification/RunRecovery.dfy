/** What a store holds after a commit that stops anywhere, and what reading it back gives. */
module RunRecovery {
  import opened Wrappers
  import opened RunRecords
  import opened RunSpec
  import opened RunSteps

  /** A store that can be read. */
  ghost predicate Sound(st: Store) {
    && WellNumbered(st.log) && Base(st) <= |st.log|
    && Load(st).Loaded? && Load(st).run.lastSeq == |st.log|
  }

  /** If the log founds a run, it alone agrees with the store and with the saved snapshot. */
  ghost predicate Coherent(st: Store) {
    && (Anchored(st.log) ==> Rebuild(st.log) == Load(st))
    && (Anchored(st.log) && 0 < Base(st) <= |st.log| ==> Rebuild(st.log[..Base(st)]) == Saved(st))
  }

  /** The document after `ps` were appended to a log of `base` events. */
  ghost function Reached(run: Run, base: nat, ps: seq<Payload>): Run {
    if ps == [] then run else ApplyAll(run, ps).(lastSeq := base + |ps|)
  }

  lemma NumberedShape(base: nat, ps: seq<Payload>)
    requires ps != []
    ensures Numbered(base, ps)[..|ps| - 1] == Numbered(base, ps[..|ps| - 1])
    ensures Numbered(base, ps)[|ps| - 1] == Event(base + |ps|, ps[|ps| - 1])
  {
  }

  /** The sequence number an event finds has no effect on what it does. */
  lemma NumberIrrelevant(run: Run, k: nat, m: nat, p: Payload)
    ensures ApplyPayload(run.(lastSeq := k), p).(lastSeq := m) == ApplyPayload(run, p).(lastSeq := m)
  {
  }

  lemma ReachedStep(run: Run, base: nat, ps: seq<Payload>)
    requires ps != []
    ensures ApplyEvent(Loaded(Reached(run, base, ps[..|ps| - 1])), Event(base + |ps|, ps[|ps| - 1])) ==
            Loaded(Reached(run, base, ps))
  {
    NumberIrrelevant(ApplyAll(run, ps[..|ps| - 1]), base + |ps| - 1, base + |ps|, ps[|ps| - 1]);
  }

  lemma {:induction false} FoldNumbered(run: Run, base: nat, ps: seq<Payload>)
    ensures Fold(Loaded(run), Numbered(base, ps)) == Loaded(Reached(run, base, ps))
    decreases |ps|
  {
    if ps != [] {
      NumberedShape(base, ps);
      FoldNumbered(run, base, ps[..|ps| - 1]);
      ReachedStep(run, base, ps);
    }
  }

  /** A founding event makes whatever came before it irrelevant. */
  lemma {:induction false} FoundingForgets(doc: Doc, other: Doc, events: seq<Event>)
    requires events != [] && Founds(events[0].data) && doc != Broken && other != Broken
    ensures Fold(doc, events) == Fold(other, events)
  {
    var front := events[..|events| - 1];
    if front != [] {
      FoundingForgets(doc, other, front);
    } else {
      assert Fold(doc, front) == doc && Fold(other, front) == other;
    }
  }

  lemma AppendKeepsNumbers(log: seq<Event>, ps: seq<Payload>)
    requires WellNumbered(log)
    ensures WellNumbered(log + Numbered(|log|, ps))
  {
  }

  /** Reading after the new events, with the old snapshot. */
  lemma LoadAppended(st: Store, ps: seq<Payload>)
    requires Sound(st)
    ensures var st' := st.(log := st.log + Numbered(|st.log|, ps));
            Sound(st') && Load(st') == Loaded(Reached(Load(st).run, |st.log|, ps))
  {
    var log' := st.log + Numbered(|st.log|, ps);
    AppendKeepsNumbers(st.log, ps);
    WellNumberedReads(st.log, Base(st));
    WellNumberedReads(log', Base(st));
    assert log'[Base(st)..] == st.log[Base(st)..] + Numbered(|st.log|, ps);
    FoldConcat(Saved(st), st.log[Base(st)..], Numbered(|st.log|, ps));
    FoldNumbered(Load(st).run, |st.log|, ps);
  }

  /** The log has events beyond those a founded run's log had before. */
  lemma AppendCoherent(st: Store, ps: seq<Payload>)
    requires Sound(st) && Coherent(st)
    ensures Coherent(st.(log := st.log + Numbered(|st.log|, ps)))
  {
    var done := Numbered(|st.log|, ps);
    var log' := st.log + done;
    LoadAppended(st, ps);
    FoldNumbered(Load(st).run, |st.log|, ps);
    if Anchored(log') {
      if st.log == [] {
        assert log' == done;
        FoundingForgets(Absent, Load(st), done);
      } else {
        assert log'[0] == st.log[0];
        FoldConcat(Absent, st.log, done);
        assert log'[..Base(st)] == st.log[..Base(st)];
      }
    }
  }

  /** Saving what was read changes nothing that is read. */
  lemma SaveReads(st: Store)
    requires Sound(st)
    ensures var st' := Store(Some(Load(st).run), st.log);
            Sound(st') && Load(st') == Load(st) && (Coherent(st) ==> Coherent(st'))
  {
    WellNumberedReads(st.log, |st.log|);
    assert st.log[|st.log|..] == [] && st.log[..|st.log|] == st.log;
  }

  predicate Saves(tx: Tx, stop: Option<nat>) {
    Written(stop, |tx.events| + 1) > |tx.events| > 0
  }

  lemma CommitWrites(st: Store, tx: Tx, stop: Option<nat>)
    requires WellNumbered(st.log)
    ensures Commit(st, tx, stop).log == st.log + Numbered(|st.log|, tx.events[..Written(stop, |tx.events|)])
    ensures Commit(st, tx, stop).snapshot ==
            if Saves(tx, stop) then Some(tx.run.(lastSeq := |st.log| + |tx.events|)) else st.snapshot
  {
    WellNumberedReads(st.log, 0);
  }

  /** A commit appends events and then, if it gets that far, saves what they lead to. */
  lemma CommitIs(st: Store, tx: Tx, stop: Option<nat>, d: Discipline)
    requires Sound(st) && Tracks(Load(st).run, tx, d)
    ensures var st1 := st.(log := st.log + Numbered(|st.log|, tx.events[..Written(stop, |tx.events|)]));
            Load(st1).Loaded? &&
            Commit(st, tx, stop) == if Saves(tx, stop) then Store(Some(Load(st1).run), st1.log) else st1
  {
    CommitWrites(st, tx, stop);
    LoadAppended(st, tx.events[..Written(stop, |tx.events|)]);
    if Saves(tx, stop) {
      assert tx.events[..Written(stop, |tx.events|)] == tx.events;
    }
  }

  /**
   * Crash recovery: however many of its writes a commit makes, reading the run
   * back gives exactly the fold of the events that were appended.
   */
  lemma CommitLoads(st: Store, tx: Tx, stop: Option<nat>, d: Discipline)
    requires Sound(st) && Tracks(Load(st).run, tx, d)
    ensures var st', k := Commit(st, tx, stop), Written(stop, |tx.events|);
            Sound(st') && Load(st') == Loaded(Reached(Load(st).run, |st.log|, tx.events[..k]))
    ensures Saves(tx, stop) ==> Commit(st, tx, stop).snapshot == Some(Load(Commit(st, tx, stop)).run)
  {
    var done := tx.events[..Written(stop, |tx.events|)];
    CommitIs(st, tx, stop, d);
    LoadAppended(st, done);
    SaveReads(st.(log := st.log + Numbered(|st.log|, done)));
  }

  lemma CommitCoherent(st: Store, tx: Tx, stop: Option<nat>, d: Discipline)
    requires Sound(st) && Coherent(st) && Tracks(Load(st).run, tx, d)
    ensures Coherent(Commit(st, tx, stop))
  {
    var done := tx.events[..Written(stop, |tx.events|)];
    CommitIs(st, tx, stop, d);
    LoadAppended(st, done);
    AppendCoherent(st, done);
    SaveReads(st.(log := st.log + Numbered(|st.log|, done)));
  }
}
