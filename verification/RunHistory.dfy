/** Whole runs: every reachable or recovered store, whatever conductors do and wherever they crash. */
module RunHistory {
  import opened Wrappers
  import opened Ordering
  import opened UnitStates
  import opened RunRecords
  import opened RunSpec
  import opened RunSteps
  import opened RunRecovery
  import opened RunSafety
  import Dag

  // ---- what the log says about units ----

  ghost predicate About(e: Event, kind: Kind, uid: Id) {
    e.data.kind == kind && e.data.unit.Some? && e.data.unit.value.0 == uid
  }

  /** The log holds the move that made `history`. */
  ghost predicate MoveLogged(log: seq<Event>, uid: Id, history: seq<Move>) {
    exists k :: 0 <= k < |log| && About(log[k], StateChanged, uid) && log[k].data.unit.value.1.history == history
  }

  /** Before event `n`, this handoff outcome was recorded while its attempt was the current one. */
  ghost predicate NoteLogged(log: seq<Event>, n: nat, uid: Id, note: HandoffNote) {
    exists j :: 0 <= j < n && j < |log| && About(log[j], UnitUpdated, uid)
                && log[j].data.unit.value.1.note == Some(note) && log[j].data.unit.value.1.attempts == note.attempt
  }

  /** The largest grant the log records for a unit. */
  function HighGrant(log: seq<Event>, uid: Id): nat {
    if log == [] then 0
    else
      var m, e := HighGrant(log[..|log| - 1], uid), log[|log| - 1].data;
      if e.unit.Some? && e.unit.value.0 == uid && e.unit.value.1.grant > m then e.unit.value.1.grant else m
  }

  ghost predicate HistoryLogged(log: seq<Event>, uid: Id, u: Unit) {
    forall i :: 0 < i <= |u.history| ==> MoveLogged(log, uid, u.history[..i])
  }

  /** No tier, and no deprecated total, exceeds its budget plus the largest grant recorded. */
  ghost predicate WithinBudget(u: Unit, high: nat) {
    && u.grant <= high
    && (u.budget.perTier.Some? ==> forall t :: t in u.byTier ==> u.byTier[t] <= u.budget.perTier.value + high)
    && (u.budget.perTier.None? && u.budget.total.Some? ==> u.attempts <= u.budget.total.value + high)
  }

  ghost predicate UnitLogged(log: seq<Event>, uid: Id, u: Unit) {
    && HistoryLogged(log, uid, u)
    && (u.note.Some? ==> NoteLogged(log, |log|, uid, u.note.value))
    && WithinBudget(u, HighGrant(log, uid))
  }

  ghost predicate EndsIn(history: seq<Move>, s: State) {
    history != [] && history[|history| - 1].to == s
  }

  ghost predicate EntersVerifying(p: Payload) {
    p.kind == StateChanged && p.unit.Some? && EndsIn(p.unit.value.1.history, Verifying)
  }

  /** The move into verifying at event `k` followed a valid handoff for that same attempt. */
  ghost predicate VerifyingEarned(log: seq<Event>, k: nat)
    requires k < |log|
  {
    EntersVerifying(log[k].data) ==>
      var (uid, u) := log[k].data.unit.value;
      HandoffReady(u) && NoteLogged(log, k, uid, u.note.value)
  }

  ghost predicate LogInv(log: seq<Event>, run: Run) {
    && (forall k :: 0 <= k < |log| ==> VerifyingEarned(log, k))
    && (forall uid :: uid in run.units ==> UnitLogged(log, uid, run.units[uid]))
  }

  lemma UnitLogGrows(log: seq<Event>, e: Event, uid: Id, u: Unit)
    requires UnitLogged(log, uid, u)
    ensures UnitLogged(log + [e], uid, u)
  {
    var log' := log + [e];
    assert log'[..|log'| - 1] == log;
    forall i | 0 < i <= |u.history| ensures MoveLogged(log', uid, u.history[..i]) {
      assert MoveLogged(log, uid, u.history[..i]);
      var k :| 0 <= k < |log| && About(log[k], StateChanged, uid) && log[k].data.unit.value.1.history == u.history[..i];
      assert log'[k] == log[k];
    }
    if u.note.Some? { NoteStays(log, e, |log|, uid, u.note.value); }
  }

  lemma NoteStays(log: seq<Event>, e: Event, n: nat, uid: Id, note: HandoffNote)
    requires NoteLogged(log, n, uid, note)
    ensures NoteLogged(log + [e], n, uid, note) && NoteLogged(log + [e], |log| + 1, uid, note)
  {
    var j :| 0 <= j < n && j < |log| && About(log[j], UnitUpdated, uid)
             && log[j].data.unit.value.1.note == Some(note) && log[j].data.unit.value.1.attempts == note.attempt;
    assert (log + [e])[j] == log[j];
  }

  lemma EarnedStays(log: seq<Event>, e: Event, k: nat)
    requires k < |log| && VerifyingEarned(log, k)
    ensures VerifyingEarned(log + [e], k)
  {
    assert (log + [e])[k] == log[k];
    if EntersVerifying(log[k].data) {
      var (uid, u) := log[k].data.unit.value;
      NoteStays(log, e, k, uid, u.note.value);
    }
  }

  lemma TouchLogged(log: seq<Event>, e: Event, uid: Id, u: Unit, u': Unit)
    requires UnitLogged(log, uid, u) && TouchStep(e.data.kind, u, u') && e.data.unit == Some((uid, u'))
    ensures UnitLogged(log + [e], uid, u')
  {
    var log' := log + [e];
    assert log'[..|log'| - 1] == log;
    UnitLogGrows(log, e, uid, u);
    if u'.note != u.note {
      assert About(log'[|log|], UnitUpdated, uid);
    }
    assert HighGrant(log', uid) >= HighGrant(log, uid);
    forall i | 0 < i <= |u'.history| ensures MoveLogged(log', uid, u'.history[..i]) {
      assert MoveLogged(log', uid, u.history[..i]);
    }
  }

  lemma MoveIsLogged(log: seq<Event>, e: Event, uid: Id, u: Unit, u': Unit)
    requires UnitLogged(log, uid, u) && MoveStep(u, u') && e.data.kind == StateChanged && e.data.unit == Some((uid, u'))
    ensures HistoryLogged(log + [e], uid, u')
  {
    var log' := log + [e];
    UnitLogGrows(log, e, uid, u);
    var n := |u.history|;
    forall i | 0 < i <= n + 1 ensures MoveLogged(log', uid, u'.history[..i]) {
      if i <= n {
        assert u'.history[..i] == u.history[..i];
        assert MoveLogged(log', uid, u.history[..i]);
      } else {
        assert u'.history[..i] == u'.history;
        assert About(log'[|log|], StateChanged, uid);
      }
    }
  }

  lemma MoveWithinBudget(u: Unit, u': Unit, high: nat)
    requires WithinBudget(u, high) && MoveStep(u, u')
    ensures WithinBudget(u', high)
  {
    if u'.state == Assigned && u.budget.perTier.Some? {
      assert TierCount(u.byTier, u'.tier.value) < u.budget.perTier.value + u.grant;
    }
  }

  lemma UnitEventLogged(log: seq<Event>, run: Run, e: Event, d: Discipline)
    requires e.data.unit.Some? && StepGood(run, e.data, d)
    requires UnitLogged(log, e.data.unit.value.0, run.units[e.data.unit.value.0])
    ensures UnitLogged(log + [e], e.data.unit.value.0, e.data.unit.value.1)
    ensures VerifyingEarned(log + [e], |log|)
  {
    var (uid, u') := e.data.unit.value;
    var u, log' := run.units[uid], log + [e];
    assert log'[..|log'| - 1] == log;
    if e.data.kind == StateChanged {
      UnitLogGrows(log, e, uid, u);
      MoveIsLogged(log, e, uid, u, u');
      MoveWithinBudget(u, u', HighGrant(log', uid));
      if u'.state == Verifying { NoteStays(log, e, |log|, uid, u'.note.value); }
    } else {
      TouchLogged(log, e, uid, u, u');
    }
  }

  lemma LogStep(log: seq<Event>, run: Run, e: Event, d: Discipline)
    requires LogInv(log, run) && StepGood(run, e.data, d)
    ensures LogInv(log + [e], ApplyPayload(run, e.data))
  {
    var log', run' := log + [e], ApplyPayload(run, e.data);
    forall k | 0 <= k < |log'| ensures VerifyingEarned(log', k) {
      if k < |log| { EarnedStays(log, e, k); }
      else if e.data.unit.Some? { UnitEventLogged(log, run, e, d); }
    }
    forall uid | uid in run'.units ensures UnitLogged(log', uid, run'.units[uid]) {
      if e.data.run.Some? {
        NewUnitsShape(e.data.run.value.plan);
        var p :| p in e.data.run.value.plan && run'.units[uid] == NewUnit(p);
      } else if e.data.unit.Some? && e.data.unit.value.0 == uid {
        UnitEventLogged(log, run, e, d);
      } else {
        UnitLogGrows(log, e, uid, run.units[uid]);
      }
    }
  }

  lemma {:induction false} LogSteps(log: seq<Event>, run: Run, base: nat, ps: seq<Payload>, d: Discipline)
    requires LogInv(log, run) && Steps(run, ps, d)
    ensures LogInv(log + Numbered(base, ps), ApplyAll(run, ps))
    decreases |ps|
  {
    if ps == [] {
      assert log + Numbered(base, ps) == log;
    } else {
      var n := |ps| - 1;
      NumberedShape(base, ps);
      LogSteps(log, run, base, ps[..n], d);
      LogStep(log + Numbered(base, ps[..n]), ApplyAll(run, ps[..n]), Event(base + |ps|, ps[n]), d);
      assert log + Numbered(base, ps) == (log + Numbered(base, ps[..n])) + [Event(base + |ps|, ps[n])];
    }
  }

  // ---- reachable stores ----

  const EMPTY := Store(None, [])

  ghost predicate Good(st: Store, d: Discipline) {
    || st == EMPTY
    || (st.snapshot.Some? && Sound(st) && Coherent(st) && Kept(Load(st).run, d) && LogInv(st.log, Load(st).run))
  }

  /** Callers keep their promises and generated handoff ids are new. */
  ghost predicate Admitted(st: Store, a: Action, d: Discipline) {
    Load(st).Loaded? ==> Issued(Load(st).run, a.op, d) && FreshHandoff(Load(st).run, a.op)
  }

  lemma CommitGood(st: Store, tx: Tx, stop: Option<nat>, d: Discipline)
    requires Good(st, d) && st != EMPTY && Tracks(Load(st).run, tx, d)
    ensures Good(Commit(st, tx, stop), d) && Commit(st, tx, stop) != EMPTY
  {
    var run, k := Load(st).run, Written(stop, |tx.events|);
    var done := tx.events[..k];
    WellNumberedReads(st.log, Base(st));
    CommitLoads(st, tx, stop, d);
    CommitCoherent(st, tx, stop, d);
    StepsPrefix(run, tx.events, k, d);
    StepsKeep(run, done, d);
    LogSteps(st.log, run, |st.log|, done, d);
    SeqIrrelevant(st.log + Numbered(|st.log|, done), ApplyAll(run, done), Reached(run, |st.log|, done), d);
  }

  lemma SeqIrrelevant(log: seq<Event>, run: Run, run': Run, d: Discipline)
    requires Kept(run, d) && LogInv(log, run) && run' == run.(lastSeq := run'.lastSeq)
    ensures Kept(run', d) && LogInv(log, run')
  {
    HandoffIrrelevant(run, run', d);
  }

  lemma CreatedGood(doc: Run, d: Discipline)
    requires FreshDoc(doc) && doc.lastSeq == 0
    ensures Good(Store(Some(doc), []), d) && Load(Store(Some(doc), [])) == Loaded(doc)
  {
    FreshKept(doc, d);
    NewUnitsShape(doc.plan);
    forall uid | uid in doc.units ensures UnitLogged([], uid, doc.units[uid]) {
      var p :| p in doc.plan && doc.units[uid] == NewUnit(p);
    }
  }

  lemma CreateExecGood(st: Store, a: Action, d: Discipline)
    requires a.op.Create? && Good(st, d) && Admitted(st, a, d)
    ensures Good(Exec(st, a), d)
  {
    if PlanAccepted(a.op) && st == EMPTY && a.stop != Some(0) {
      var doc := FreshRun(a.op.plan, a.actor, a.op.ttl, a.now);
      CreatedGood(doc, d);
      FoundTracks(doc, doc, RunCreated, a.actor, a.now, d);
      CommitGood(Store(Some(doc), []), Found(doc, RunCreated, a.actor, a.now),
                 if a.stop.Some? then Some(a.stop.value - 1) else None, d);
    }
  }

  lemma ReplaceExecGood(st: Store, a: Action, d: Discipline)
    requires a.op.Replace? && Good(st, d) && Admitted(st, a, d)
    ensures Good(Exec(st, a), d)
  {
    if st != EMPTY && PlanAccepted(a.op) {
      var run := Load(st).run;
      var doc := FreshRun(a.op.plan, a.actor, a.op.ttl, a.now)
        .(created := run.created, replaced := run.replaced + [run.plan]);
      FoundTracks(run, doc, RunReplanned, a.actor, a.now, d);
      CommitGood(st, Found(doc, RunReplanned, a.actor, a.now), a.stop, d);
    }
  }

  /** One call, finished or cut short anywhere, keeps every invariant. */
  lemma ExecGood(st: Store, a: Action, d: Discipline)
    requires Good(st, d) && Admitted(st, a, d)
    ensures Good(Exec(st, a), d)
  {
    if a.op.Create? {
      CreateExecGood(st, a, d);
    } else if a.op.Replace? {
      ReplaceExecGood(st, a, d);
    } else if st != EMPTY && Perform(Load(st).run, a.op, a.actor, a.now).Ok? {
      PerformTracks(Load(st).run, a.op, a.actor, a.now, d);
      CommitGood(st, Perform(Load(st).run, a.op, a.actor, a.now).value.tx, a.stop, d);
    }
  }

  ghost function RunAll(st: Store, acts: seq<Action>): Store {
    if acts == [] then st else Exec(RunAll(st, acts[..|acts| - 1]), acts[|acts| - 1])
  }

  ghost predicate Admissible(st: Store, acts: seq<Action>, d: Discipline) {
    acts == [] ||
    (Admissible(st, acts[..|acts| - 1], d) && Admitted(RunAll(st, acts[..|acts| - 1]), acts[|acts| - 1], d))
  }

  lemma {:induction false} AllRunsGood(st: Store, acts: seq<Action>, d: Discipline)
    requires Good(st, d) && Admissible(st, acts, d)
    ensures Good(RunAll(st, acts), d)
  {
    if acts != [] {
      AllRunsGood(st, acts[..|acts| - 1], d);
      ExecGood(RunAll(st, acts[..|acts| - 1]), acts[|acts| - 1], d);
    }
  }

  const ANY := Discipline(false, false, false)
  const ORDERLY := Discipline(true, false, false)
  const PARALLEL := Discipline(false, true, false)

  /** Recovery: a reachable run reads back, and its log alone gives the same run exactly when it founds one. */
  lemma RecoveryTheorem(acts: seq<Action>)
    requires Admissible(EMPTY, acts, ANY)
    ensures var st := RunAll(EMPTY, acts);
            st == EMPTY ||
            (Load(st).Loaded? && (Rebuild(st.log) == Load(st) <==> Anchored(st.log))
             && Load(st) == Load(Store(if Anchored(st.log) then None else st.snapshot, st.log)))
  {
    AllRunsGood(EMPTY, acts, ANY);
    var st := RunAll(EMPTY, acts);
    if st != EMPTY {
      RebuildNeedsFounding(st.log);
      WellNumberedReads(st.log, 0);
      assert st.log[0..] == st.log;
    }
  }

  /** Replaying a snapshot over more events continues from where it left off. */
  lemma SnapshotContinues(snapshot: Option<Run>, log: seq<Event>, ps: seq<Payload>)
    requires WellNumbered(log) && Base(Store(snapshot, log)) <= |log|
    ensures var more := Numbered(|log|, ps);
            Load(Store(snapshot, log + more)) == Fold(Load(Store(snapshot, log)), more)
  {
    var st, more := Store(snapshot, log), Numbered(|log|, ps);
    AppendKeepsNumbers(log, ps);
    WellNumberedReads(log, Base(st));
    WellNumberedReads(log + more, Base(st));
    assert (log + more)[Base(st)..] == log[Base(st)..] + more;
    FoldConcat(Saved(st), log[Base(st)..], more);
  }

  /** Reading after a call is reading before it and folding what the call appended. */
  lemma CommitFolds(st: Store, tx: Tx, stop: Option<nat>, d: Discipline)
    requires Sound(st) && Tracks(Load(st).run, tx, d)
    ensures var done := tx.events[..Written(stop, |tx.events|)];
            && Commit(st, tx, stop).log == st.log + Numbered(|st.log|, done)
            && Load(Commit(st, tx, stop)) == Fold(Load(st), Numbered(|st.log|, done))
  {
    CommitLoads(st, tx, stop, d);
    CommitWrites(st, tx, stop);
    FoldNumbered(Load(st).run, |st.log|, tx.events[..Written(stop, |tx.events|)]);
  }

  lemma ExecFolds(st: Store, a: Action, d: Discipline) returns (done: seq<Payload>)
    requires Good(st, d) && st != EMPTY && Admitted(st, a, d)
    ensures Exec(st, a).log == st.log + Numbered(|st.log|, done)
    ensures Load(Exec(st, a)) == Fold(Load(st), Numbered(|st.log|, done))
  {
    done := [];
    if Exec(st, a) != st {
      ChangeIsCommit(st, a);
      var tx := TxOf(st, a);
      ChangeTracks(st, a, d);
      CommitFolds(st, tx, a.stop, d);
      done := tx.events[..Written(a.stop, |tx.events|)];
    }
  }

  /** The transaction a call on an existing run builds. */
  ghost function TxOf(st: Store, a: Action): Tx
    requires Load(st).Loaded? && !a.op.Create? && (a.op.Replace? || Perform(Load(st).run, a.op, a.actor, a.now).Ok?)
  {
    if a.op.Replace? then Found(ReplacedRun(Load(st).run, a), RunReplanned, a.actor, a.now)
    else Perform(Load(st).run, a.op, a.actor, a.now).value.tx
  }

  ghost function ReplacedRun(run: Run, a: Action): Run
    requires a.op.Replace?
  {
    FreshRun(a.op.plan, a.actor, a.op.ttl, a.now).(created := run.created, replaced := run.replaced + [run.plan])
  }

  lemma ChangeIsCommit(st: Store, a: Action)
    requires st.snapshot.Some? && Load(st).Loaded? && Exec(st, a) != st
    ensures !a.op.Create?
    ensures a.op.Replace? || Perform(Load(st).run, a.op, a.actor, a.now).Ok?
    ensures a.op.Replace? ==> PlanAccepted(a.op)
    ensures Exec(st, a) == Commit(st, TxOf(st, a), a.stop)
  {
  }

  lemma ChangeTracks(st: Store, a: Action, d: Discipline)
    requires Good(st, d) && st != EMPTY && Admitted(st, a, d) && Exec(st, a) != st
    requires !a.op.Create? && (a.op.Replace? || Perform(Load(st).run, a.op, a.actor, a.now).Ok?)
    ensures Tracks(Load(st).run, TxOf(st, a), d)
  {
    ChangeIsCommit(st, a);
    if a.op.Replace? {
      FoundTracks(Load(st).run, ReplacedRun(Load(st).run, a), RunReplanned, a.actor, a.now, d);
    } else {
      PerformTracks(Load(st).run, a.op, a.actor, a.now, d);
    }
  }

  /** Any snapshot saved along the way, replayed with the later log, gives the same run. */
  lemma {:induction false} OldSnapshotStillWorks(acts: seq<Action>, k: nat)
    requires Admissible(EMPTY, acts, ANY) && k <= |acts| && RunAll(EMPTY, acts[..k]).snapshot.Some?
    ensures Load(Store(RunAll(EMPTY, acts[..k]).snapshot, RunAll(EMPTY, acts).log)) == Load(RunAll(EMPTY, acts))
    decreases |acts|
  {
    if k == |acts| {
      assert acts[..k] == acts;
    } else {
      var front, last := acts[..|acts| - 1], acts[|acts| - 1];
      assert front[..k] == acts[..k];
      var before, mid := RunAll(EMPTY, acts[..k]), RunAll(EMPTY, front);
      OldSnapshotStillWorks(front, k);
      AllRunsGood(EMPTY, front, ANY);
      AdmissiblePrefix(EMPTY, acts, k, ANY);
      AllRunsGood(EMPTY, acts[..k], ANY);
      LogOnlyGrows(front, k);
      SnapshotStays(front, k);
      var done := ExecFolds(mid, last, ANY);
      SnapshotContinues(before.snapshot, mid.log, done);
    }
  }

  lemma {:induction false} SnapshotStays(acts: seq<Action>, k: nat)
    requires k <= |acts| && RunAll(EMPTY, acts[..k]).snapshot.Some?
    ensures RunAll(EMPTY, acts).snapshot.Some?
    decreases |acts|
  {
    hide Exec;
    if k < |acts| {
      var front := acts[..|acts| - 1];
      assert front[..k] == acts[..k];
      SnapshotStays(front, k);
      ExecKeepsSnapshot(RunAll(EMPTY, front), acts[|acts| - 1]);
    } else {
      assert acts[..k] == acts;
    }
  }

  lemma ExecKeepsSnapshot(st: Store, a: Action)
    requires st.snapshot.Some?
    ensures Exec(st, a).snapshot.Some?
  {
    hide Perform, Found;
  }

  lemma {:induction false} AdmissiblePrefix(st: Store, acts: seq<Action>, k: nat, d: Discipline)
    requires Admissible(st, acts, d) && k <= |acts|
    ensures Admissible(st, acts[..k], d)
  {
    if k < |acts| {
      AdmissiblePrefix(st, acts[..|acts| - 1], k, d);
      assert acts[..|acts| - 1][..k] == acts[..k];
    } else {
      assert acts[..k] == acts;
    }
  }

  lemma ExecExtendsLog(st: Store, a: Action)
    ensures st.log <= Exec(st, a).log
  {
    hide Perform, Found;
  }

  lemma {:induction false} LogOnlyGrows(acts: seq<Action>, k: nat)
    requires k <= |acts|
    ensures RunAll(EMPTY, acts[..k]).log <= RunAll(EMPTY, acts).log
  {
    if k < |acts| {
      var front := acts[..|acts| - 1];
      LogOnlyGrows(front, k);
      assert front[..k] == acts[..k];
      ExecExtendsLog(RunAll(EMPTY, front), acts[|acts| - 1]);
    } else {
      assert acts[..k] == acts;
    }
  }

  /** Lifecycle accounts hold in every reachable and recovered state. */
  lemma LifecycleTheorem(acts: seq<Action>, uid: Id)
    requires Admissible(EMPTY, acts, ANY) && Load(RunAll(EMPTY, acts)).Loaded?
    requires uid in Load(RunAll(EMPTY, acts)).run.units
    ensures AccountsHold(RunAll(EMPTY, acts).log, uid, Load(RunAll(EMPTY, acts)).run.units[uid])
  {
    AllRunsGood(EMPTY, acts, ANY);
    GoodAccounts(RunAll(EMPTY, acts), uid);
  }

  ghost predicate AccountsHold(log: seq<Event>, uid: Id, u: Unit) {
    && Walk(u.history, u.state)
    && u.attempts == Entries(u.history, Assigned) == Total(u.byTier)
    && WithinBudget(u, HighGrant(log, uid))
    && forall i :: 0 <= i < |u.history| && u.history[i].to == Verifying ==> EarnedEntry(log, uid, u.history[..i + 1])
  }

  lemma GoodAccounts(st: Store, uid: Id)
    requires Good(st, ANY) && Load(st).Loaded? && uid in Load(st).run.units
    ensures AccountsHold(st.log, uid, Load(st).run.units[uid])
  {
    var u := Load(st).run.units[uid];
    assert UnitOk(u) && UnitLogged(st.log, uid, u);
    forall i | 0 <= i < |u.history| && u.history[i].to == Verifying
      ensures EarnedEntry(st.log, uid, u.history[..i + 1])
    {
      LoggedIsEarned(st.log, Load(st).run, uid, u, i);
    }
  }

  lemma LoggedIsEarned(log: seq<Event>, run: Run, uid: Id, u: Unit, i: nat)
    requires LogInv(log, run) && HistoryLogged(log, uid, u) && i < |u.history| && u.history[i].to == Verifying
    ensures EarnedEntry(log, uid, u.history[..i + 1])
  {
    assert MoveLogged(log, uid, u.history[..i + 1]);
    var k :| 0 <= k < |log| && About(log[k], StateChanged, uid)
             && log[k].data.unit.value.1.history == u.history[..i + 1];
    assert VerifyingEarned(log, k);
  }

  /** This entry into verifying was logged after a valid handoff for the same attempt. */
  ghost predicate EarnedEntry(log: seq<Event>, uid: Id, history: seq<Move>) {
    exists k :: 0 <= k < |log| && About(log[k], StateChanged, uid)
      && log[k].data.unit.value.1.history == history
      && HandoffReady(log[k].data.unit.value.1)
      && NoteLogged(log, k, uid, log[k].data.unit.value.1.note.value)
  }

  // ---- dependency order and parallel safety ----

  /** With conductor-issued calls, dependencies come first in every reachable or recovered state. */
  lemma DependencyTheorem(acts: seq<Action>)
    requires Admissible(EMPTY, acts, ORDERLY) && Load(RunAll(EMPTY, acts)).Loaded?
    ensures DepsSafe(Load(RunAll(EMPTY, acts)).run)
  {
    AllRunsGood(EMPTY, acts, ORDERLY);
  }

  /** With guarded assignments and no unguarded revival, active units never overlap. */
  lemma ParallelTheorem(acts: seq<Action>)
    requires Admissible(EMPTY, acts, PARALLEL) && Load(RunAll(EMPTY, acts)).Loaded?
    ensures OverlapFree(Load(RunAll(EMPTY, acts)).run)
  {
    AllRunsGood(EMPTY, acts, PARALLEL);
  }
}
