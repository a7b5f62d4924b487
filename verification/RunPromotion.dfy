/** Promotion and crashes: exactly which interrupted calls leave a promotable unit pending (runs/manager.py). */
module RunPromotion {
  import opened Wrappers
  import opened UnitStates
  import opened RunRecords
  import opened RunSpec
  import opened RunSteps
  import opened RunRecovery
  import opened RunSafety
  import opened RunHistory
  import Dag

  // ---- one transaction ----

  lemma SameUnitsPromoted(run: Run, run': Run)
    requires run'.units == run.units
    ensures Promoted(run) <==> Promoted(run')
  {
    forall uid | uid in run.units ensures Waiting(run, uid) <==> Waiting(run', uid) {
      assert DepsMerged(run, run.units[uid]) <==> DepsMerged(run', run'.units[uid]);
    }
  }

  /** A cut among the promotions leaves the next unit in line promotable and pending. */
  lemma {:induction false} CutAmongPromotions(pre: Run, tx: Tx, ids: seq<Id>, actor: Id, now: real, k: nat)
    requires Tracks(pre, tx, ANY) && |tx.events| <= k < |Promote(tx, ids, actor, now).events|
    ensures !Promoted(ApplyAll(pre, Promote(tx, ids, actor, now).events[..k]))
    decreases |ids|
  {
    var front, last := ids[..|ids| - 1], ids[|ids| - 1];
    var before, after := Promote(tx, front, actor, now), Promote(tx, ids, actor, now);
    if k < |before.events| {
      assert after.events[..k] == before.events[..k];
      CutAmongPromotions(pre, tx, front, actor, now, k);
    } else {
      assert after.events[..k] == before.events;
      PromoteTracks(pre, tx, front, actor, now, ANY);
      assert Waiting(before.run, last);
    }
  }

  /** A founding or merging transaction: its one leading event, then all promotions. */
  ghost predicate Leads(pre: Run, lead: Tx) {
    |lead.events| == 1 && Tracks(pre, lead, ANY) && lead.run.units.Keys == NewUnits(lead.run.plan).Keys
  }

  lemma CutExactly(pre: Run, lead: Tx, actor: Id, now: real, k: nat)
    requires Leads(pre, lead) && k <= |Promote(lead, Ids(lead.run), actor, now).events|
    ensures var tx := Promote(lead, Ids(lead.run), actor, now);
            && |tx.events| >= 1
            && (Promoted(ApplyAll(pre, tx.events[..k])) <==>
                if k == 0 then Promoted(pre) else k == |tx.events|)
  {
    var tx := Promote(lead, Ids(lead.run), actor, now);
    PromoteLength(lead, Ids(lead.run), actor, now);
    if k == 0 {
      assert tx.events[..0] == [];
    } else if k < |tx.events| {
      CutAmongPromotions(pre, lead, Ids(lead.run), actor, now, k);
    } else {
      assert tx.events[..k] == tx.events;
      PromoteTracks(pre, lead, Ids(lead.run), actor, now, ANY);
      PromoteAll(lead, actor, now);
    }
  }

  lemma {:induction false} PromoteLength(tx: Tx, ids: seq<Id>, actor: Id, now: real)
    ensures |Promote(tx, ids, actor, now).events| >= |tx.events|
    decreases |ids|
  {
    if ids != [] { PromoteLength(tx, ids[..|ids| - 1], actor, now); }
  }

  lemma FoundLeads(pre: Run, doc: Run, kind: Kind)
    requires FreshDoc(doc) && (kind == RunCreated || kind == RunReplanned)
    ensures Leads(pre, Tx(doc, [RunEvent(kind, doc)]))
  {
    var p := RunEvent(kind, doc);
    TrackAppend(pre, Tx(pre, []), p, ANY);
    assert [] + [p] == [p];
  }

  lemma MergeIs(run: Run, uid: Id, actor: Id, reason: string, now: real)
    requires Perform(run, Transition(uid, Merged, reason), actor, now).Ok?
    ensures uid in run.units && Legal(run.units[uid].state, Merged)
    ensures var lead := Publish(Tx(run, []), uid, Merged, actor, reason, now);
            Perform(run, Transition(uid, Merged, reason), actor, now).value.tx ==
            Promote(lead, Ids(lead.run), actor, now)
  {
  }

  lemma MergeTracks(run: Run, uid: Id, actor: Id, reason: string, now: real)
    requires uid in run.units && Legal(run.units[uid].state, Merged)
    ensures var lead := Publish(Tx(run, []), uid, Merged, actor, reason, now);
            Tracks(run, lead, ANY) && |lead.events| == 1
  {
    EditSame(Tx(run, []), uid);
    PublishTracks(run, Tx(run, []), uid, run.units[uid], Merged, actor, reason, now, ANY);
  }

  lemma MergeLeads(run: Run, uid: Id, actor: Id, reason: string, now: real)
    requires RunInv(run) && Perform(run, Transition(uid, Merged, reason), actor, now).Ok?
    ensures uid in run.units
    ensures var lead := Publish(Tx(run, []), uid, Merged, actor, reason, now);
            && Leads(run, lead)
            && Perform(run, Transition(uid, Merged, reason), actor, now).value.tx ==
               Promote(lead, Ids(lead.run), actor, now)
  {
    MergeIs(run, uid, actor, reason, now);
    MergeTracks(run, uid, actor, reason, now);
    var lead := Publish(Tx(run, []), uid, Merged, actor, reason, now);
    assert lead.run.units.Keys == run.units.Keys;
  }

  /** Any other mutation may be cut anywhere. */
  lemma QuietCut(run: Run, op: Op, actor: Id, now: real, k: nat)
    requires RunInv(run) && Promoted(run) && FreshHandoff(run, op) && !(op.Transition? && op.target == Merged)
    requires Perform(run, op, actor, now).Ok? && k <= |Perform(run, op, actor, now).value.tx.events|
    ensures Promoted(ApplyAll(run, Perform(run, op, actor, now).value.tx.events[..k]))
  {
    var ps, d := Perform(run, op, actor, now).value.tx.events, Discipline(false, false, true);
    PerformTracks(run, op, actor, now, d);
    PerformUnitOnly(run, op, actor, now);
    StepsPrefix(run, ps, k, d);
    QuietSteps(run, ps[..k], d);
    SameMergedPromoted(run, ApplyAll(run, ps[..k]));
  }

  // ---- one call ----

  /** Calls whose transaction ends in promotions. */
  predicate Promotes(op: Op) {
    op.Replace? || (op.Transition? && op.target == Merged)
  }

  /** How many events the call appends if nothing interrupts it. */
  ghost function Size(st: Store, a: Action): nat {
    if Load(st).Loaded? && !a.op.Create? && (a.op.Replace? || Perform(Load(st).run, a.op, a.actor, a.now).Ok?)
    then |TxOf(st, a).events| else 0
  }

  /** The process dies after the first and before the last event of a transaction that ends in promotions. */
  ghost predicate CutInside(st: Store, a: Action) {
    && Promotes(a.op) && Exec(st, a.(stop := None)) != st
    && a.stop.Some? && 0 < a.stop.value < Size(st, a)
  }

  lemma CommitReads(st: Store, a: Action) returns (k: nat)
    requires Good(st, ANY) && st != EMPTY && Admitted(st, a, ANY) && Exec(st, a) != st
    ensures !a.op.Create? && (a.op.Replace? || Perform(Load(st).run, a.op, a.actor, a.now).Ok?)
    ensures k == Written(a.stop, Size(st, a)) && k <= |TxOf(st, a).events| && Load(Exec(st, a)).Loaded?
    ensures Load(Exec(st, a)).run.units == ApplyAll(Load(st).run, TxOf(st, a).events[..k]).units
  {
    ChangeIsCommit(st, a);
    ChangeTracks(st, a, ANY);
    CommitLoads(st, TxOf(st, a), a.stop, ANY);
    k := Written(a.stop, Size(st, a));
  }

  lemma PromotesLead(st: Store, a: Action) returns (lead: Tx)
    requires Good(st, ANY) && st != EMPTY && Admitted(st, a, ANY) && Promotes(a.op) && Exec(st, a) != st
    ensures a.op.Replace? || Perform(Load(st).run, a.op, a.actor, a.now).Ok?
    ensures Leads(Load(st).run, lead) && TxOf(st, a) == Promote(lead, Ids(lead.run), a.actor, a.now)
  {
    ChangeIsCommit(st, a);
    var run := Load(st).run;
    if a.op.Replace? {
      var doc := ReplacedRun(run, a);
      FoundLeads(run, doc, RunReplanned);
      lead := Tx(doc, [RunEvent(RunReplanned, doc)]);
    } else {
      MergeLeads(run, a.op.uid, a.actor, a.op.reason, a.now);
      lead := Publish(Tx(run, []), a.op.uid, Merged, a.actor, a.op.reason, a.now);
    }
  }

  /** Whether a call changes the store does not depend on where it stops, unless before its first write. */
  lemma StopsEarly(st: Store, a: Action)
    requires Good(st, ANY) && st != EMPTY
    ensures Exec(st, a) != st ==> Exec(st, a.(stop := None)) != st && !(a.stop == Some(0))
    ensures Exec(st, a) == st && Exec(st, a.(stop := None)) != st ==> a.stop == Some(0)
  {
    var whole := a.(stop := None);
    if Exec(st, whole) != st {
      ChangeIsCommit(st, whole);
      CommitWrites(st, TxOf(st, whole), None);
      CommitWrites(st, TxOf(st, whole), a.stop);
      assert Exec(st, a) == Commit(st, TxOf(st, whole), a.stop);
      if a.stop == Some(0) { assert TxOf(st, whole).events[..0] == []; }
    }
  }

  /**
   * A call on a promoted run leaves a promotable unit pending exactly when it
   * merges or replaces and dies between its first event and its last.
   */
  lemma CrashLeavesWaitingExactly(st: Store, a: Action)
    requires Good(st, ANY) && st != EMPTY && Admitted(st, a, ANY) && Promoted(Load(st).run)
    ensures Load(Exec(st, a)).Loaded?
    ensures Promoted(Load(Exec(st, a)).run) <==> !CutInside(st, a)
  {
    StopsEarly(st, a);
    if Exec(st, a) != st {
      var k := CommitReads(st, a);
      var ps := TxOf(st, a).events;
      SameUnitsPromoted(ApplyAll(Load(st).run, ps[..k]), Load(Exec(st, a)).run);
      if Promotes(a.op) {
        var lead := PromotesLead(st, a);
        CutExactly(Load(st).run, lead, a.actor, a.now, k);
      } else {
        QuietCut(Load(st).run, a.op, a.actor, a.now, k);
      }
    }
  }

  ghost function CreationSize(a: Action): nat
    requires a.op.Create?
  {
    |Found(FreshRun(a.op.plan, a.actor, a.op.ttl, a.now), RunCreated, a.actor, a.now).events|
  }

  /** Creation leaves a root pending exactly when there is one and the last event was not written. */
  lemma CreationExactly(a: Action)
    requires a.op.Create? && PlanAccepted(a.op) && a.stop != Some(0)
    ensures Load(Exec(EMPTY, a)).Loaded?
    ensures Promoted(Load(Exec(EMPTY, a)).run) <==>
            CreationSize(a) == 1 || (a.stop.Some? ==> a.stop.value > CreationSize(a))
  {
    var doc := FreshRun(a.op.plan, a.actor, a.op.ttl, a.now);
    var lead, tx := Tx(doc, [RunEvent(RunCreated, doc)]), Found(doc, RunCreated, a.actor, a.now);
    var stop := if a.stop.Some? then Some(a.stop.value - 1) else None;
    var k := Written(stop, |tx.events|);
    CreatedGood(doc, ANY);
    FoundTracks(doc, doc, RunCreated, a.actor, a.now, ANY);
    CommitLoads(Store(Some(doc), []), tx, stop, ANY);
    FoundLeads(doc, doc, RunCreated);
    CutExactly(doc, lead, a.actor, a.now, k);
    SameUnitsPromoted(ApplyAll(doc, tx.events[..k]), Load(Exec(EMPTY, a)).run);
    NothingPromoted(doc, lead, a.actor, a.now);
  }

  /** A fresh run needs no promotion exactly when it has no roots, which is when its founding event stands alone. */
  lemma NothingPromoted(doc: Run, lead: Tx, actor: Id, now: real)
    requires Leads(doc, lead) && lead.run == doc
    ensures Promoted(doc) <==> |Promote(lead, Ids(doc), actor, now).events| == 1
  {
    var tx := Promote(lead, Ids(doc), actor, now);
    PromoteLength(lead, Ids(doc), actor, now);
    if |tx.events| == 1 {
      PromoteAll(lead, actor, now);
      PromoteNothing(lead, Ids(doc), actor, now);
    } else {
      CutAmongPromotions(doc, lead, Ids(doc), actor, now, 1);
      PromoteTracks(doc, lead, Ids(doc), actor, now, ANY);
      LeadStays(doc, lead, Ids(doc), actor, now);
    }
  }

  lemma {:induction false} PromoteNothing(tx: Tx, ids: seq<Id>, actor: Id, now: real)
    requires |Promote(tx, ids, actor, now).events| == |tx.events|
    ensures Promote(tx, ids, actor, now) == tx
    decreases |ids|
  {
    if ids != [] {
      PromoteLength(tx, ids[..|ids| - 1], actor, now);
      PromoteNothing(tx, ids[..|ids| - 1], actor, now);
    }
  }

  lemma {:induction false} LeadStays(pre: Run, lead: Tx, ids: seq<Id>, actor: Id, now: real)
    requires |lead.events| == 1 && ApplyAll(pre, lead.events) == lead.run
    ensures |Promote(lead, ids, actor, now).events| >= 1
    ensures Promote(lead, ids, actor, now).events[..1] == lead.events
    decreases |ids|
  {
    if ids != [] { LeadStays(pre, lead, ids[..|ids| - 1], actor, now); }
  }

  // ---- whole runs ----

  ghost predicate CutAt(st: Store, a: Action) {
    if st == EMPTY
    then a.op.Create? && a.stop.Some? && a.stop.value <= CreationSize(a)
    else CutInside(st, a)
  }

  /** No creation, replacement or merge dies halfway; any other call may. */
  ghost predicate NeverCut(acts: seq<Action>) {
    acts == [] || (NeverCut(acts[..|acts| - 1]) && !CutAt(RunAll(EMPTY, acts[..|acts| - 1]), acts[|acts| - 1]))
  }

  lemma {:induction false} CrashFreeIsNeverCut(acts: seq<Action>)
    requires forall i :: 0 <= i < |acts| ==> acts[i].stop == None
    ensures NeverCut(acts)
  {
    if acts != [] { CrashFreeIsNeverCut(acts[..|acts| - 1]); }
  }

  /** While no creation, replacement or merge dies halfway, no stored state leaves a promotable unit pending. */
  lemma {:induction false} PromotionTheorem(acts: seq<Action>)
    requires Admissible(EMPTY, acts, ANY) && NeverCut(acts)
    ensures Load(RunAll(EMPTY, acts)).Loaded? ==> Promoted(Load(RunAll(EMPTY, acts)).run)
  {
    if acts != [] {
      var front, last := acts[..|acts| - 1], acts[|acts| - 1];
      var st := RunAll(EMPTY, front);
      PromotionTheorem(front);
      AllRunsGood(EMPTY, front, ANY);
      if st != EMPTY {
        CrashLeavesWaitingExactly(st, last);
      } else if last.op.Create? && PlanAccepted(last.op) && last.stop != Some(0) {
        CreationExactly(last);
      }
    }
  }

  /** So a run in which nothing is left but pending and merged units is complete. */
  lemma NoDeadlock(acts: seq<Action>)
    requires Admissible(EMPTY, acts, ANY) && NeverCut(acts) && Load(RunAll(EMPTY, acts)).Loaded?
    requires var run := Load(RunAll(EMPTY, acts)).run;
             forall uid :: uid in run.units ==> run.units[uid].state == Pending || run.units[uid].state == Merged
    ensures var run := Load(RunAll(EMPTY, acts)).run;
            forall uid :: uid in run.units ==> run.units[uid].state == Merged
  {
    AllRunsGood(EMPTY, acts, ANY);
    PromotionTheorem(acts);
    NoStall(Load(RunAll(EMPTY, acts)).run);
  }
}
