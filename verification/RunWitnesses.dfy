/** Concrete calls after which a run is not what its callers may expect (runs/manager.py, team/drive.py). */
module RunWitnesses {
  import opened Wrappers
  import opened UnitStates
  import opened RunRecords
  import opened RunSpec
  import opened RunSteps
  import opened RunRecovery
  import opened RunSafety
  import opened Conflicts
  import opened RunHistory
  import opened RunPromotion
  import Dag

  const LIMITS := RunRecords.Budget(None, None, None)

  /** A plan of one unit that depends on nothing. */
  const LONE := [PlanUnit("a", [], LIMITS, [])]

  /** The same and a unit that depends on it. */
  const PAIR := [PlanUnit("a", [], LIMITS, []), PlanUnit("b", ["a"], LIMITS, [])]

  function UnitIn(state: State, dependsOn: seq<Id>): Unit {
    NewUnit(PlanUnit("", dependsOn, LIMITS, [])).(state := state)
  }

  function PairRun(first: State, second: State): Run {
    Run(PAIR, map["a" := UnitIn(first, []), "b" := UnitIn(second, ["a"])], Lease("c", 10.0), [], 0.0, [], 0)
  }

  // ---- overlapping work ----

  /** Both units claim the whole repository, and only the first is at work. */
  lemma OneAtWork(second: State)
    requires !Active(second)
    ensures var run := PairRun(Running, second); OverlapFree(run) && !ParallelSafe(run, "b")
  {
    var run := PairRun(Running, second);
    assert ScopesOverlap(run.units["b"].scope, run.units["a"].scope);
  }

  const ROUTING := Routing(Classification(true, 0, 0, 0), None)

  lemma Reassigned(actor: Id, now: real)
    ensures var r := Perform(PairRun(Running, Ready), Reassign("b", "w", ROUTING, "stalled", "h"), actor, now);
            r.Ok? && r.value.ok
  {
  }

  /** A reassignment that starts overlapping work is accepted. */
  lemma ReassignOverlaps(actor: Id, now: real)
    ensures var run, op := PairRun(Running, Ready), Reassign("b", "w", ROUTING, "stalled", "h");
            var r := Perform(run, op, actor, now);
            OverlapFree(run) && r.Ok? && r.value.ok && !OverlapFree(r.value.tx.run)
  {
    hide Perform, OverlapFree, ParallelSafe;
    OneAtWork(Ready);
    Reassigned(actor, now);
    ReassignOverlapExactly(PairRun(Running, Ready), Reassign("b", "w", ROUTING, "stalled", "h"), actor, now);
  }

  /** A revived review overlaps work that began meanwhile. */
  lemma HealOverlaps(actor: Id, now: real)
    ensures var run := PairRun(Running, NeedsUser);
            var r := Perform(run, Transition("b", Reviewing, "retry"), actor, now);
            OverlapFree(run) && r.Ok? && !OverlapFree(r.value.tx.run)
  {
    hide Perform, OverlapFree, ParallelSafe;
    OneAtWork(NeedsUser);
    HealOverlapExactly(PairRun(Running, NeedsUser), "b", actor, "retry", now);
  }

  // ---- promotions lost to a crash ----

  lemma LoneGraph()
    ensures Dag.PlanOk(Raw(LONE))
  {
    var units := RawUnits(LONE);
    assert units[..0] == [];
    assert Dag.Graph(units) == map["a" := []];
    forall p ensures !Dag.IsCycle(Dag.Graph(units), p) {
      if Dag.IsCycle(Dag.Graph(units), p) {
        CycleHasEdge(Dag.Graph(units), p);
        assert false;
      }
    }
  }

  lemma CycleHasEdge(deps: Dag.Deps, p: seq<Id>)
    requires Dag.IsCycle(deps, p)
    ensures exists a, b :: Dag.Edge(deps, a, b)
  {
    assert Dag.Edge(deps, p[0], p[1]);
  }

  function Creating(stop: Option<nat>): Action {
    Action(Create(LONE, 10.0, true), "c", 0.0, stop)
  }

  lemma LoneWaits(run: Run)
    requires run.units == NewUnits(LONE)
    ensures !Promoted(run)
  {
    assert LONE[..0] == [];
    assert DepsMerged(run, run.units["a"]);
  }

  /** Founding the one-unit run takes two events. */
  lemma LoneSize(pre: Run, doc: Run, kind: Kind, actor: Id, now: real)
    requires doc.plan == LONE && FreshDoc(doc) && (kind == RunCreated || kind == RunReplanned)
    ensures |Found(doc, kind, actor, now).events| > 1
  {
    var lead := Tx(doc, [RunEvent(kind, doc)]);
    FoundLeads(pre, doc, kind);
    PromoteLength(lead, Ids(doc), actor, now);
    if |Found(doc, kind, actor, now).events| == 1 {
      FoundLeads(doc, doc, kind);
      NothingPromoted(doc, lead, actor, now);
      LoneWaits(doc);
      assert false;
    }
  }

  /** Creation that dies after the bare snapshot leaves the only unit pending for good. */
  lemma CreationWaits()
    ensures Load(Exec(EMPTY, Creating(Some(1)))).Loaded?
    ensures !Promoted(Load(Exec(EMPTY, Creating(Some(1)))).run)
  {
    var doc := FreshRun(LONE, "c", 10.0, 0.0);
    LoneGraph();
    LoneSize(doc, doc, RunCreated, "c", 0.0);
    CreationExactly(Creating(Some(1)));
  }

  lemma {:induction false} PromotionStartsNothing(tx: Tx, ids: seq<Id>, actor: Id, now: real)
    requires NoneStarted(tx.run)
    ensures NoneStarted(Promote(tx, ids, actor, now).run)
    decreases |ids|
  {
    if ids != [] { PromotionStartsNothing(tx, ids[..|ids| - 1], actor, now); }
  }

  lemma LoneUnstarted(doc: Run)
    requires doc.units == NewUnits(LONE)
    ensures NoneStarted(doc)
  {
    assert LONE[..0] == [];
  }

  /** The one-unit run as it is stored when its creation completes. */
  lemma Created() returns (st: Store)
    ensures st == Exec(EMPTY, Creating(None)) && Good(st, ANY) && st != EMPTY && Load(st).Loaded?
    ensures Promoted(Load(st).run) && NoneStarted(Load(st).run) && !LeaseBlocked(Load(st).run, "c", 0.0)
  {
    hide Load, Commit, Promoted, NoneStarted;
    var doc := FreshRun(LONE, "c", 10.0, 0.0);
    var tx := Found(doc, RunCreated, "c", 0.0);
    LoneGraph();
    st := Exec(EMPTY, Creating(None));
    ExecGood(EMPTY, Creating(None), ANY);
    CreatedGood(doc, ANY);
    CreationExactly(Creating(None));
    FoundTracks(doc, doc, RunCreated, "c", 0.0, ANY);
    CommitLoads(Store(Some(doc), []), tx, None, ANY);
    CommitWrites(Store(Some(doc), []), tx, None);
    LoneSize(doc, doc, RunCreated, "c", 0.0);
    LoneUnstarted(doc);
    PromotionStartsNothing(Tx(doc, [RunEvent(RunCreated, doc)]), Ids(doc), "c", 0.0);
    PromotionKeepsLease(Tx(doc, [RunEvent(RunCreated, doc)]), Ids(doc), "c", 0.0);
    SameStart(tx.run, Load(st).run);
  }

  lemma SameStart(run: Run, run': Run)
    requires NoneStarted(run) && run'.units == run.units
    ensures NoneStarted(run')
  {
  }

  lemma {:induction false} PromotionKeepsLease(tx: Tx, ids: seq<Id>, actor: Id, now: real)
    ensures Promote(tx, ids, actor, now).run.lease == tx.run.lease
    decreases |ids|
  {
    if ids != [] { PromotionKeepsLease(tx, ids[..|ids| - 1], actor, now); }
  }

  /** A replacement of that run that dies after its first event leaves the only unit pending. */
  lemma ReplacementWaits()
    ensures var st := Exec(EMPTY, Creating(None)); var a := Action(Replace(LONE, 10.0, true), "c", 0.0, Some(1));
            && Load(st).Loaded? && Promoted(Load(st).run)
            && Load(Exec(st, a)).Loaded? && !Promoted(Load(Exec(st, a)).run)
  {
    var st := Created();
    var a := Action(Replace(LONE, 10.0, true), "c", 0.0, Some(1));
    hide Load, Promoted, NoneStarted, Good;
    LoneGraph();
    var run := Load(st).run;
    LoneSize(run, ReplacedRun(run, a), RunReplanned, "c", 0.0);
    ReplacementChanges(st, a);
    CrashLeavesWaitingExactly(st, a);
  }

  lemma ReplacementChanges(st: Store, a: Action)
    requires a.op.Replace? && PlanAccepted(a.op) && st.snapshot.Some? && Load(st).Loaded?
    requires NoneStarted(Load(st).run) && !LeaseBlocked(Load(st).run, a.actor, a.now)
    requires |TxOf(st, a).events| > 0
    ensures Exec(st, a.(stop := None)) != st
  {
    hide Load, NoneStarted, LeaseBlocked, PlanAccepted;
    assert |Exec(st, a.(stop := None)).log| > |st.log|;
  }

  // ---- a merge cut short ----

  const MERGING := PairRun(QueuedForMerge, Pending)

  lemma MergingPromoted()
    ensures Promoted(MERGING)
  {
    assert MERGING.units["b"].dependsOn[0] == "a";
  }

  lemma DependentWaits(run: Run)
    requires "a" in run.units && run.units["a"].state == Merged
    requires "b" in run.units && run.units["b"] == UnitIn(Pending, ["a"])
    ensures !Promoted(run)
  {
    assert Waiting(run, "b");
  }

  lemma PairKeys()
    ensures NewUnits(PAIR).Keys == {"a", "b"}
  {
    NewUnitsShape(PAIR);
    assert PlanIds(PAIR) == ["a", "b"];
  }

  lemma MergeLeaves(actor: Id, now: real)
    ensures var lead := Publish(Tx(MERGING, []), "a", Merged, actor, "done", now);
            !Promoted(lead.run) && lead.run.units.Keys == NewUnits(lead.run.plan).Keys && Legal(QueuedForMerge, Merged)
  {
    hide Promoted, NewUnits;
    var lead := Publish(Tx(MERGING, []), "a", Merged, actor, "done", now);
    DependentWaits(lead.run);
    PairKeys();
    assert lead.run.units.Keys == {"a", "b"};
  }

  lemma MergeAccepted(actor: Id, now: real)
    ensures Perform(MERGING, Transition("a", Merged, "done"), actor, now).Ok?
  {
  }

  /** Of a merge that dies after its first event the dependent unit stays pending. */
  lemma MergeWaits(actor: Id, now: real)
    ensures var r := Perform(MERGING, Transition("a", Merged, "done"), actor, now);
            && Promoted(MERGING) && r.Ok? && |r.value.tx.events| > 1
            && !Promoted(ApplyAll(MERGING, r.value.tx.events[..1]))
  {
    hide Perform, Promoted, Promote;
    var lead := Publish(Tx(MERGING, []), "a", Merged, actor, "done", now);
    MergingPromoted();
    MergeAccepted(actor, now);
    MergeLeaves(actor, now);
    MergeTracks(MERGING, "a", actor, "done", now);
    MergeIs(MERGING, "a", actor, "done", now);
    LeadStays(MERGING, lead, Ids(lead.run), actor, now);
    CutExactly(MERGING, lead, actor, now, 1);
  }
}
