/** Founding a run, and how long a lease lasts, over completed calls (runs/manager.py). */
module RunLeases {
  import opened Wrappers
  import opened Ordering
  import opened UnitStates
  import opened RunRecords
  import opened RunSpec
  import opened RunSteps
  import opened RunRecovery
  import opened RunSafety
  import opened RunHistory
  import opened RunFencing
  import opened RunOutcomes
  import Dag

  // ---- founding ----

  /** Nothing has happened to the unit yet; its dependencies, scope and budget are the plan's. */
  ghost predicate AsPlanned(u: Unit, p: PlanUnit) {
    && u.state == Pending && u.dependsOn == p.dependsOn && u.scope == p.scope && u.budget == p.budget
    && u.attempts == 0 && u.byTier == map[] && u.cost == 0.0 && u.grant == 0 && u.history == [] && u.reason == ""
    && u.owner == None && u.tier == None && u.process == None && u.workspace == None && u.handoffRef == None
    && u.note == None && u.annotations == map[]
  }

  /** The unit starts pending, and is made ready at once if it depends on nothing. */
  ghost predicate UnitFounded(run: Run, p: PlanUnit, a: Action) {
    && p.id in run.units && AsPlanned(NewUnit(p), p)
    && run.units[p.id] == if p.dependsOn == [] then MovedTo(NewUnit(p), Ready, "dependencies_merged", a)
                          else NewUnit(p)
  }

  ghost predicate Founded(run: Run, plan: seq<PlanUnit>, a: Action) {
    && run.plan == plan && run.handoffs == [] && (forall v :: v in run.units ==> exists p :: p in plan && p.id == v)
    && forall p :: p in plan ==> UnitFounded(run, p, a)
  }

  lemma NobodyMerged(plan: seq<PlanUnit>, run: Run, u: Unit)
    requires run.units == NewUnits(plan)
    ensures DepsMerged(run, u) <==> u.dependsOn == []
  {
    NewUnitsShape(plan);
    if u.dependsOn != [] && u.dependsOn[0] in run.units {
      assert run.units[u.dependsOn[0]].state == Pending;
    }
  }

  lemma {:induction false} NewUnitOf(plan: seq<PlanUnit>, p: PlanUnit)
    requires p in plan && forall i, j :: 0 <= i < j < |plan| ==> plan[i].id != plan[j].id
    ensures p.id in NewUnits(plan) && NewUnits(plan)[p.id] == NewUnit(p)
  {
    var n := |plan| - 1;
    if plan[n] != p {
      assert p in plan[..n];
      NewUnitOf(plan[..n], p);
      var i :| 0 <= i < n && plan[i] == p;
    }
  }

  lemma NewUnitPlanned(p: PlanUnit)
    ensures AsPlanned(NewUnit(p), p)
  {
  }

  lemma DistinctPlan(plan: seq<PlanUnit>)
    requires Dag.PlanOk(Raw(plan))
    ensures forall i, j :: 0 <= i < j < |plan| ==> plan[i].id != plan[j].id
    ensures Distinct(PlanIds(plan))
  {
    var raw := RawUnits(plan);
    forall i, j | 0 <= i < j < |plan| ensures plan[i].id != plan[j].id { assert raw[i].id != raw[j].id; }
  }

  lemma FoundPerforms(doc: Run, kind: Kind, a: Action)
    requires FreshDoc(doc)
    ensures var run' := Found(doc, kind, a.actor, a.now).run;
            Founded(run', doc.plan, a) && run' == doc.(units := run'.units)
  {
    hide UnitFounded, Found, NewUnits;
    FoundKeys(doc, kind, a);
    var run' := Found(doc, kind, a.actor, a.now).run;
    forall p | p in doc.plan ensures UnitFounded(run', p, a) { UnitFoundedHere(doc, kind, p, a); }
  }

  lemma FoundKeys(doc: Run, kind: Kind, a: Action)
    requires FreshDoc(doc)
    ensures var run' := Found(doc, kind, a.actor, a.now).run;
            run' == doc.(units := run'.units) && forall v :: v in run'.units ==> exists p :: p in doc.plan && p.id == v
  {
    var tx := Tx(doc, [RunEvent(kind, doc)]);
    NewUnitsShape(doc.plan);
    DistinctPlan(doc.plan);
    hide NewUnit, DepsMerged, Promotable;
    PromoteReadies(tx, Ids(doc), a);
    PromoteChangesUnits(tx, Ids(doc), a);
    var run' := Found(doc, kind, a.actor, a.now).run;
    forall v | v in run'.units ensures exists p :: p in doc.plan && p.id == v {
      assert v in NewUnits(doc.plan).Keys;
    }
  }

  lemma UnitFoundedHere(doc: Run, kind: Kind, p: PlanUnit, a: Action)
    requires FreshDoc(doc) && p in doc.plan
    ensures UnitFounded(Found(doc, kind, a.actor, a.now).run, p, a)
  {
    hide AsPlanned;
    DistinctPlan(doc.plan);
    NewUnitsShape(doc.plan);
    PromoteReadies(Tx(doc, [RunEvent(kind, doc)]), Ids(doc), a);
    NewUnitOf(doc.plan, p);
    NewUnitPlanned(p);
    NobodyMerged(doc.plan, doc, NewUnit(p));
    assert p.id in PlanIds(doc.plan);
  }

  lemma {:induction false} PromoteChangesUnits(tx: Tx, ids: seq<Id>, a: Action)
    ensures var run' := Promote(tx, ids, a.actor, a.now).run; run' == tx.run.(units := run'.units)
    decreases |ids|
  {
    if ids != [] { PromoteChangesUnits(tx, ids[..|ids| - 1], a); }
  }

  lemma CreateIs(st: Store, a: Action)
    requires Good(st, ANY) && a.op.Create? && a.stop == None
    ensures var doc := FreshRun(a.op.plan, a.actor, a.op.ttl, a.now);
            Exec(st, a) == if st == EMPTY && PlanAccepted(a.op)
                           then Commit(Store(Some(doc), []), Found(doc, RunCreated, a.actor, a.now), None) else st
  {
    hide Commit, Found, FreshRun, PlanAccepted, Load;
  }

  lemma FreshRunIs(a: Action)
    requires a.op.Create? && PlanAccepted(a.op)
    ensures var doc := FreshRun(a.op.plan, a.actor, a.op.ttl, a.now); FreshDoc(doc) && doc.lastSeq == 0
  {
  }

  lemma TrackedLoads(doc: Run, tx: Tx) returns (run': Run)
    requires Sound(Store(Some(doc), [])) && Load(Store(Some(doc), [])) == Loaded(doc) && Tracks(doc, tx, ANY)
    ensures Load(Commit(Store(Some(doc), []), tx, None)) == Loaded(run') && run' == tx.run.(lastSeq := run'.lastSeq)
  {
    hide Sound, Load, Commit, Steps;
    CommitLoads(Store(Some(doc), []), tx, None, ANY);
    assert tx.events[..|tx.events|] == tx.events;
    run' := Load(Commit(Store(Some(doc), []), tx, None)).run;
  }

  lemma FoundLoads(doc: Run, a: Action) returns (run': Run)
    requires FreshDoc(doc) && doc.lastSeq == 0
    ensures var tx := Found(doc, RunCreated, a.actor, a.now);
            && Load(Commit(Store(Some(doc), []), tx, None)) == Loaded(run') && run' == tx.run.(lastSeq := run'.lastSeq)
  {
    hide Found, Commit, Load, Tracks, Sound;
    FoundTracks(doc, doc, RunCreated, a.actor, a.now, ANY);
    CreatedGood(doc, ANY);
    hide FreshDoc;
    run' := TrackedLoads(doc, Found(doc, RunCreated, a.actor, a.now));
  }

  lemma CreatedLoads(a: Action) returns (run': Run)
    requires a.op.Create? && PlanAccepted(a.op)
    ensures var doc := FreshRun(a.op.plan, a.actor, a.op.ttl, a.now);
            var tx := Found(doc, RunCreated, a.actor, a.now);
            && Load(Commit(Store(Some(doc), []), tx, None)) == Loaded(run') && run' == tx.run.(lastSeq := run'.lastSeq)
  {
    FreshRunIs(a);
    hide FreshRun, FreshDoc, Found, Commit, Load, PlanAccepted;
    run' := FoundLoads(FreshRun(a.op.plan, a.actor, a.op.ttl, a.now), a);
  }

  lemma FoundedStays(run: Run, run': Run, plan: seq<PlanUnit>, a: Action)
    requires Founded(run, plan, a) && run' == run.(lastSeq := run'.lastSeq)
    ensures Founded(run', plan, a)
  {
  }

  /** A completed creation stores the founded run, if the plan is accepted and there is no run yet. */
  lemma CreateOutcome(st: Store, a: Action) returns (run': Run)
    requires Good(st, ANY) && a.op.Create? && a.stop == None
    ensures if st == EMPTY && PlanAccepted(a.op)
            then && Load(Exec(st, a)) == Loaded(run')
                 && Founded(run', a.op.plan, a) && run'.lease == Lease(a.actor, a.now + a.op.ttl)
                 && run'.created == a.now && run'.replaced == []
            else Exec(st, a) == st
  {
    CreateIs(st, a);
    var doc := FreshRun(a.op.plan, a.actor, a.op.ttl, a.now);
    run' := doc;
    if st == EMPTY && PlanAccepted(a.op) {
      FoundPerforms(doc, RunCreated, a);
      hide Exec, Load, Commit, Found, Good, Founded, PlanAccepted;
      run' := CreatedLoads(a);
      FoundedStays(Found(doc, RunCreated, a.actor, a.now).run, run', a.op.plan, a);
    }
  }

  /** Nothing has started: no attempt, no workspace, nothing past ready. */
  ghost predicate Untouched(run: Run) {
    forall v :: v in run.units ==>
      && (run.units[v].state == Pending || run.units[v].state == Ready)
      && run.units[v].attempts == 0 && run.units[v].workspace == None
  }

  ghost predicate ReplaceAllowed(run: Run, a: Action)
    requires a.op.Replace?
  {
    PlanAccepted(a.op) && Untouched(run) && LeaseFree(run, a)
  }

  lemma ReplaceIs(st: Store, a: Action)
    requires Good(st, ANY) && st != EMPTY && a.op.Replace? && a.stop == None
    ensures Load(st).Loaded?
    ensures Exec(st, a) == if ReplaceAllowed(Load(st).run, a)
                           then Commit(st, Found(ReplacedRun(Load(st).run, a), RunReplanned, a.actor, a.now), None)
                           else st
  {
    hide Commit, Found, PlanAccepted;
  }

  lemma ReplacedLoads(st: Store, a: Action) returns (run': Run)
    requires Good(st, ANY) && st != EMPTY && a.op.Replace? && a.stop == None && PlanAccepted(a.op)
    ensures var tx := Found(ReplacedRun(Load(st).run, a), RunReplanned, a.actor, a.now);
            && Load(Commit(st, tx, None)) == Loaded(run')
            && run' == tx.run.(lastSeq := run'.lastSeq)
  {
    var run := Load(st).run;
    var doc := ReplacedRun(run, a);
    var tx := Found(doc, RunReplanned, a.actor, a.now);
    FoundTracks(run, doc, RunReplanned, a.actor, a.now, ANY);
    hide Found, Commit, Load;
    CommitLoads(st, tx, None, ANY);
    assert tx.events[..|tx.events|] == tx.events;
    run' := Load(Commit(st, tx, None)).run;
  }

  /** A completed replacement founds the run anew and remembers the old plan, if nothing has started. */
  lemma ReplaceOutcome(st: Store, a: Action) returns (run': Run)
    requires Good(st, ANY) && st != EMPTY && a.op.Replace? && a.stop == None
    ensures Load(Exec(st, a)) == Loaded(run')
    ensures if ReplaceAllowed(Before(st), a)
            then && Founded(run', a.op.plan, a) && run'.lease == Lease(a.actor, a.now + a.op.ttl)
                 && run'.created == Before(st).created && run'.replaced == Before(st).replaced + [Before(st).plan]
            else Exec(st, a) == st
  {
    var run := Before(st);
    ReplaceIs(st, a);
    hide Exec, Load, Commit, Found, Good, Founded, Untouched, LeaseFree;
    run' := run;
    if ReplaceAllowed(run, a) {
      run' := ReplacedLoads(st, a);
      hide PlanAccepted;
      FoundPerforms(ReplacedRun(run, a), RunReplanned, a);
      FoundedStays(Found(ReplacedRun(run, a), RunReplanned, a.actor, a.now).run, run', a.op.plan, a);
    }
  }

  // ---- how long a lease lasts ----

  /** Who holds the lease after the call, and from when on not any more. */
  function GivenLease(a: Action): Lease
    requires a.op.AcquireLease? || a.op.RenewLease? || a.op.TransferLease? || a.op.Resume?
  {
    match a.op
    case AcquireLease(ttl, _) => Lease(a.actor, a.now + ttl)
    case RenewLease(ttl) => Lease(a.actor, a.now + ttl)
    case TransferLease(to, ttl, _) => Lease(to, a.now + ttl)
    case Resume(ttl, _, _) => Lease(a.actor, a.now + ttl)
  }

  /**
   * After a call that gives the lease, its holder may renew it exactly until
   * it runs out, and anyone else may take it exactly from then on.
   */
  lemma LeaseWindow(st: Store, a: Action, b: Action)
    requires Completed(st, a) && Allowed(Before(st), a)
    requires a.op.AcquireLease? || a.op.RenewLease? || a.op.TransferLease? || a.op.Resume?
    requires GivenLease(a).conductor != "" && Exec(st, a) != EMPTY && Completed(Exec(st, a), b)
    ensures b.op.RenewLease? && b.actor == GivenLease(a).conductor ==>
              (b.now < GivenLease(a).expires <==> Allowed(Before(Exec(st, a)), b))
    ensures b.op.AcquireLease? && b.actor != GivenLease(a).conductor ==>
              (GivenLease(a).expires <= b.now <==> Allowed(Before(Exec(st, a)), b))
  {
    var run' := CallOutcome(st, a);
    hide Exec, Load, Good, Completed;
    assert Before(Exec(st, a)) == run';
  }

  /** A released lease is free at once. */
  lemma ReleasedIsFree(st: Store, a: Action, b: Action)
    requires Completed(st, a) && Allowed(Before(st), a) && a.op.ReleaseLease?
    requires Exec(st, a) != EMPTY && Completed(Exec(st, a), b) && b.op.AcquireLease? && a.now <= b.now
    ensures Allowed(Before(Exec(st, a)), b)
  {
    var run' := CallOutcome(st, a);
    hide Exec, Load, Good, Completed;
    assert Before(Exec(st, a)) == run';
  }

  // ---- resume ----

  lemma StillAtWork(run: Run, run': Run, a: Action, uid: Id)
    requires a.op.Resume? && Resumed(run, run', a) && uid in run.units && AtWork(run'.units[uid])
    ensures var u := run'.units[uid];
            && u.process.Some? && !u.process.value.finished
            && uid in a.op.liveness && a.op.liveness[uid] == Alive
  {
    assert Examined(run.units[uid], run'.units[uid], uid, a.op.liveness, a);
  }

  /** Whatever is still at work after a resume has an unfinished worker that was found alive. */
  lemma ResumeLeavesLive(st: Store, a: Action, uid: Id) returns (run': Run)
    requires Completed(st, a) && a.op.Resume? && Allowed(Before(st), a) && uid in Before(st).units
    ensures Load(Exec(st, a)) == Loaded(run') && uid in run'.units
    ensures AtWork(run'.units[uid]) ==>
              var u := run'.units[uid];
              && u.process.Some? && !u.process.value.finished
              && uid in a.op.liveness && a.op.liveness[uid] == Alive
  {
    hide Exec, Load, Good, Allowed, AtWork, Admitted;
    run' := CallOutcome(st, a);
    assert Resumed(Before(st), run', a);
    if AtWork(run'.units[uid]) { StillAtWork(Before(st), run', a, uid); }
  }
}
