/** What every step keeps: lifecycle accounts, dependency order, parallel safety. */
module RunSafety {
  import opened Wrappers
  import opened Ordering
  import opened UnitStates
  import opened RunRecords
  import opened Conflicts
  import opened RunSpec
  import opened RunSteps
  import Dag

  // ---- lifecycle of one unit ----

  /** The history is an unbroken walk of legal moves from pending to `s`. */
  ghost predicate Walk(history: seq<Move>, s: State) {
    if history == [] then s == Pending
    else
      var last := history[|history| - 1];
      last.to == s && Legal(last.from, last.to) && Walk(history[..|history| - 1], last.from)
  }

  function Entries(history: seq<Move>, s: State): nat {
    if history == [] then 0
    else Entries(history[..|history| - 1], s) + (if history[|history| - 1].to == s then 1 else 0)
  }

  ghost function Total(m: map<nat, nat>): nat
    decreases |m|
  {
    if m == map[] then 0
    else
      var k :| k in m;
      m[k] + Total(m - {k})
  }

  lemma {:induction false} TotalRemove(m: map<nat, nat>, k: nat)
    requires k in m
    ensures Total(m) == m[k] + Total(m - {k})
    decreases |m|
  {
    assert m != map[];
    var j :| j in m && Total(m) == m[j] + Total(m - {j});
    if j != k {
      TotalRemove(m - {j}, k);
      TotalRemove(m - {k}, j);
      assert (m - {j}) - {k} == (m - {k}) - {j};
    }
  }

  lemma TotalBump(m: map<nat, nat>, k: nat)
    ensures Total(m[k := TierCount(m, k) + 1]) == Total(m) + 1
  {
    var m' := m[k := TierCount(m, k) + 1];
    TotalRemove(m', k);
    assert m' - {k} == m - {k};
    if k in m { TotalRemove(m, k); } else { assert m - {k} == m; }
  }

  ghost predicate UnitOk(u: Unit) {
    && Walk(u.history, u.state)
    && u.attempts == Entries(u.history, Assigned)
    && u.attempts == Total(u.byTier)
  }

  lemma MoveKeepsUnit(u: Unit, u': Unit)
    requires UnitOk(u) && MoveStep(u, u')
    ensures UnitOk(u')
  {
    assert u'.history[..|u'.history| - 1] == u.history;
    if u'.state == Assigned { TotalBump(u.byTier, u'.tier.value); }
  }

  /** In a walk, merged and cancelled are never left and the first move leaves pending. */
  lemma {:induction false} WalkIsLegal(history: seq<Move>, s: State, i: nat)
    requires Walk(history, s) && i < |history|
    ensures Legal(history[i].from, history[i].to) && !Terminal(history[i].from)
    ensures history[i].from == if i == 0 then Pending else history[i - 1].to
  {
    var n := |history| - 1;
    if i < n {
      WalkIsLegal(history[..n], history[n].from, i);
    } else if n > 0 {
      assert history[..n][n - 1] == history[n - 1];
    }
  }

  /** A merged unit was queued for merging right before, and reviewed right before that. */
  lemma MergedWasReviewed(history: seq<Move>)
    requires Walk(history, Merged)
    ensures var n := |history|;
            && n >= 3 && history[n - 1].from == history[n - 2].to == QueuedForMerge
            && history[n - 2].from == history[n - 3].to == Reviewing
            && (history[n - 3].from == Verifying || history[n - 3].from == NeedsUser)
  {
    hide Legal, Transitions;
    var n := |history|;
    assert n >= 1 && history[n - 1].to == Merged;
    hide Walk;
    WalkIsLegal(history, Merged, n - 1);
    LegalBackwards(history[n - 1].from, Merged);
    assert n >= 2;
    WalkIsLegal(history, Merged, n - 2);
    LegalBackwards(history[n - 2].from, QueuedForMerge);
    assert n >= 3;
    WalkIsLegal(history, Merged, n - 3);
    LegalBackwards(history[n - 3].from, Reviewing);
  }

  // ---- the run ----

  ghost predicate RunInv(run: Run) {
    && Dag.PlanOk(Raw(run.plan))
    && run.units.Keys == NewUnits(run.plan).Keys
    && forall uid :: uid in run.units ==> SameStatics(NewUnits(run.plan)[uid], run.units[uid]) && UnitOk(run.units[uid])
  }

  /** Every unit not pending or cancelled has all dependencies merged. */
  ghost predicate DepsSafe(run: Run) {
    forall uid :: uid in run.units ==> UnitDepsSafe(run, run.units[uid])
  }

  ghost predicate UnitDepsSafe(run: Run, u: Unit) {
    u.state == Pending || u.state == Cancelled || DepsMerged(run, u)
  }

  /** No two active units declare overlapping scopes. */
  ghost predicate OverlapFree(run: Run) {
    forall a :: a in run.units && Active(run.units[a].state) ==> ParallelSafe(run, a)
  }

  /** No pending unit has all its dependencies merged. */
  ghost predicate Promoted(run: Run) {
    forall uid :: uid in run.units ==> !(run.units[uid].state == Pending && DepsMerged(run, run.units[uid]))
  }

  ghost predicate Kept(run: Run, d: Discipline) {
    RunInv(run) && (d.deps ==> DepsSafe(run)) && (d.overlaps ==> OverlapFree(run))
  }

  lemma FreshKept(run: Run, d: Discipline)
    requires FreshDoc(run)
    ensures Kept(run, d)
  {
    NewUnitsShape(run.plan);
    forall uid | uid in run.units
      ensures UnitOk(run.units[uid]) && SameStatics(NewUnits(run.plan)[uid], run.units[uid])
      ensures run.units[uid].state == Pending
    {
      var p :| p in run.plan && p.id == uid && NewUnits(run.plan)[uid] == NewUnit(p);
    }
  }

  // ---- one step ----

  lemma UnitStepKeepsInv(run: Run, uid: Id, u': Unit)
    requires RunInv(run) && uid in run.units
    requires SameStatics(run.units[uid], u') && UnitOk(u')
    ensures RunInv(run.(units := run.units[uid := u']))
  {
  }

  lemma MergedStays(run: Run, uid: Id, u': Unit, v: Unit)
    requires uid in run.units && (run.units[uid].state == Merged ==> u'.state == Merged)
    requires DepsMerged(run, v)
    ensures DepsMerged(run.(units := run.units[uid := u']), v)
  {
  }

  lemma MoveKeepsDeps(run: Run, uid: Id, u': Unit)
    requires DepsSafe(run) && uid in run.units
    requires u'.dependsOn == run.units[uid].dependsOn
    requires u'.state == run.units[uid].state || Legal(run.units[uid].state, u'.state)
    requires run.units[uid].state == Pending && u'.state != Cancelled && u'.state != Pending ==>
               DepsMerged(run, run.units[uid])
    ensures DepsSafe(run.(units := run.units[uid := u']))
  {
    var u := run.units[uid];
    var run' := run.(units := run.units[uid := u']);
    forall v | v in run'.units ensures UnitDepsSafe(run', run'.units[v]) {
      assert UnitDepsSafe(run, run.units[v]);
      if DepsMerged(run, run.units[v]) { MergedStays(run, uid, u', run.units[v]); }
      if v == uid && DepsMerged(run, u) { assert DepsMerged(run', u'); }
    }
  }

  lemma MoveKeepsOverlap(run: Run, uid: Id, u': Unit)
    requires OverlapFree(run) && uid in run.units && u'.scope == run.units[uid].scope
    requires Active(u'.state) && !Active(run.units[uid].state) ==> ParallelSafe(run, uid)
    ensures OverlapFree(run.(units := run.units[uid := u']))
  {
    var run' := run.(units := run.units[uid := u']);
    forall a | a in run'.units && Active(run'.units[a].state) ensures ParallelSafe(run', a) {
      forall o | o in run'.units && o != a && Active(run'.units[o].state)
        ensures !ScopesOverlap(run'.units[a].scope, run'.units[o].scope)
      {
        ScopesOverlapSymmetric(run'.units[a].scope, run'.units[o].scope);
        if a == uid { assert o in run.units && Active(run.units[o].state) && ParallelSafe(run, o); }
        else { assert ParallelSafe(run, a); }
      }
    }
  }

  lemma StepKeeps(run: Run, p: Payload, d: Discipline)
    requires Kept(run, d) && StepGood(run, p, d)
    ensures Kept(ApplyPayload(run, p), d)
  {
    if p.run.Some? {
      FreshKept(p.run.value, d);
      HandoffIrrelevant(p.run.value, ApplyPayload(run, p), d);
    } else if p.unit.Some? {
      UnitStepKeeps(run, p, d);
    } else {
      hide Kept;
      HandoffIrrelevant(run, ApplyPayload(run, p), d);
    }
  }

  /** A payload about one unit: what it must satisfy, and what it leaves. */
  lemma UnitStepKeeps(run: Run, p: Payload, d: Discipline)
    requires Kept(run, d) && StepGood(run, p, d) && p.run.None? && p.unit.Some?
    ensures Kept(ApplyPayload(run, p), d)
  {
    var (uid, u') := p.unit.value;
    UnitStepFacts(run, p, d);
    hide StepGood, UnitOk, SameStatics, ParallelSafe, DepsMerged;
    UnitStepKeepsInv(run, uid, u');
    if d.deps { MoveKeepsDeps(run, uid, u'); }
    if d.overlaps { MoveKeepsOverlap(run, uid, u'); }
    HandoffIrrelevant(run.(units := run.units[uid := u']), ApplyPayload(run, p), d);
  }

  lemma UnitStepFacts(run: Run, p: Payload, d: Discipline)
    requires RunInv(run) && StepGood(run, p, d) && p.run.None? && p.unit.Some?
    ensures var (uid, u') := p.unit.value;
            && uid in run.units && SameStatics(run.units[uid], u') && UnitOk(u')
            && u'.dependsOn == run.units[uid].dependsOn && u'.scope == run.units[uid].scope
            && (u'.state == run.units[uid].state || Legal(run.units[uid].state, u'.state))
            && (d.deps && run.units[uid].state == Pending && u'.state != Cancelled && u'.state != Pending ==>
                  DepsMerged(run, run.units[uid]))
            && (d.overlaps && Active(u'.state) && !Active(run.units[uid].state) ==> ParallelSafe(run, uid))
  {
    var (uid, u') := p.unit.value;
    if p.kind == StateChanged { MoveKeepsUnit(run.units[uid], u'); }
  }

  lemma HandoffIrrelevant(run: Run, run': Run, d: Discipline)
    requires Kept(run, d) && run'.units == run.units && run'.plan == run.plan
    ensures Kept(run', d)
  {
    if d.deps {
      forall uid | uid in run'.units ensures UnitDepsSafe(run', run'.units[uid]) {
        assert UnitDepsSafe(run, run.units[uid]);
      }
    }
    if d.overlaps {
      forall a | a in run'.units && Active(run'.units[a].state) ensures ParallelSafe(run', a) {
        assert ParallelSafe(run, a);
      }
    }
  }

  lemma {:induction false} StepsKeep(run: Run, ps: seq<Payload>, d: Discipline)
    requires Kept(run, d) && Steps(run, ps, d)
    ensures Kept(ApplyAll(run, ps), d)
  {
    if ps != [] {
      var n := |ps| - 1;
      StepsKeep(run, ps[..n], d);
      StepKeeps(ApplyAll(run, ps[..n]), ps[n], d);
    }
  }

  // ---- exactly when a plain transition is safe ----

  lemma TransitionResult(run: Run, uid: Id, target: State, actor: Id, reason: string, now: real)
    requires Perform(run, Transition(uid, target, reason), actor, now).Ok?
    ensures uid in run.units && Legal(run.units[uid].state, target)
    ensures var moved := Publish(Tx(run, []), uid, target, actor, reason, now);
            && moved.run == run.(units := run.units[uid := Moved(run.units[uid], target, actor, reason, now)])
            && Perform(run, Transition(uid, target, reason), actor, now).value.tx.run ==
               if target == Merged then Promote(moved, Ids(moved.run), actor, now).run else moved.run
  {
  }

  /** A caller's transition keeps dependency order exactly unless it takes a waiting unit out of pending. */
  lemma TransitionDepsExactly(run: Run, uid: Id, target: State, actor: Id, reason: string, now: real)
    requires RunInv(run) && DepsSafe(run)
    requires Perform(run, Transition(uid, target, reason), actor, now).Ok?
    ensures DepsSafe(Perform(run, Transition(uid, target, reason), actor, now).value.tx.run) <==>
            !(run.units[uid].state == Pending && target != Cancelled && !DepsMerged(run, run.units[uid]))
  {
    TransitionResult(run, uid, target, actor, reason, now);
    var u := run.units[uid];
    var u' := Moved(u, target, actor, reason, now);
    if u.state == Pending && target != Cancelled && !DepsMerged(run, u) {
      LeavingPendingBreaks(run, uid, u');
    } else {
      MoveKeepsDeps(run, uid, u');
      var moved := Publish(Tx(run, []), uid, target, actor, reason, now);
      if target == Merged { PromoteKeepsDeps(moved, Ids(moved.run), actor, now); }
    }
  }

  lemma LeavingPendingBreaks(run: Run, uid: Id, u': Unit)
    requires uid in run.units && !DepsMerged(run, run.units[uid]) && u'.dependsOn == run.units[uid].dependsOn
    requires u'.state != Pending && u'.state != Cancelled && u'.state != Merged
    ensures !DepsSafe(run.(units := run.units[uid := u']))
  {
    var u, run' := run.units[uid], run.(units := run.units[uid := u']);
    var i :| 0 <= i < |u.dependsOn| && !(u.dependsOn[i] in run.units && run.units[u.dependsOn[i]].state == Merged);
    assert u'.dependsOn[i] == u.dependsOn[i];
    assert !DepsMerged(run', u');
    assert !UnitDepsSafe(run', run'.units[uid]);
  }

  lemma {:induction false} PromoteKeepsDeps(tx: Tx, ids: seq<Id>, actor: Id, now: real)
    requires DepsSafe(tx.run)
    ensures DepsSafe(Promote(tx, ids, actor, now).run)
    decreases |ids|
  {
    if ids != [] {
      var before := Promote(tx, ids[..|ids| - 1], actor, now);
      var uid := ids[|ids| - 1];
      PromoteKeepsDeps(tx, ids[..|ids| - 1], actor, now);
      if uid in before.run.units && Promotable(before.run, before.run.units[uid]) {
        MoveKeepsDeps(before.run, uid, Moved(before.run.units[uid], Ready, actor, "dependencies_merged", now));
      }
    }
  }

  /** Bringing one inactive unit among the active ones is safe exactly when nothing active overlaps it. */
  lemma ActivationExactly(run: Run, uid: Id, run': Run)
    requires OverlapFree(run) && OnlyUnit(run, run', uid)
    requires !Active(run.units[uid].state) && Active(run'.units[uid].state)
    ensures OverlapFree(run') <==> ParallelSafe(run, uid)
  {
    var u' := run'.units[uid];
    if ParallelSafe(run, uid) {
      MoveKeepsOverlap(run, uid, u');
      forall a | a in run'.units && Active(run'.units[a].state) ensures ParallelSafe(run', a) {
        assert ParallelSafe(run.(units := run.units[uid := u']), a);
      }
    } else {
      var o :| o in run.units && o != uid && Active(run.units[o].state)
               && ScopesOverlap(run.units[uid].scope, run.units[o].scope);
      assert o in run'.units && run'.units[o] == run.units[o];
      assert !ParallelSafe(run', uid);
    }
  }

  /** Only this unit's record changed, and not its scope. */
  ghost predicate OnlyUnit(run: Run, run': Run, uid: Id) {
    && uid in run.units && uid in run'.units && run'.units == run.units[uid := run'.units[uid]]
    && run'.units[uid].scope == run.units[uid].scope
  }

  lemma OnlyUnitTwice(a: Run, b: Run, c: Run, uid: Id)
    requires OnlyUnit(a, b, uid) && OnlyUnit(b, c, uid)
    ensures OnlyUnit(a, c, uid)
  {
  }

  lemma SetStateOnly(tx: Tx, uid: Id, target: State, actor: Id, reason: string, now: real)
    requires target != Merged && SetState(tx, uid, target, actor, reason, now).Ok?
    ensures var run' := SetState(tx, uid, target, actor, reason, now).value.run;
            OnlyUnit(tx.run, run', uid) && run'.units[uid].state == target
  {
  }

  lemma AssignOnly(tx: Tx, uid: Id, worker: Id, r: Routing, actor: Id, now: real)
    requires uid in tx.run.units && AssignWork(tx, uid, worker, r, actor, now).Ok?
    requires AssignWork(tx, uid, worker, r, actor, now).value.ok
    ensures var run' := AssignWork(tx, uid, worker, r, actor, now).value.tx.run;
            OnlyUnit(tx.run, run', uid) && run'.units[uid].state == Assigned
  {
    var tier := ChooseTier(tx.run.units[uid], r).value;
    var started := Edit(tx, uid, Started(tx.run.units[uid], worker, tier));
    SetStateOnly(started, uid, Assigned, actor, "assigned", now);
    hide SetState;
    OnlyUnitTwice(tx.run, started.run, SetState(started, uid, Assigned, actor, "assigned", now).value.run, uid);
  }

  /** The transaction just before the reassigned unit is assigned. */
  lemma ReadiedOnly(run: Run, op: Op, actor: Id, now: real) returns (t: Tx)
    requires op.Reassign? && Perform(run, op, actor, now).Ok?
    ensures op.uid in run.units && !Active(run.units[op.uid].state) && OnlyUnit(run, t.run, op.uid)
    ensures Perform(run, op, actor, now) == AssignWork(t, op.uid, op.worker, op.routing, actor, now)
  {
    var u := run.units[op.uid];
    var h := Handoff(op.hid, Some(op.uid), u.owner, op.worker, op.reason);
    var plain := Detached(Tx(run, []), op.uid, h);
    if u.state == Ready {
      t := Recorded(plain, op.uid, op.worker, h);
    } else {
      var r := SetState(plain, op.uid, Ready, actor, "handoff:" + op.hid, now);
      SetStateOnly(plain, op.uid, Ready, actor, "handoff:" + op.hid, now);
      t := Recorded(r.value, op.uid, op.worker, h);
      hide SetState, AssignWork;
      OnlyUnitTwice(run, plain.run, r.value.run, op.uid);
      OnlyUnitTwice(run, r.value.run, t.run, op.uid);
    }
  }

  /** A reassignment that starts work keeps active units apart exactly when nothing active overlaps the unit. */
  lemma ReassignOverlapExactly(run: Run, op: Op, actor: Id, now: real)
    requires OverlapFree(run) && op.Reassign?
    requires Perform(run, op, actor, now).Ok? && Perform(run, op, actor, now).value.ok
    ensures op.uid in run.units
    ensures OverlapFree(Perform(run, op, actor, now).value.tx.run) <==> ParallelSafe(run, op.uid)
  {
    var t := ReadiedOnly(run, op, actor, now);
    AssignOnly(t, op.uid, op.worker, op.routing, actor, now);
    hide Perform, AssignWork, OverlapFree, ParallelSafe;
    OnlyUnitTwice(run, t.run, Perform(run, op, actor, now).value.tx.run, op.uid);
    ActivationExactly(run, op.uid, Perform(run, op, actor, now).value.tx.run);
  }

  /** Putting a stalled review back among the active units is safe exactly when nothing active overlaps it. */
  lemma HealOverlapExactly(run: Run, uid: Id, actor: Id, reason: string, now: real)
    requires OverlapFree(run) && uid in run.units && run.units[uid].state == NeedsUser
    ensures var r := Perform(run, Transition(uid, Reviewing, reason), actor, now);
            r.Ok? && (OverlapFree(r.value.tx.run) <==> ParallelSafe(run, uid))
  {
    ActivationExactly(run, uid, Perform(run, Transition(uid, Reviewing, reason), actor, now).value.tx.run);
  }

  // ---- promotion ----

  ghost predicate SameMerged(run: Run, run': Run) {
    && run'.units.Keys == run.units.Keys
    && forall uid :: uid in run.units ==>
         && run'.units[uid].dependsOn == run.units[uid].dependsOn
         && (run'.units[uid].state == Merged <==> run.units[uid].state == Merged)
         && (run'.units[uid].state == Pending ==> run.units[uid].state == Pending)
  }

  lemma SameMergedPromoted(run: Run, run': Run)
    requires SameMerged(run, run') && Promoted(run)
    ensures Promoted(run')
  {
    forall uid | uid in run'.units && run'.units[uid].state == Pending ensures !DepsMerged(run', run'.units[uid]) {
      if DepsMerged(run', run'.units[uid]) { assert DepsMerged(run, run.units[uid]); }
    }
  }

  lemma QuietStep(run: Run, p: Payload, d: Discipline)
    requires d.quiet && StepGood(run, p, d) && p.run.None?
    ensures SameMerged(run, ApplyPayload(run, p))
  {
    hide DepsMerged, ParallelSafe;
    if p.kind == StateChanged {
      MergedNeverMoves(run.units[p.unit.value.0], p.unit.value.1);
    }
  }

  lemma MergedNeverMoves(u: Unit, u': Unit)
    requires MoveStep(u, u')
    ensures u.state != Merged && u'.state != Pending && u'.dependsOn == u.dependsOn
  {
  }

  lemma {:induction false} QuietSteps(run: Run, ps: seq<Payload>, d: Discipline)
    requires d.quiet && Steps(run, ps, d)
    requires forall i :: 0 <= i < |ps| ==> ps[i].run.None?
    ensures SameMerged(run, ApplyAll(run, ps))
  {
    if ps != [] {
      var n := |ps| - 1;
      QuietSteps(run, ps[..n], d);
      QuietStep(ApplyAll(run, ps[..n]), ps[n], d);
    }
  }

  ghost predicate Waiting(run: Run, uid: Id)
    requires uid in run.units
  {
    run.units[uid].state == Pending && DepsMerged(run, run.units[uid])
  }

  lemma WaitingFrame(run: Run, run': Run, uid: Id)
    requires SameMerged(run, run') && uid in run.units && !Waiting(run, uid)
    ensures uid in run'.units && !Waiting(run', uid)
  {
    if Waiting(run', uid) { assert DepsMerged(run, run.units[uid]); }
  }

  lemma PromoteOne(tx: Tx, ids: seq<Id>, actor: Id, now: real)
    requires ids != []
    ensures var before, after := Promote(tx, ids[..|ids| - 1], actor, now).run, Promote(tx, ids, actor, now).run;
            SameMerged(before, after) && (ids[|ids| - 1] in after.units ==> !Waiting(after, ids[|ids| - 1]))
  {
    var before, uid := Promote(tx, ids[..|ids| - 1], actor, now), ids[|ids| - 1];
    if uid in before.run.units && Promotable(before.run, before.run.units[uid]) {
      ReadySameMerged(before, uid, actor, now);
    }
    hide Publish, DepsMerged;
  }

  lemma ReadySameMerged(tx: Tx, uid: Id, actor: Id, now: real)
    requires uid in tx.run.units && tx.run.units[uid].state == Pending
    ensures var run' := Publish(tx, uid, Ready, actor, "dependencies_merged", now).run;
            SameMerged(tx.run, run') && uid in run'.units && run'.units[uid].state == Ready
  {
  }

  lemma SameMergedTrans(a: Run, b: Run, c: Run)
    requires SameMerged(a, b) && SameMerged(b, c)
    ensures SameMerged(a, c)
  {
  }

  /** After promoting every id, no pending unit among them is promotable. */
  lemma {:induction false} PromotePromotes(tx: Tx, ids: seq<Id>, actor: Id, now: real)
    ensures SameMerged(tx.run, Promote(tx, ids, actor, now).run)
    ensures forall uid :: uid in ids && uid in tx.run.units ==>
                            var run' := Promote(tx, ids, actor, now).run; uid in run'.units && !Waiting(run', uid)
    decreases |ids|
  {
    if ids != [] {
      var front, last := ids[..|ids| - 1], ids[|ids| - 1];
      var before, after := Promote(tx, front, actor, now).run, Promote(tx, ids, actor, now).run;
      PromotePromotes(tx, front, actor, now);
      PromoteOne(tx, ids, actor, now);
      SameMergedTrans(tx.run, before, after);
      forall uid | uid in ids && uid in tx.run.units ensures uid in after.units && !Waiting(after, uid) {
        if uid != last {
          assert uid in front;
          WaitingFrame(before, after, uid);
        }
      }
    }
  }

  lemma PromoteAll(tx: Tx, actor: Id, now: real)
    requires tx.run.units.Keys == NewUnits(tx.run.plan).Keys
    ensures Promoted(Promote(tx, Ids(tx.run), actor, now).run)
  {
    PromotePromotes(tx, Ids(tx.run), actor, now);
    NewUnitsShape(tx.run.plan);
    forall uid | uid in tx.run.units ensures uid in Ids(tx.run) {
      assert uid in NewUnits(tx.run.plan).Keys;
      assert uid in PlanIds(tx.run.plan);
    }
  }

  /** No event founds a run and none after the first `n` touches the lease. */
  ghost predicate UnitOnly(ps: seq<Payload>, n: nat) {
    forall i :: 0 <= i < |ps| ==> ps[i].run.None? && (i < n || ps[i].lease.None?)
  }

  lemma {:induction false} SweepUnitOnly(tx: Tx, n: nat, ids: seq<Id>, liveness: map<Id, Liveness>,
                                         actor: Id, now: real)
    requires UnitOnly(tx.events, n)
    ensures UnitOnly(Sweep(tx, ids, liveness, actor, now).events, n)
    decreases |ids|
  {
    if ids != [] { SweepUnitOnly(tx, n, ids[..|ids| - 1], liveness, actor, now); }
  }

  lemma {:induction false} PromoteUnitOnly(tx: Tx, n: nat, ids: seq<Id>, actor: Id, now: real)
    requires UnitOnly(tx.events, n)
    ensures UnitOnly(Promote(tx, ids, actor, now).events, n)
    decreases |ids|
  {
    if ids != [] { PromoteUnitOnly(tx, n, ids[..|ids| - 1], actor, now); }
  }

  lemma SetStateUnitOnly(tx: Tx, n: nat, uid: Id, target: State, actor: Id, reason: string, now: real)
    requires UnitOnly(tx.events, n)
    ensures var r := SetState(tx, uid, target, actor, reason, now); r.Ok? ==> UnitOnly(r.value.events, n)
  {
    if uid in tx.run.units {
      var t := Publish(tx, uid, target, actor, reason, now);
      PromoteUnitOnly(t, n, Ids(t.run), actor, now);
    }
  }

  lemma AssignUnitOnly(tx: Tx, n: nat, uid: Id, worker: Id, r: Routing, actor: Id, now: real)
    requires UnitOnly(tx.events, n) && uid in tx.run.units
    ensures var res := AssignWork(tx, uid, worker, r, actor, now); res.Ok? ==> UnitOnly(res.value.tx.events, n)
  {
    var u := tx.run.units[uid];
    var tier := ChooseTier(u, r);
    SetStateUnitOnly(tx, n, uid, NeedsUser, actor, "routing_invalid", now);
    SetStateUnitOnly(tx, n, uid, NeedsUser, actor, "budget_exhausted", now);
    if tier.Some? {
      SetStateUnitOnly(Edit(tx, uid, Started(u, worker, tier.value)), n, uid, Assigned, actor, "assigned", now);
    }
  }

  lemma ReassignUnitOnly(tx: Tx, n: nat, uid: Id, worker: Id, r: Routing, reason: string, hid: Id, actor: Id, now: real)
    requires UnitOnly(tx.events, n) && uid in tx.run.units
    ensures var res := ReassignWork(tx, uid, worker, r, reason, hid, actor, now);
            res.Ok? ==> UnitOnly(res.value.tx.events, n)
  {
    var u := tx.run.units[uid];
    var h := Handoff(hid, Some(uid), u.owner, worker, reason);
    var t := Detached(tx, uid, h);
    if u.state != Ready {
      SetStateUnitOnly(t, n, uid, Ready, actor, "handoff:" + hid, now);
      var s := SetState(t, uid, Ready, actor, "handoff:" + hid, now);
      if s.Ok? { AssignUnitOnly(Recorded(s.value, uid, worker, h), n, uid, worker, r, actor, now); }
    } else {
      AssignUnitOnly(Recorded(t, uid, worker, h), n, uid, worker, r, actor, now);
    }
  }

  lemma RecordUnitOnly(tx: Tx, n: nat, op: Op, actor: Id, now: real)
    requires UnitOnly(tx.events, n) && IsRecording(op) && op.uid in tx.run.units
    ensures var res := RecordOn(tx, op, actor, now); res.Ok? ==> UnitOnly(res.value.tx.events, n)
  {
    if op.RecordUsage? {
      var u := tx.run.units[op.uid];
      SetStateUnitOnly(Updated(tx, op.uid, u.(cost := u.cost + op.cost)), n, op.uid, NeedsUser, actor,
                       "budget_exhausted", now);
    }
  }

  predicate MovesLease(op: Op) {
    op.AcquireLease? || op.RenewLease? || op.ReleaseLease? || op.TransferLease? || op.Resume?
  }

  /** Only the first event of a lease operation touches the lease; no mutation founds a run. */
  lemma PerformUnitOnly(run: Run, op: Op, actor: Id, now: real)
    ensures var r := Perform(run, op, actor, now);
            r.Ok? ==> UnitOnly(r.value.tx.events, if MovesLease(op) then 1 else 0)
  {
    var tx, n := Tx(run, []), if MovesLease(op) then 1 else 0;
    if Perform(run, op, actor, now).Ok? {
      if IsRecording(op) {
        RecordUnitOnly(tx, n, op, actor, now);
      } else if op.Transition? {
        SetStateUnitOnly(tx, n, op.uid, op.target, actor, op.reason, now);
      } else if op.Assign? {
        AssignUnitOnly(tx, n, op.uid, op.worker, op.routing, actor, now);
      } else if op.Reassign? {
        ReassignUnitOnly(tx, n, op.uid, op.worker, op.routing, op.reason, op.hid, actor, now);
      } else if op.Surrender? {
        var u := run.units[op.uid];
        SetStateUnitOnly(Edit(tx, op.uid, u.(process := Some(u.process.value.(surrendered := true)))), n, op.uid,
                           NeedsUser, actor, op.reason, now);
      } else if op.Resume? {
        SweepUnitOnly(TakeLease(tx, actor, op.ttl, now, op.hid, "resume"), n, Ids(run), op.liveness, actor, now);
      }
    }
  }

  // ---- no stall ----

  /** A promoted run whose units are all pending or merged is finished: the plan's order leaves no deadlock. */
  lemma NoStall(run: Run)
    requires RunInv(run) && Promoted(run)
    requires forall uid :: uid in run.units ==> run.units[uid].state == Pending || run.units[uid].state == Merged
    ensures forall uid :: uid in run.units ==> run.units[uid].state == Merged
  {
    PlanGraph(run);
    var deps := UnitGraph(NewUnits(run.plan));
    hide UnitGraph, Dag.Acyclic, Dag.Known, RunInv, Promoted, DepsMerged;
    var waiting := set uid | uid in run.units && run.units[uid].state != Merged;
    if waiting != {} {
      var first := Dag.BottomExists(deps, waiting);
      DepsOutside(run, deps, waiting, first);
      PromotedWaits(run, first);
    }
    forall uid | uid in run.units ensures run.units[uid].state == Merged { assert uid !in waiting; }
  }

  lemma PromotedWaits(run: Run, uid: Id)
    requires Promoted(run) && uid in run.units && DepsMerged(run, run.units[uid])
    ensures run.units[uid].state != Pending
  {
  }

  /** The dependency graph of a stored run is the plan's: complete and acyclic. */
  lemma PlanGraph(run: Run)
    requires RunInv(run)
    ensures var deps := UnitGraph(NewUnits(run.plan));
            Dag.Acyclic(deps) && Dag.Known(deps) && deps.Keys == run.units.Keys
  {
    NewUnitsGraph(run.plan);
  }

  lemma DepsOutside(run: Run, deps: Dag.Deps, waiting: set<Id>, uid: Id)
    requires RunInv(run) && deps == UnitGraph(NewUnits(run.plan)) && Dag.Known(deps) && uid in deps
    requires forall u :: u in waiting <==> u in run.units && run.units[u].state != Merged
    requires forall d :: d in deps[uid] ==> d !in waiting
    ensures uid in run.units && DepsMerged(run, run.units[uid])
  {
    assert uid in NewUnits(run.plan).Keys;
    forall i | 0 <= i < |run.units[uid].dependsOn|
      ensures run.units[uid].dependsOn[i] in run.units && run.units[run.units[uid].dependsOn[i]].state == Merged
    {
      var d := run.units[uid].dependsOn[i];
      assert d in NewUnits(run.plan)[uid].dependsOn;
      assert d in deps[uid] && d in deps.Keys;
      assert d in NewUnits(run.plan).Keys;
    }
  }
}
