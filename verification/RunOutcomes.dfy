/** What a completed call leaves stored, and which calls are refused, read off the stored run (runs/manager.py). */
module RunOutcomes {
  import opened Wrappers
  import opened Ordering
  import opened UnitStates
  import opened RunRecords
  import opened Conflicts
  import opened RunSpec
  import opened RunSteps
  import opened RunRecovery
  import opened RunSafety
  import opened RunHistory
  import opened RunFencing
  import Dag

  // ---- one completed call ----

  /** A reachable stored run, and a call on it that nothing interrupts. */
  ghost predicate Completed(st: Store, a: Action) {
    && Good(st, ANY) && st != EMPTY && Admitted(st, a, ANY) && a.stop == None && !a.op.Create? && !a.op.Replace?
  }

  ghost function Before(st: Store): Run
    requires Good(st, ANY) && st != EMPTY
  {
    Load(st).run
  }

  ghost predicate HasLease(run: Run, a: Action) {
    run.lease.conductor == a.actor && a.now < run.lease.expires
  }

  ghost predicate SameDocument(run: Run, run': Run) {
    run'.units == run.units && run'.lease == run.lease && run'.handoffs == run.handoffs && run'.plan == run.plan
  }

  lemma CallIs(st: Store, a: Action)
    requires Completed(st, a)
    ensures Load(st) == Loaded(Before(st)) && Sound(st)
    ensures var r := Perform(Before(st), a.op, a.actor, a.now);
            Exec(st, a) == if (LeaseExempt(a.op) || HasLease(Before(st), a)) && r.Ok?
                           then Commit(st, r.value.tx, None) else st
  {
    hide Perform, Commit, Load, LeaseExempt, Admitted;
  }

  /** What the transaction of an accepted call says is what is stored; a refused call changes nothing. */
  lemma CallLoads(st: Store, a: Action) returns (run': Run)
    requires Completed(st, a)
    ensures Load(Exec(st, a)) == Loaded(run')
    ensures var r := Perform(Before(st), a.op, a.actor, a.now);
            if (LeaseExempt(a.op) || HasLease(Before(st), a)) && r.Ok?
            then SameDocument(r.value.tx.run, run') else Exec(st, a) == st
  {
    var run := Before(st);
    var r := Perform(run, a.op, a.actor, a.now);
    CallIs(st, a);
    if (LeaseExempt(a.op) || HasLease(run, a)) && r.Ok? {
      PerformTracks(run, a.op, a.actor, a.now, ANY);
      hide Perform, Commit, Load, Exec, Sound, Good, Admitted;
      CommitLoads(st, r.value.tx, None, ANY);
      assert r.value.tx.events[..|r.value.tx.events|] == r.value.tx.events;
      run' := Load(Exec(st, a)).run;
    } else {
      run' := run;
    }
  }

  /** The record of a unit that was moved. */
  function MovedTo(u: Unit, target: State, reason: string, a: Action): Unit {
    u.(state := target, reason := reason,
       history := u.history + [Move(u.state, target, a.now, a.actor, u.owner, reason)])
  }

  /** Nothing but one unit is different. */
  ghost predicate OthersSame(run: Run, run': Run, uid: Id) {
    run'.units.Keys == run.units.Keys && forall v :: v in run.units && v != uid ==> run'.units[v] == run.units[v]
  }

  /** Nobody else holds a running lease. */
  predicate LeaseFree(run: Run, a: Action) {
    run.lease.conductor == "" || run.lease.conductor == a.actor || run.lease.expires <= a.now
  }

  ghost predicate Known(run: Run, uid: Id, run': Run) {
    uid in run.units && uid in run'.units && OthersSame(run, run', uid)
  }

  // ---- leases ----

  /** The handoff filed when the lease passes from another conductor. */
  function TakenOver(run: Run, a: Action, hid: Id, reason: string): seq<Handoff> {
    if run.lease.conductor == "" || run.lease.conductor == a.actor then []
    else [Handoff(hid, None, Some(run.lease.conductor), a.actor, reason)]
  }

  ghost predicate LeaseAllowed(run: Run, a: Action) {
    if a.op.AcquireLease? then LeaseFree(run, a) else HasLease(run, a)
  }

  ghost predicate LeaseMoved(run: Run, run': Run, a: Action) {
    && run'.units == run.units
    && match a.op
       case AcquireLease(ttl, hid) =>
         && run'.lease == Lease(a.actor, a.now + ttl)
         && run'.handoffs == run.handoffs + TakenOver(run, a, hid, "lease_expired")
       case RenewLease(ttl) => run'.lease == Lease(a.actor, a.now + ttl) && run'.handoffs == run.handoffs
       case ReleaseLease => run'.lease == Lease(a.actor, a.now) && run'.handoffs == run.handoffs
       case TransferLease(to, ttl, hid) =>
         && run'.lease == Lease(to, a.now + ttl)
         && run'.handoffs == run.handoffs + [Handoff(hid, None, Some(a.actor), to, "explicit_transfer")]
       case _ => false
  }

  predicate IsLeaseOp(op: Op) {
    op.AcquireLease? || op.RenewLease? || op.ReleaseLease? || op.TransferLease?
  }

  lemma LeasePerforms(run: Run, a: Action)
    requires IsLeaseOp(a.op)
    ensures var r := Perform(run, a.op, a.actor, a.now);
            if LeaseAllowed(run, a)
            then r.Ok? && LeaseMoved(run, r.value.tx.run, a) && r.value.tx.run.plan == run.plan
            else r.Err? || !(LeaseExempt(a.op) || HasLease(run, a))
  {
    assert run.handoffs + [] == run.handoffs;
  }

  // ---- resume ----

  ghost predicate AtWork(u: Unit) {
    u.state == Assigned || u.state == Running
  }

  /** The unit's worker is gone: there is none, it has finished, or it was found dead. */
  predicate WorkerGone(u: Unit, uid: Id, liveness: map<Id, Liveness>) {
    u.process.None? || u.process.value.finished || uid !in liveness || liveness[uid] == Dead
  }

  /** Workers that are gone interrupt their unit, unverified ones send it to the user, live ones keep it. */
  ghost predicate Examined(u: Unit, u': Unit, uid: Id, liveness: map<Id, Liveness>, a: Action) {
    && (!AtWork(u) ==> u' == u)
    && (AtWork(u) && WorkerGone(u, uid, liveness) ==> u' == MovedTo(u, Interrupted, "process_gone", a))
    && (AtWork(u) && !WorkerGone(u, uid, liveness) && liveness[uid] == Unverified ==>
          u' == MovedTo(u, NeedsUser, "liveness_unverified", a))
    && (AtWork(u) && !WorkerGone(u, uid, liveness) && liveness[uid] == Alive ==> u' == u)
  }

  ghost predicate Resumed(run: Run, run': Run, a: Action)
    requires a.op.Resume?
  {
    && run'.lease == Lease(a.actor, a.now + a.op.ttl)
    && run'.handoffs == run.handoffs + TakenOver(run, a, a.op.hid, "resume")
    && run'.units.Keys == run.units.Keys
    && forall uid :: uid in run.units ==> Examined(run.units[uid], run'.units[uid], uid, a.op.liveness, a)
  }

  lemma SweepOneExamines(tx: Tx, uid: Id, liveness: map<Id, Liveness>, a: Action)
    ensures var run' := SweepOne(tx, uid, liveness, a.actor, a.now).run;
            && run' == tx.run.(units := run'.units) && OthersSame(tx.run, run', uid)
            && (uid in tx.run.units ==> Examined(tx.run.units[uid], run'.units[uid], uid, liveness, a))
  {
  }

  lemma {:induction false} SweepExamines(tx: Tx, ids: seq<Id>, liveness: map<Id, Liveness>, a: Action, uid: Id)
    requires Distinct(ids) && uid in tx.run.units
    ensures var run' := Sweep(tx, ids, liveness, a.actor, a.now).run;
            && run'.units.Keys == tx.run.units.Keys
            && if uid in ids then Examined(tx.run.units[uid], run'.units[uid], uid, liveness, a)
               else run'.units[uid] == tx.run.units[uid]
    decreases |ids|
  {
    if ids != [] {
      hide SweepOne, Examined;
      var front, last := ids[..|ids| - 1], ids[|ids| - 1];
      assert ids == front + [last] && last !in front && Distinct(front);
      SweepExamines(tx, front, liveness, a, uid);
      SweepOneExamines(Sweep(tx, front, liveness, a.actor, a.now), last, liveness, a);
    }
  }

  lemma PlanListsUnits(run: Run)
    requires RunInv(run)
    ensures Distinct(Ids(run)) && forall uid :: uid in run.units ==> uid in Ids(run)
  {
    NewUnitsShape(run.plan);
    forall uid | uid in run.units ensures uid in PlanIds(run.plan) { assert uid in NewUnits(run.plan).Keys; }
    var raw := RawUnits(run.plan);
    forall i, j | 0 <= i < j < |run.plan| ensures PlanIds(run.plan)[i] != PlanIds(run.plan)[j] {
      assert raw[i].id != raw[j].id;
    }
  }

  lemma {:induction false} SweepKeeps(tx: Tx, ids: seq<Id>, liveness: map<Id, Liveness>, a: Action)
    ensures var run' := Sweep(tx, ids, liveness, a.actor, a.now).run;
            && run'.lease == tx.run.lease && run'.handoffs == tx.run.handoffs && run'.plan == tx.run.plan
            && run'.units.Keys == tx.run.units.Keys
    decreases |ids|
  {
    if ids != [] { SweepKeeps(tx, ids[..|ids| - 1], liveness, a); }
  }

  lemma ResumeIs(run: Run, a: Action)
    requires a.op.Resume?
    ensures var r := Perform(run, a.op, a.actor, a.now);
            && (r.Ok? <==> LeaseFree(run, a))
            && var taken := TakeLease(Tx(run, []), a.actor, a.op.ttl, a.now, a.op.hid, "resume");
               (r.Ok? ==> r.value.tx.run == Sweep(taken, Ids(run), a.op.liveness, a.actor, a.now).run)
  {
    hide TakeLease, Sweep, Ids;
  }

  lemma TakeLeaseIs(run: Run, a: Action)
    requires a.op.Resume?
    ensures var run' := TakeLease(Tx(run, []), a.actor, a.op.ttl, a.now, a.op.hid, "resume").run;
            && run'.units == run.units && run'.plan == run.plan && run'.lease == Lease(a.actor, a.now + a.op.ttl)
            && run'.handoffs == run.handoffs + TakenOver(run, a, a.op.hid, "resume")
  {
    assert run.handoffs + [] == run.handoffs;
  }

  lemma ResumePerforms(run: Run, a: Action)
    requires a.op.Resume? && RunInv(run)
    ensures var r := Perform(run, a.op, a.actor, a.now);
            if LeaseFree(run, a) then r.Ok? && Resumed(run, r.value.tx.run, a) && r.value.tx.run.plan == run.plan
            else r.Err?
  {
    ResumeIs(run, a);
    hide Perform, TakeLease, Sweep, Ids, Examined, LeaseFree, TakenOver, RunInv;
    var taken := TakeLease(Tx(run, []), a.actor, a.op.ttl, a.now, a.op.hid, "resume");
    TakeLeaseIs(run, a);
    PlanListsUnits(run);
    SweepKeeps(taken, Ids(run), a.op.liveness, a);
    forall uid | uid in run.units
      ensures Examined(run.units[uid], Sweep(taken, Ids(run), a.op.liveness, a.actor, a.now).run.units[uid], uid,
                       a.op.liveness, a)
    {
      SweepExamines(taken, Ids(run), a.op.liveness, a, uid);
    }
  }

  // ---- transitions ----

  ghost predicate TransitionAllowed(run: Run, a: Action)
    requires a.op.Transition?
  {
    && HasLease(run, a) && a.op.uid in run.units && a.op.target != Assigned
    && Legal(run.units[a.op.uid].state, a.op.target)
    && (a.op.target == Verifying ==>
          var u := run.units[a.op.uid];
          u.note.Some? && u.note.value.valid && u.note.value.attempt == u.attempts)
  }

  /** Every dependency is merged, counting `uid` as merged. */
  ghost predicate FreedBy(run: Run, uid: Id, u: Unit) {
    forall i :: 0 <= i < |u.dependsOn| ==>
      u.dependsOn[i] in run.units && (u.dependsOn[i] == uid || run.units[u.dependsOn[i]].state == Merged)
  }

  /** The unit is moved; a merge also readies the pending units whose dependencies are now all merged. */
  ghost predicate Transitioned(run: Run, run': Run, a: Action)
    requires a.op.Transition?
  {
    var uid := a.op.uid;
    && uid in run.units && run'.units.Keys == run.units.Keys && run'.lease == run.lease && run'.handoffs == run.handoffs
    && run'.units[uid] == MovedTo(run.units[uid], a.op.target, a.op.reason, a)
    && forall v :: v in run.units && v != uid ==>
         var u := run.units[v];
         run'.units[v] == if a.op.target == Merged && u.state == Pending && FreedBy(run, uid, u)
                          then MovedTo(u, Ready, "dependencies_merged", a) else u
  }

  /** Promotion readies exactly the listed pending units whose dependencies are merged. */
  lemma {:induction false} PromoteReadies(tx: Tx, ids: seq<Id>, a: Action)
    requires Distinct(ids)
    ensures var run' := Promote(tx, ids, a.actor, a.now).run;
            && run' == tx.run.(units := run'.units) && run'.units.Keys == tx.run.units.Keys
            && forall v :: v in tx.run.units ==>
                 var u := tx.run.units[v];
                 run'.units[v] == if v in ids && u.state == Pending && DepsMerged(tx.run, u)
                                  then MovedTo(u, Ready, "dependencies_merged", a) else u
    decreases |ids|
  {
    if ids != [] {
      var front, last := ids[..|ids| - 1], ids[|ids| - 1];
      assert ids == front + [last] && last !in front && Distinct(front);
      PromoteReadies(tx, front, a);
      var before := Promote(tx, front, a.actor, a.now).run;
      forall u ensures DepsMerged(before, u) <==> DepsMerged(tx.run, u) { SameDeps(tx.run, before, u); }
    }
  }

  lemma SameDeps(run: Run, run': Run, u: Unit)
    requires run'.units.Keys == run.units.Keys
    requires forall v :: v in run.units ==> (run'.units[v].state == Merged <==> run.units[v].state == Merged)
    ensures DepsMerged(run', u) <==> DepsMerged(run, u)
  {
  }

  /** The part of a state change before promotion. */
  lemma SetStateIs(run: Run, uid: Id, target: State, reason: string, a: Action)
    ensures var r := SetState(Tx(run, []), uid, target, a.actor, reason, a.now);
            && (r.Ok? <==> uid in run.units && Legal(run.units[uid].state, target)
                           && (target == Verifying ==> HandoffReady(run.units[uid])))
            && (r.Ok? ==>
                  var lead := Publish(Tx(run, []), uid, target, a.actor, reason, a.now);
                  r.value.run == if target == Merged then Promote(lead, Ids(lead.run), a.actor, a.now).run
                                 else lead.run)
  {
    hide Publish, Promote, Ids;
  }

  lemma PublishIs(tx: Tx, uid: Id, target: State, reason: string, a: Action)
    requires uid in tx.run.units
    ensures var run' := Publish(tx, uid, target, a.actor, reason, a.now).run;
            run' == tx.run.(units := tx.run.units[uid := MovedTo(tx.run.units[uid], target, reason, a)])
  {
  }

  lemma MergeFrees(run: Run, uid: Id, a: Action, u: Unit)
    requires uid in run.units
    ensures DepsMerged(run.(units := run.units[uid := MovedTo(run.units[uid], Merged, a.op.reason, a)]), u)
       <==> FreedBy(run, uid, u)
    requires a.op.Transition?
  {
    var run' := run.(units := run.units[uid := MovedTo(run.units[uid], Merged, a.op.reason, a)]);
    assert forall d :: d in run'.units <==> d in run.units;
    if FreedBy(run, uid, u) {
      forall d | d in u.dependsOn ensures d in run'.units && run'.units[d].state == Merged {}
    }
  }

  /** Promoting after the merge is the merge with the freed units readied. */
  lemma MergeReadies(run: Run, lead: Run, run': Run, a: Action)
    requires a.op.Transition? && a.op.target == Merged && a.op.uid in run.units
    requires lead == run.(units := run.units[a.op.uid := MovedTo(run.units[a.op.uid], Merged, a.op.reason, a)])
    requires run' == lead.(units := run'.units) && run'.units.Keys == lead.units.Keys
    requires forall v :: v in lead.units ==>
               var u := lead.units[v];
               run'.units[v] ==
                 if u.state == Pending && DepsMerged(lead, u) then MovedTo(u, Ready, "dependencies_merged", a) else u
    ensures Transitioned(run, run', a)
  {
    var uid := a.op.uid;
    hide DepsMerged, FreedBy;
    forall v | v in run.units && v != uid ensures DepsMerged(lead, run.units[v]) <==> FreedBy(run, uid, run.units[v]) {
      MergeFrees(run, uid, a, run.units[v]);
    }
  }

  lemma MergePerforms(run: Run, a: Action)
    requires a.op.Transition? && a.op.target == Merged && RunInv(run) && a.op.uid in run.units
    ensures var lead := Publish(Tx(run, []), a.op.uid, Merged, a.actor, a.op.reason, a.now);
            var run' := Promote(lead, Ids(lead.run), a.actor, a.now).run;
            Transitioned(run, run', a) && run'.plan == run.plan
  {
    var uid := a.op.uid;
    var lead := Publish(Tx(run, []), uid, Merged, a.actor, a.op.reason, a.now);
    PublishIs(Tx(run, []), uid, Merged, a.op.reason, a);
    PlanListsUnits(run);
    assert Ids(lead.run) == Ids(run);
    hide RunInv, Ids, Publish, Promote, DepsMerged, MovedTo, Distinct, Transitioned;
    PromoteReadies(lead, Ids(run), a);
    MergeReadies(run, lead.run, Promote(lead, Ids(run), a.actor, a.now).run, a);
  }

  lemma TransitionIs(run: Run, a: Action)
    requires a.op.Transition?
    ensures var r, s := Perform(run, a.op, a.actor, a.now),
                        SetState(Tx(run, []), a.op.uid, a.op.target, a.actor, a.op.reason, a.now);
            if a.op.target == Assigned then r.Err?
            else (r.Ok? <==> s.Ok?) && (r.Ok? ==> r.value == Reply(s.value, true))
  {
    hide SetState;
  }

  lemma TransitionPerforms(run: Run, a: Action)
    requires a.op.Transition? && RunInv(run) && HasLease(run, a)
    ensures var r := Perform(run, a.op, a.actor, a.now);
            if TransitionAllowed(run, a)
            then r.Ok? && Transitioned(run, r.value.tx.run, a) && r.value.tx.run.plan == run.plan else r.Err?
  {
    TransitionIs(run, a);
    SetStateIs(run, a.op.uid, a.op.target, a.op.reason, a);
    hide Perform, SetState, RunInv, Promote, Ids;
    if TransitionAllowed(run, a) {
      if a.op.target == Merged {
        hide Transitioned, Publish;
        MergePerforms(run, a);
      } else {
        PublishIs(Tx(run, []), a.op.uid, a.op.target, a.op.reason, a);
      }
    }
  }

  // ---- assignment ----

  /** The explicit tier, else the one of the last attempt, else the classified one. */
  function WantedTier(u: Unit, r: Routing): int {
    if r.tier.Some? then r.tier.value else if u.tier.Some? then u.tier.value else r.classification.chosen
  }

  predicate TierAllowed(r: Routing, tier: int) {
    r.classification.ok && 0 <= tier && r.classification.minimum <= tier <= r.classification.maximum
  }

  /** Attempts are counted per tier if the budget says so, else in all; a grant adds to either, but not to the cost. */
  predicate SpentOut(u: Unit, tier: nat) {
    var used := if tier in u.byTier then u.byTier[tier] else 0;
    || (u.budget.perTier.Some? && u.budget.perTier.value + u.grant <= used)
    || (u.budget.perTier.None? && u.budget.total.Some? && u.budget.total.value + u.grant <= u.attempts)
    || (u.budget.cost.Some? && u.budget.cost.value <= u.cost)
  }

  function Begun(u: Unit, worker: Id, tier: nat): Unit {
    var used := if tier in u.byTier then u.byTier[tier] else 0;
    u.(owner := Some(worker), tier := Some(tier), attempts := u.attempts + 1, byTier := u.byTier[tier := used + 1])
  }

  /** The attempt begins, unless the routing or the budget stops it and the unit goes to the user. */
  function Attempted(u: Unit, worker: Id, r: Routing, a: Action): Unit {
    var tier := WantedTier(u, r);
    if !TierAllowed(r, tier) then MovedTo(u, NeedsUser, "routing_invalid", a)
    else if SpentOut(u, tier) then MovedTo(u, NeedsUser, "budget_exhausted", a)
    else MovedTo(Begun(u, worker, tier), Assigned, "assigned", a)
  }

  lemma AssignWorkIs(tx: Tx, uid: Id, worker: Id, r: Routing, a: Action)
    requires uid in tx.run.units && tx.run.units[uid].state == Ready
    ensures var res := AssignWork(tx, uid, worker, r, a.actor, a.now);
            res.Ok? && res.value.tx.run ==
              tx.run.(units := tx.run.units[uid := Attempted(tx.run.units[uid], worker, r, a)])
  {
    var u := tx.run.units[uid];
    var v := Attempted(u, worker, r, a);
    assert ChooseTier(u, r) == if TierAllowed(r, WantedTier(u, r)) then Some(WantedTier(u, r)) else None;
    if ChooseTier(u, r).Some? {
      var tier := ChooseTier(u, r).value;
      assert Exhausted(u, tier) <==> SpentOut(u, tier);
      assert Started(u, worker, tier) == Begun(u, worker, tier);
      assert tx.run.units[uid := Begun(u, worker, tier)][uid := v] == tx.run.units[uid := v];
    }
  }

  /** No other active unit's scope overlaps. */
  ghost predicate Clear(run: Run, uid: Id)
    requires uid in run.units
  {
    forall o :: o in run.units && o != uid
                && run.units[o].state in {Assigned, Running, Verifying, Reviewing, QueuedForMerge} ==>
      !ScopesOverlap(run.units[uid].scope, run.units[o].scope)
  }

  ghost predicate AssignAllowed(run: Run, a: Action)
    requires a.op.Assign?
  {
    && HasLease(run, a) && a.op.uid in run.units && run.units[a.op.uid].state == Ready
    && (run.units[a.op.uid].owner.Some? ==> run.units[a.op.uid].owner.value == a.op.worker)
    && (a.op.guarded ==> Clear(run, a.op.uid))
  }

  ghost predicate Reassigns(run: Run, a: Action)
    requires a.op.Reassign?
  {
    && HasLease(run, a) && a.op.uid in run.units
    && run.units[a.op.uid].state in {Interrupted, Failed, NeedsUser, Ready, Blocked}
  }

  /** Only the unit is different, and nothing else of the document. */
  ghost predicate UnitBecame(run: Run, run': Run, uid: Id, u': Unit) {
    && Known(run, uid, run') && run'.units[uid] == u'
    && run'.lease == run.lease
  }

  /** The record of a unit handed to another worker, just before the attempt begins. */
  function HandedOver(u: Unit, worker: Id, hid: Id, a: Action): Unit {
    var detached := u.(handoffRef := Some(hid), process := None);
    (if u.state == Ready then detached else MovedTo(detached, Ready, "handoff:" + hid, a)).(owner := Some(worker))
  }

  ghost predicate WorkMoved(run: Run, run': Run, a: Action)
    requires a.op.Assign? || a.op.Reassign?
  {
    && a.op.uid in run.units
    && var u := run.units[a.op.uid];
       if a.op.Assign?
       then && UnitBecame(run, run', a.op.uid, Attempted(u, a.op.worker, a.op.routing, a))
            && run'.handoffs == run.handoffs
       else && UnitBecame(run, run', a.op.uid,
                          Attempted(HandedOver(u, a.op.worker, a.op.hid, a), a.op.worker, a.op.routing, a))
            && run'.handoffs == run.handoffs
                                + [Handoff(a.op.hid, Some(a.op.uid), u.owner, a.op.worker, a.op.reason)]
  }

  lemma AssignPerforms(run: Run, a: Action)
    requires a.op.Assign? && HasLease(run, a)
    ensures var r := Perform(run, a.op, a.actor, a.now);
            if AssignAllowed(run, a)
            then r.Ok? && WorkMoved(run, r.value.tx.run, a) && r.value.tx.run.plan == run.plan else r.Err?
  {
    hide AssignWork, Attempted, ScopesOverlap;
    if AssignAllowed(run, a) { AssignWorkIs(Tx(run, []), a.op.uid, a.op.worker, a.op.routing, a); }
  }

  lemma ReassignWorkIs(run: Run, a: Action)
    requires a.op.Reassign? && a.op.uid in run.units && Reassignable(run.units[a.op.uid].state)
    ensures var u := run.units[a.op.uid];
            var h := Handoff(a.op.hid, Some(a.op.uid), u.owner, a.op.worker, a.op.reason);
            var over := run.(handoffs := run.handoffs + [h],
                             units := run.units[a.op.uid := HandedOver(u, a.op.worker, a.op.hid, a)]);
            exists events :: ReassignWork(Tx(run, []), a.op.uid, a.op.worker, a.op.routing, a.op.reason, a.op.hid,
                                          a.actor, a.now)
                             == AssignWork(Tx(over, events), a.op.uid, a.op.worker, a.op.routing, a.actor, a.now)
  {
    var uid, u := a.op.uid, run.units[a.op.uid];
    var h := Handoff(a.op.hid, Some(uid), u.owner, a.op.worker, a.op.reason);
    var d := Detached(Tx(run, []), uid, h);
    var v := HandedOver(u, a.op.worker, a.op.hid, a);
    hide AssignWork;
    var t := if u.state == Ready then d else SetState(d, uid, Ready, a.actor, "handoff:" + a.op.hid, a.now).value;
    var over := Recorded(t, uid, a.op.worker, h);
    assert over.run.units == run.units[uid := v];
    assert over.run == run.(handoffs := run.handoffs + [h], units := run.units[uid := v]);
    assert over == Tx(over.run, over.events);
  }

  /** The reassignment is the assignment of the unit as it is handed over. */
  lemma ReassignIs(run: Run, a: Action) returns (over: Tx)
    requires a.op.Reassign? && Reassigns(run, a)
    ensures var u := run.units[a.op.uid];
            var h := Handoff(a.op.hid, Some(a.op.uid), u.owner, a.op.worker, a.op.reason);
            var v := HandedOver(u, a.op.worker, a.op.hid, a);
            && v.state == Ready
            && over.run == run.(handoffs := run.handoffs + [h], units := run.units[a.op.uid := v])
    ensures Perform(run, a.op, a.actor, a.now) ==
            AssignWork(over, a.op.uid, a.op.worker, a.op.routing, a.actor, a.now)
  {
    hide AssignWork, ReassignWork;
    var u := run.units[a.op.uid];
    var h := Handoff(a.op.hid, Some(a.op.uid), u.owner, a.op.worker, a.op.reason);
    var run' := run.(handoffs := run.handoffs + [h],
                     units := run.units[a.op.uid := HandedOver(u, a.op.worker, a.op.hid, a)]);
    ReassignWorkIs(run, a);
    var events :| ReassignWork(Tx(run, []), a.op.uid, a.op.worker, a.op.routing, a.op.reason, a.op.hid, a.actor, a.now)
                  == AssignWork(Tx(run', events), a.op.uid, a.op.worker, a.op.routing, a.actor, a.now);
    over := Tx(run', events);
  }

  lemma ReassignRefused(run: Run, a: Action)
    requires a.op.Reassign? && HasLease(run, a) && !Reassigns(run, a)
    ensures Perform(run, a.op, a.actor, a.now).Err?
  {
    hide ReassignWork;
  }

  lemma ReassignPerforms(run: Run, a: Action)
    requires a.op.Reassign? && HasLease(run, a)
    ensures var r := Perform(run, a.op, a.actor, a.now);
            if Reassigns(run, a)
            then r.Ok? && WorkMoved(run, r.value.tx.run, a) && r.value.tx.run.plan == run.plan else r.Err?
  {
    if Reassigns(run, a) {
      hide Perform, AssignWork, Attempted, HandedOver, HasLease;
      var over := ReassignIs(run, a);
      AssignWorkIs(over, a.op.uid, a.op.worker, a.op.routing, a);
    } else {
      ReassignRefused(run, a);
    }
  }

  // ---- records and surrender ----

  ghost predicate SurrenderAllowed(run: Run, a: Action)
    requires a.op.Surrender?
  {
    && a.op.uid in run.units && AtWork(run.units[a.op.uid]) && run.units[a.op.uid].process.Some?
    && run.units[a.op.uid].process.value.conductor == Some(a.actor)
  }

  ghost predicate RecordAllowed(run: Run, a: Action)
    requires IsRecording(a.op)
  {
    && HasLease(run, a) && a.op.uid in run.units
    && match a.op
       case RecordUsage(_, cost) => cost >= 0.0
       case Annotate(_, Other(key, _)) =>
         key in {"verification", "review", "merge", "conflicts", "notes", "escalation", "health", "last_failure",
                 "handoff_repair", "team", "skills_pass"}
       case _ => true
  }

  /** What the recorded fact makes of the unit; usage over the cost limit sends it to the user if it may go there. */
  function Noted(u: Unit, a: Action): Unit
    requires IsRecording(a.op)
  {
    match a.op
    case RecordProcess(_, process) => u.(process := Some(process))
    case RecordProcessExit(_) =>
      u.(process := Some(if u.process.Some? then u.process.value.(finished := true) else Process(None, true, false)))
    case RecordWorkspace(_, workspace) => u.(workspace := Some(workspace))
    case RecordHandoff(_, valid) => u.(note := Some(HandoffNote(u.attempts, valid)))
    case Annotate(_, BudgetGrant(n)) => u.(grant := if n > 0 then n else 0)
    case Annotate(_, Other(key, value)) => u.(annotations := u.annotations[key := value])
    case RecordUsage(_, cost) =>
      var charged := u.(cost := u.cost + cost);
      if u.budget.cost.Some? && charged.cost > u.budget.cost.value && NeedsUser in Transitions(u.state)
      then MovedTo(charged, NeedsUser, "budget_exhausted", a) else charged
  }

  ghost predicate FactNoted(run: Run, run': Run, a: Action)
    requires IsRecording(a.op) || a.op.Surrender?
  {
    && a.op.uid in run.units && run'.handoffs == run.handoffs
    && var u := run.units[a.op.uid];
       UnitBecame(run, run', a.op.uid,
                  if a.op.Surrender?
                  then MovedTo(
                    if u.process.Some? then u.(process := Some(u.process.value.(surrendered := true))) else u,
                    NeedsUser, a.op.reason, a)
                  else Noted(u, a))
  }

  lemma SurrenderPerforms(run: Run, a: Action)
    requires a.op.Surrender?
    ensures var r := Perform(run, a.op, a.actor, a.now);
            if SurrenderAllowed(run, a)
            then r.Ok? && FactNoted(run, r.value.tx.run, a) && r.value.tx.run.plan == run.plan else r.Err?
  {
  }

  lemma RecordIs(run: Run, a: Action)
    requires IsRecording(a.op)
    ensures Perform(run, a.op, a.actor, a.now) ==
            if a.op.uid in run.units then RecordOn(Tx(run, []), a.op, a.actor, a.now) else Err("unknown unit")
  {
    hide RecordOn;
  }

  lemma RecordOnIs(run: Run, a: Action)
    requires IsRecording(a.op) && a.op.uid in run.units && HasLease(run, a)
    ensures var r := RecordOn(Tx(run, []), a.op, a.actor, a.now);
            if RecordAllowed(run, a)
            then r.Ok? && r.value.tx.run == run.(units := run.units[a.op.uid := Noted(run.units[a.op.uid], a)])
            else r.Err?
  {
  }

  lemma RecordPerforms(run: Run, a: Action)
    requires IsRecording(a.op) && HasLease(run, a)
    ensures var r := Perform(run, a.op, a.actor, a.now);
            if RecordAllowed(run, a)
            then r.Ok? && FactNoted(run, r.value.tx.run, a) && r.value.tx.run.plan == run.plan else r.Err?
  {
    RecordIs(run, a);
    hide Perform, RecordOn, Noted, HasLease;
    if a.op.uid in run.units { RecordOnIs(run, a); }
  }

  // ---- every completed call ----

  ghost predicate Allowed(run: Run, a: Action)
    requires !a.op.Create? && !a.op.Replace?
  {
    if IsLeaseOp(a.op) then LeaseAllowed(run, a)
    else if a.op.Resume? then LeaseFree(run, a)
    else if a.op.Transition? then TransitionAllowed(run, a)
    else if a.op.Assign? then AssignAllowed(run, a)
    else if a.op.Reassign? then Reassigns(run, a)
    else if a.op.Surrender? then SurrenderAllowed(run, a)
    else RecordAllowed(run, a)
  }

  ghost predicate Outcome(run: Run, run': Run, a: Action)
    requires !a.op.Create? && !a.op.Replace?
  {
    if IsLeaseOp(a.op) then LeaseMoved(run, run', a)
    else if a.op.Resume? then Resumed(run, run', a)
    else if a.op.Transition? then Transitioned(run, run', a)
    else if a.op.Assign? || a.op.Reassign? then WorkMoved(run, run', a)
    else FactNoted(run, run', a)
  }

  lemma OpPerforms(run: Run, a: Action)
    requires !a.op.Create? && !a.op.Replace? && RunInv(run) && (LeaseExempt(a.op) || HasLease(run, a))
    ensures var r := Perform(run, a.op, a.actor, a.now);
            if Allowed(run, a) then r.Ok? && Outcome(run, r.value.tx.run, a) && r.value.tx.run.plan == run.plan
            else r.Err?
  {
    hide Perform, RunInv, HasLease;
    if IsLeaseOp(a.op) { LeasePerforms(run, a); }
    else if a.op.Resume? { ResumePerforms(run, a); }
    else if a.op.Transition? { TransitionPerforms(run, a); }
    else if a.op.Assign? { AssignPerforms(run, a); }
    else if a.op.Reassign? { ReassignPerforms(run, a); }
    else if a.op.Surrender? { SurrenderPerforms(run, a); }
    else { RecordPerforms(run, a); }
  }

  lemma LeaseNeeded(run: Run, a: Action)
    requires !a.op.Create? && !a.op.Replace? && !LeaseExempt(a.op) && !HasLease(run, a)
    ensures !Allowed(run, a)
  {
  }

  lemma SameOutcome(run: Run, r: Run, run': Run, a: Action)
    requires !a.op.Create? && !a.op.Replace? && Outcome(run, r, a) && SameDocument(r, run')
    ensures Outcome(run, run', a)
  {
  }

  /** A completed call that is allowed leaves exactly its outcome stored; any other changes nothing. */
  lemma CallOutcome(st: Store, a: Action) returns (run': Run)
    requires Completed(st, a)
    ensures Load(Exec(st, a)) == Loaded(run')
    ensures if Allowed(Before(st), a) then Outcome(Before(st), run', a) && run'.plan == Before(st).plan
            else Exec(st, a) == st
  {
    var run := Before(st);
    run' := CallLoads(st, a);
    if LeaseExempt(a.op) || HasLease(run, a) {
      OpPerforms(run, a);
      hide Perform, Exec, Load, Outcome, Allowed, HasLease, LeaseExempt;
      var r := Perform(run, a.op, a.actor, a.now);
      if r.Ok? { SameOutcome(run, r.value.tx.run, run', a); }
    } else {
      LeaseNeeded(run, a);
    }
  }

  /** When the reply says that all went well: work began, the handoff was valid, the cost stayed within its limit. */
  ghost predicate WentWell(run: Run, run': Run, a: Action) {
    match a.op
    case Assign(uid, _, _, _) => uid in run'.units && run'.units[uid].state == Assigned
    case Reassign(uid, _, _, _, _) => uid in run'.units && run'.units[uid].state == Assigned
    case RecordHandoff(_, valid) => valid
    case RecordUsage(uid, cost) =>
      && uid in run.units
      && (run.units[uid].budget.cost.Some? ==> run.units[uid].cost + cost <= run.units[uid].budget.cost.value)
    case _ => true
  }

  lemma AssignReply(tx: Tx, uid: Id, worker: Id, r: Routing, a: Action)
    requires uid in tx.run.units && tx.run.units[uid].state == Ready
    ensures var res := AssignWork(tx, uid, worker, r, a.actor, a.now);
            res.Ok? && (res.value.ok <==> Attempted(tx.run.units[uid], worker, r, a).state == Assigned)
  {
    var u := tx.run.units[uid];
    assert ChooseTier(u, r) == if TierAllowed(r, WantedTier(u, r)) then Some(WantedTier(u, r)) else None;
  }

  lemma ReassignReply(run: Run, a: Action)
    requires a.op.Reassign? && Reassigns(run, a)
    ensures var r := Perform(run, a.op, a.actor, a.now);
            && r.Ok? && a.op.uid in r.value.tx.run.units
            && (r.value.ok <==> r.value.tx.run.units[a.op.uid].state == Assigned)
  {
    hide Perform, AssignWork, Attempted, HandedOver, HasLease;
    var over := ReassignIs(run, a);
    AssignWorkIs(over, a.op.uid, a.op.worker, a.op.routing, a);
    AssignReply(over, a.op.uid, a.op.worker, a.op.routing, a);
  }

  lemma AssignOpReply(run: Run, a: Action)
    requires a.op.Assign? && AssignAllowed(run, a)
    ensures var r := Perform(run, a.op, a.actor, a.now);
            && r.Ok? && WorkMoved(run, r.value.tx.run, a)
            && (r.value.ok <==> r.value.tx.run.units[a.op.uid].state == Assigned)
  {
    AssignPerforms(run, a);
    hide AssignWork, Attempted, ScopesOverlap, Clear, ParallelSafe;
    AssignReply(Tx(run, []), a.op.uid, a.op.worker, a.op.routing, a);
  }

  /** The reply to an allowed call. */
  lemma ReplyOutcome(run: Run, a: Action)
    requires !a.op.Create? && !a.op.Replace? && RunInv(run) && Allowed(run, a)
    ensures var r := Perform(run, a.op, a.actor, a.now); r.Ok? && (r.value.ok <==> WentWell(run, r.value.tx.run, a))
  {
    OpPerforms(run, a);
    if a.op.Assign? {
      AssignOpReply(run, a);
    } else if a.op.Reassign? {
      ReassignReply(run, a);
    } else {
      OtherReply(run, a);
    }
  }

  lemma OtherReply(run: Run, a: Action)
    requires !a.op.Create? && !a.op.Replace? && !a.op.Assign? && !a.op.Reassign?
    ensures var r := Perform(run, a.op, a.actor, a.now); r.Ok? ==> (r.value.ok <==> WentWell(run, r.value.tx.run, a))
  {
    hide Sweep, TakeLease, Promote, Publish;
  }
}
