/** Every operation is a path of small legal steps, and its events replay to the state it saves. */
module RunSteps {
  import opened Wrappers
  import opened Ordering
  import opened UnitStates
  import opened RunRecords
  import opened Conflicts
  import opened RunSpec
  import Dag

  // ---- one event ----

  /** Which promises about callers a path of steps relies on. */
  datatype Discipline = Discipline(deps: bool, overlaps: bool, quiet: bool)

  ghost predicate SameStatics(u: Unit, u': Unit) {
    u'.dependsOn == u.dependsOn && u'.budget == u.budget && u'.scope == u.scope
  }

  /** A recorded fact: the state and the accounts stay; a new handoff note is for the current attempt. */
  ghost predicate TouchStep(kind: Kind, u: Unit, u': Unit) {
    && SameStatics(u, u')
    && u'.state == u.state && u'.history == u.history && u'.attempts == u.attempts && u'.byTier == u.byTier
    && (u'.note == u.note || (kind == UnitUpdated && u'.note.Some? && u'.note.value.attempt == u.attempts))
  }

  /** A move: one legal transition added to the history, charged when it starts an attempt. */
  ghost predicate MoveStep(u: Unit, u': Unit) {
    && SameStatics(u, u')
    && |u'.history| == |u.history| + 1 && u'.history[..|u.history|] == u.history
    && u'.history[|u.history|].from == u.state && u'.history[|u.history|].to == u'.state
    && Legal(u.state, u'.state)
    && u'.note == u.note && u'.grant == u.grant
    && (u'.state == Verifying ==> HandoffReady(u'))
    && if u'.state == Assigned
       then && u'.tier.Some? && !Exhausted(u, u'.tier.value)
            && u'.attempts == u.attempts + 1
            && u'.byTier == u.byTier[u'.tier.value := TierCount(u.byTier, u'.tier.value) + 1]
       else u'.attempts == u.attempts && u'.byTier == u.byTier
  }

  ghost predicate FreshDoc(run: Run) {
    Dag.PlanOk(Raw(run.plan)) && run.units == NewUnits(run.plan) && run.handoffs == []
  }

  ghost predicate StepOk(run: Run, p: Payload) {
    match p.kind
    case RunCreated => p.run.Some? && FreshDoc(p.run.value) && p == RunEvent(RunCreated, p.run.value)
    case RunReplanned => p.run.Some? && FreshDoc(p.run.value) && p == RunEvent(RunReplanned, p.run.value)
    case RunResumed => p == Payload(RunResumed, None, None, None, None)
    case StateChanged => UnitPayload(run, p) && p.handoff.None? && MoveStep(run.units[p.unit.value.0], p.unit.value.1)
    case UnitUpdated =>
      UnitPayload(run, p) && p.handoff.None? && TouchStep(p.kind, run.units[p.unit.value.0], p.unit.value.1)
    case HandoffRecorded => UnitPayload(run, p) && TouchStep(p.kind, run.units[p.unit.value.0], p.unit.value.1)
    case _ => p.lease.Some? && p.unit.None? && p.run.None?
  }

  ghost predicate UnitPayload(run: Run, p: Payload) {
    p.run.None? && p.lease.None? && p.unit.Some? && p.unit.value.0 in run.units
  }

  ghost predicate MoveKeeps(run: Run, uid: Id, u: Unit, u': Unit, d: Discipline)
    requires uid in run.units
  {
    && (d.deps && u.state == Pending && u'.state != Cancelled ==> DepsMerged(run, u))
    && (d.overlaps && !Active(u.state) && Active(u'.state) ==> ParallelSafe(run, uid))
    && (d.quiet ==> u'.state != Merged)
  }

  ghost predicate StepGood(run: Run, p: Payload, d: Discipline) {
    && StepOk(run, p)
    && (p.kind == StateChanged ==> MoveKeeps(run, p.unit.value.0, run.units[p.unit.value.0], p.unit.value.1, d))
  }

  // ---- paths ----

  ghost function ApplyAll(run: Run, ps: seq<Payload>): Run {
    if ps == [] then run else ApplyPayload(ApplyAll(run, ps[..|ps| - 1]), ps[|ps| - 1])
  }

  ghost predicate Steps(run: Run, ps: seq<Payload>, d: Discipline) {
    ps == [] || (Steps(run, ps[..|ps| - 1], d) && StepGood(ApplyAll(run, ps[..|ps| - 1]), ps[|ps| - 1], d))
  }

  /** The events of `tx` lead from `pre` to its working copy by good steps. */
  ghost predicate Tracks(pre: Run, tx: Tx, d: Discipline) {
    ApplyAll(pre, tx.events) == tx.run && Steps(pre, tx.events, d)
  }

  lemma TrackAppend(pre: Run, tx: Tx, p: Payload, d: Discipline)
    requires Tracks(pre, tx, d) && StepGood(tx.run, p, d)
    ensures Tracks(pre, Tx(ApplyPayload(tx.run, p), tx.events + [p]), d)
  {
    assert (tx.events + [p])[..|tx.events|] == tx.events;
  }

  lemma {:induction false} StepsPrefix(run: Run, ps: seq<Payload>, k: nat, d: Discipline)
    requires Steps(run, ps, d) && k <= |ps|
    ensures Steps(run, ps[..k], d)
  {
    if k < |ps| {
      assert ps[..|ps| - 1][..k] == ps[..k];
      StepsPrefix(run, ps[..|ps| - 1], k, d);
    } else {
      assert ps[..k] == ps;
    }
  }

  /** Publishing a unit record together with its event keeps the transaction on track. */
  lemma TrackUnit(pre: Run, tx: Tx, uid: Id, u': Unit, kind: Kind, d: Discipline)
    requires Tracks(pre, tx, d) && uid in tx.run.units
    requires StepGood(tx.run, UnitEvent(kind, uid, u'), d)
    ensures Tracks(pre, Tx(tx.run.(units := tx.run.units[uid := u']), tx.events + [UnitEvent(kind, uid, u')]), d)
  {
    TrackAppend(pre, tx, UnitEvent(kind, uid, u'), d);
  }

  // ---- what callers may ask ----

  /** The promises of the discipline, read off the call and the stored run. */
  ghost predicate Issued(run: Run, op: Op, d: Discipline) {
    && (d.deps && op.Transition? && op.uid in run.units && run.units[op.uid].state == Pending
        ==> op.target != Ready && op.target != Blocked)
    && (d.overlaps && op.Assign? ==> op.guarded)
    && (d.overlaps && op.Reassign? && op.uid in run.units ==> ParallelSafe(run, op.uid))
    && (d.overlaps && op.Transition? && op.target == Reviewing && op.uid in run.units ==>
          run.units[op.uid].state == NeedsUser ==> ParallelSafe(run, op.uid))
    && (d.quiet && op.Transition? ==> op.target != Merged)
  }

  ghost predicate FreshHandoff(run: Run, op: Op) {
    op.AcquireLease? || op.TransferLease? || op.Reassign? || op.Resume? ==> !HasHandoff(run.handoffs, op.hid)
  }

  // ---- the operations ----

  lemma PublishTracks(pre: Run, tx: Tx, uid: Id, edited: Unit, target: State, actor: Id, reason: string, now: real,
                      d: Discipline)
    requires Tracks(pre, tx, d) && uid in tx.run.units
    requires StepGood(tx.run, UnitEvent(StateChanged, uid, Moved(edited, target, actor, reason, now)), d)
    ensures Tracks(pre, Publish(Edit(tx, uid, edited), uid, target, actor, reason, now), d)
  {
    var u' := Moved(edited, target, actor, reason, now);
    TrackUnit(pre, tx, uid, u', StateChanged, d);
    var edit := Edit(tx, uid, edited);
    assert edit.run.units[uid := u'] == tx.run.units[uid := u'];
  }

  lemma {:induction false} PromoteTracks(pre: Run, tx: Tx, ids: seq<Id>, actor: Id, now: real, d: Discipline)
    requires Tracks(pre, tx, d)
    ensures Tracks(pre, Promote(tx, ids, actor, now), d)
    decreases |ids|
  {
    if ids != [] {
      var before := Promote(tx, ids[..|ids| - 1], actor, now);
      var uid := ids[|ids| - 1];
      PromoteTracks(pre, tx, ids[..|ids| - 1], actor, now, d);
      if uid in before.run.units && Promotable(before.run, before.run.units[uid]) {
        assert Edit(before, uid, before.run.units[uid]) == before by {
          assert before.run.units[uid := before.run.units[uid]] == before.run.units;
        }
        PublishTracks(pre, before, uid, before.run.units[uid], Ready, actor, "dependencies_merged", now, d);
      }
    }
  }

  /** `edited` differs from the stored record only in what the same event publishes. */
  lemma SetStateTracks(pre: Run, tx: Tx, uid: Id, edited: Unit, target: State, actor: Id, reason: string, now: real,
                       d: Discipline)
    requires Tracks(pre, tx, d) && uid in tx.run.units
    requires Legal(edited.state, target) && (target == Verifying ==> HandoffReady(edited)) ==>
               StepGood(tx.run, UnitEvent(StateChanged, uid, Moved(edited, target, actor, reason, now)), d)
    ensures var r := SetState(Edit(tx, uid, edited), uid, target, actor, reason, now);
            r.Ok? ==> Tracks(pre, r.value, d)
  {
    var r := SetState(Edit(tx, uid, edited), uid, target, actor, reason, now);
    if r.Ok? {
      PublishTracks(pre, tx, uid, edited, target, actor, reason, now, d);
      var t := Publish(Edit(tx, uid, edited), uid, target, actor, reason, now);
      if target == Merged { PromoteTracks(pre, t, Ids(t.run), actor, now, d); }
    }
  }

  lemma EditSame(tx: Tx, uid: Id)
    requires uid in tx.run.units
    ensures Edit(tx, uid, tx.run.units[uid]) == tx
  {
    assert tx.run.units[uid := tx.run.units[uid]] == tx.run.units;
  }

  /** A move away from `Ready` or of an active unit never needs a promise. */
  lemma AssignTracks(pre: Run, tx: Tx, uid: Id, worker: Id, r: Routing, actor: Id, now: real, d: Discipline)
    requires Tracks(pre, tx, d) && uid in tx.run.units && tx.run.units[uid].state == Ready
    requires d.overlaps ==> ParallelSafe(tx.run, uid)
    ensures var res := AssignWork(tx, uid, worker, r, actor, now); res.Ok? ==> Tracks(pre, res.value.tx, d)
  {
    var u := tx.run.units[uid];
    var tier := ChooseTier(u, r);
    EditSame(tx, uid);
    if tier.None? {
      SetStateTracks(pre, tx, uid, u, NeedsUser, actor, "routing_invalid", now, d);
    } else if Exhausted(u, tier.value) {
      SetStateTracks(pre, tx, uid, u, NeedsUser, actor, "budget_exhausted", now, d);
    } else {
      SetStateTracks(pre, tx, uid, Started(u, worker, tier.value), Assigned, actor, "assigned", now, d);
    }
  }

  lemma SweepOneTracks(pre: Run, tx: Tx, uid: Id, liveness: map<Id, Liveness>, actor: Id, now: real, d: Discipline)
    requires Tracks(pre, tx, d)
    ensures Tracks(pre, SweepOne(tx, uid, liveness, actor, now), d)
  {
    if uid in tx.run.units && InFlight(tx.run.units[uid].state) {
      EditSame(tx, uid);
      match UnitStatus(tx.run.units[uid], uid, liveness)
      case Alive =>
      case Unverified =>
        PublishTracks(pre, tx, uid, tx.run.units[uid], NeedsUser, actor, "liveness_unverified", now, d);
      case Dead => PublishTracks(pre, tx, uid, tx.run.units[uid], Interrupted, actor, "process_gone", now, d);
    }
  }

  lemma {:induction false} SweepTracks(pre: Run, tx: Tx, ids: seq<Id>, liveness: map<Id, Liveness>,
                                       actor: Id, now: real, d: Discipline)
    requires Tracks(pre, tx, d)
    ensures Tracks(pre, Sweep(tx, ids, liveness, actor, now), d)
    decreases |ids|
  {
    if ids != [] {
      SweepTracks(pre, tx, ids[..|ids| - 1], liveness, actor, now, d);
      SweepOneTracks(pre, Sweep(tx, ids[..|ids| - 1], liveness, actor, now), ids[|ids| - 1], liveness, actor, now, d);
    }
  }

  lemma TakeLeaseTracks(run: Run, actor: Id, ttl: real, now: real, hid: Id, reason: string, d: Discipline)
    requires !HasHandoff(run.handoffs, hid)
    ensures Tracks(run, TakeLease(Tx(run, []), actor, ttl, now, hid, reason), d)
  {
    var tx := TakeLease(Tx(run, []), actor, ttl, now, hid, reason);
    assert tx.events == [] + [tx.events[0]];
    TrackAppend(run, Tx(run, []), tx.events[0], d);
  }

  /** Replay moves the unit first and learns of the handoff record later; the end is the same. */
  lemma ReassignTracks(run: Run, op: Op, actor: Id, now: real, d: Discipline)
    requires op.Reassign? && op.uid in run.units && Reassignable(run.units[op.uid].state)
    requires Issued(run, op, d) && FreshHandoff(run, op)
    ensures var res := ReassignWork(Tx(run, []), op.uid, op.worker, op.routing, op.reason, op.hid, actor, now);
            res.Ok? ==> Tracks(run, res.value.tx, d)
  {
    var uid, u := op.uid, run.units[op.uid];
    var h := Handoff(op.hid, Some(uid), u.owner, op.worker, op.reason);
    var t, plain := Detached(Tx(run, []), uid, h), Tx(run, []);
    if u.state != Ready { t, plain := StoppedReadied(run, op, h, actor, now, d); }
    RecordedTracks(run, plain, t, op, h, d);
    AssignTracks(run, Recorded(t, uid, op.worker, h), uid, op.worker, op.routing, actor, now, d);
  }

  /** What readying a stopped unit gives (`t`) and what replay has by then (`plain`). */
  lemma StoppedReadied(run: Run, op: Op, h: Handoff, actor: Id, now: real, d: Discipline) returns (t: Tx, plain: Tx)
    requires op.Reassign? && op.uid in run.units && Reassignable(run.units[op.uid].state)
    requires run.units[op.uid].state != Ready && h.id == op.hid
    ensures SetState(Detached(Tx(run, []), op.uid, h), op.uid, Ready, actor, "handoff:" + op.hid, now) == Ok(t)
    ensures Tracks(run, plain, d) && t.events == plain.events
    ensures t.run == plain.run.(handoffs := run.handoffs + [h]) && plain.run.handoffs == run.handoffs
    ensures op.uid in t.run.units && t.run.units == run.units[op.uid := t.run.units[op.uid]]
    ensures t.run.units[op.uid].scope == run.units[op.uid].scope && t.run.units[op.uid].state == Ready
  {
    var uid, u := op.uid, run.units[op.uid];
    var moved := Moved(u.(handoffRef := Some(h.id), process := None), Ready, actor, "handoff:" + op.hid, now);
    var p := UnitEvent(StateChanged, uid, moved);
    TrackUnit(run, Tx(run, []), uid, moved, StateChanged, d);
    plain := Tx(run.(units := run.units[uid := moved]), [] + [p]);
    t := SetState(Detached(Tx(run, []), uid, h), uid, Ready, actor, "handoff:" + op.hid, now).value;
    assert t.run.units == plain.run.units;
  }

  lemma RecordedTracks(run: Run, plain: Tx, t: Tx, op: Op, h: Handoff, d: Discipline)
    requires op.Reassign? && op.uid in run.units && Issued(run, op, d) && h.id == op.hid
    requires Tracks(run, plain, d) && t.events == plain.events && op.uid in t.run.units
    requires plain.run.handoffs == run.handoffs && !HasHandoff(run.handoffs, op.hid)
    requires op.uid in plain.run.units && TouchStep(HandoffRecorded, plain.run.units[op.uid], t.run.units[op.uid])
    requires plain.run.units == run.units[op.uid := plain.run.units[op.uid]]
    requires t.run == plain.run.(units := plain.run.units[op.uid := t.run.units[op.uid]],
                                 handoffs := run.handoffs + [h])
    requires plain.run.units[op.uid].scope == run.units[op.uid].scope
    ensures Tracks(run, Recorded(t, op.uid, op.worker, h), d)
    ensures d.overlaps ==> ParallelSafe(Recorded(t, op.uid, op.worker, h).run, op.uid)
  {
    var r := Recorded(t, op.uid, op.worker, h);
    var p := r.events[|r.events| - 1];
    TrackAppend(run, plain, p, d);
    assert r.run.units == ApplyPayload(plain.run, p).units;
    assert r == Tx(ApplyPayload(plain.run, p), plain.events + [p]);
    if d.overlaps { ParallelSafeFrame(run, r.run, op.uid); }
  }

  lemma ParallelSafeFrame(run: Run, run': Run, uid: Id)
    requires uid in run.units && uid in run'.units && ParallelSafe(run, uid)
    requires run'.units.Keys == run.units.Keys && run'.units[uid].scope == run.units[uid].scope
    requires forall o :: o in run.units && o != uid ==> run'.units[o] == run.units[o]
    ensures ParallelSafe(run', uid)
  {
  }

  lemma UpdateTracks(run: Run, uid: Id, u': Unit, d: Discipline)
    requires uid in run.units && TouchStep(UnitUpdated, run.units[uid], u')
    ensures Tracks(run, Updated(Tx(run, []), uid, u'), d)
  {
    TrackUnit(run, Tx(run, []), uid, u', UnitUpdated, d);
    assert Updated(Tx(run, []), uid, u').events == [] + [UnitEvent(UnitUpdated, uid, u')];
  }

  lemma UsageTracks(run: Run, uid: Id, cost: real, actor: Id, now: real, d: Discipline)
    requires uid in run.units
    ensures var res := Spend(Tx(run, []), uid, cost, actor, now); res.Ok? ==> Tracks(run, res.value.tx, d)
  {
    CostIsTouch(run.units[uid], cost);
    ChargeTracks(run, uid, WithCost(run.units[uid], cost), actor, now, d);
  }

  lemma CostIsTouch(u: Unit, cost: real)
    ensures TouchStep(UnitUpdated, u, WithCost(u, cost))
  {
  }

  lemma ChargeTracks(run: Run, uid: Id, u': Unit, actor: Id, now: real, d: Discipline)
    requires uid in run.units && TouchStep(UnitUpdated, run.units[uid], u')
    ensures var res := CheckCost(Updated(Tx(run, []), uid, u'), uid, actor, now);
            res.Ok? ==> Tracks(run, res.value.tx, d)
  {
    UpdateTracks(run, uid, u', d);
    CheckCostTracks(run, Updated(Tx(run, []), uid, u'), uid, actor, now, d);
  }

  lemma CheckCostTracks(run: Run, tx: Tx, uid: Id, actor: Id, now: real, d: Discipline)
    requires Tracks(run, tx, d) && uid in tx.run.units
    ensures var r := CheckCost(tx, uid, actor, now); r.Ok? ==> Tracks(run, r.value.tx, d)
  {
    if Legal(tx.run.units[uid].state, NeedsUser) {
      EditSame(tx, uid);
      NeedsUserFromStarted(tx.run.units[uid].state);
      SetStateTracks(run, tx, uid, tx.run.units[uid], NeedsUser, actor, "budget_exhausted", now, d);
    }
  }

  lemma AnnotateTracks(run: Run, op: Op, actor: Id, now: real, d: Discipline)
    requires op.Annotate? && op.uid in run.units
    ensures var res := RecordOn(Tx(run, []), op, actor, now); res.Ok? ==> Tracks(run, res.value.tx, d)
  {
    var u := run.units[op.uid];
    match op
    case Annotate(uid, BudgetGrant(n)) => UpdateTracks(run, uid, u.(grant := if n < 0 then 0 else n), d);
    case Annotate(uid, Other(key, value)) =>
      UpdateTracks(run, uid, u.(annotations := u.annotations[key := value]), d);
  }

  lemma NoteTracks(run: Run, op: Op, actor: Id, now: real, d: Discipline)
    requires op.RecordProcess? || op.RecordProcessExit? || op.RecordWorkspace? || op.RecordHandoff?
    requires op.uid in run.units
    ensures var res := RecordOn(Tx(run, []), op, actor, now); res.Ok? ==> Tracks(run, res.value.tx, d)
  {
    var u := run.units[op.uid];
    match op
    case RecordProcess(uid, process) => UpdateTracks(run, uid, u.(process := Some(process)), d);
    case RecordProcessExit(uid) =>
      var p := if u.process.Some? then u.process.value else Process(None, false, false);
      UpdateTracks(run, uid, u.(process := Some(p.(finished := true))), d);
    case RecordWorkspace(uid, workspace) => UpdateTracks(run, uid, u.(workspace := Some(workspace)), d);
    case RecordHandoff(uid, valid) => UpdateTracks(run, uid, u.(note := Some(HandoffNote(u.attempts, valid))), d);
  }

  lemma RecordTracks(run: Run, op: Op, actor: Id, now: real, d: Discipline)
    requires IsRecording(op) && op.uid in run.units
    ensures var res := RecordOn(Tx(run, []), op, actor, now); res.Ok? ==> Tracks(run, res.value.tx, d)
  {
    if op.Annotate? {
      AnnotateTracks(run, op, actor, now, d);
    } else if op.RecordUsage? {
      UsageTracks(run, op.uid, op.cost, actor, now, d);
      assert RecordOn(Tx(run, []), op, actor, now) == Spend(Tx(run, []), op.uid, op.cost, actor, now);
    } else {
      NoteTracks(run, op, actor, now, d);
    }
  }

  lemma NeedsUserFromStarted(s: State)
    requires Legal(s, NeedsUser)
    ensures s != Pending
  {
  }

  /** Crash recovery, per operation: replaying the appended events gives exactly the saved state. */
  lemma PerformTracks(run: Run, op: Op, actor: Id, now: real, d: Discipline)
    requires Issued(run, op, d) && FreshHandoff(run, op)
    ensures var r := Perform(run, op, actor, now); r.Ok? ==> Tracks(run, r.value.tx, d)
  {
    var r := Perform(run, op, actor, now);
    if r.Ok? {
      if IsRecording(op) {
        RecordTracks(run, op, actor, now, d);
      } else if op.Transition? || op.Assign? || op.Reassign? || op.Surrender? {
        MoveTracks(run, op, actor, now, d);
      } else {
        LeaseOpTracks(run, op, actor, now, d);
      }
    }
  }

  lemma MoveTracks(run: Run, op: Op, actor: Id, now: real, d: Discipline)
    requires op.Transition? || op.Assign? || op.Reassign? || op.Surrender?
    requires Issued(run, op, d) && FreshHandoff(run, op)
    ensures var r := Perform(run, op, actor, now); r.Ok? ==> Tracks(run, r.value.tx, d)
  {
    hide AssignWork, ReassignWork;
    var tx := Tx(run, []);
    if Perform(run, op, actor, now).Ok? {
      match op
      case Transition(uid, target, reason) => TransitionTracks(run, op, actor, now, d);
      case Assign(uid, worker, routing, guarded) => AssignTracks(run, tx, uid, worker, routing, actor, now, d);
      case Reassign(_, _, _, _, _) => ReassignTracks(run, op, actor, now, d);
      case Surrender(uid, reason) =>
        var u := run.units[uid];
        SetStateTracks(run, tx, uid, u.(process := Some(u.process.value.(surrendered := true))), NeedsUser, actor,
                       reason, now, d);
    }
  }

  lemma ResumeTracks(run: Run, op: Op, actor: Id, now: real, d: Discipline)
    requires op.Resume? && FreshHandoff(run, op)
    ensures var r := Perform(run, op, actor, now); r.Ok? ==> Tracks(run, r.value.tx, d)
  {
    hide Tracks, TakeLease, Sweep;
    var taken := TakeLease(Tx(run, []), actor, op.ttl, now, op.hid, "resume");
    TakeLeaseTracks(run, actor, op.ttl, now, op.hid, "resume", d);
    SweepTracks(run, taken, Ids(run), op.liveness, actor, now, d);
    var swept := Sweep(taken, Ids(run), op.liveness, actor, now);
    TrackAppend(run, swept, Payload(RunResumed, None, None, None, None), d);
  }

  lemma LeaseOpTracks(run: Run, op: Op, actor: Id, now: real, d: Discipline)
    requires op.AcquireLease? || op.RenewLease? || op.ReleaseLease? || op.TransferLease? || op.Resume?
             || op.Create? || op.Replace?
    requires FreshHandoff(run, op)
    ensures var r := Perform(run, op, actor, now); r.Ok? ==> Tracks(run, r.value.tx, d)
  {
    if op.Resume? {
      ResumeTracks(run, op, actor, now, d);
    } else if op.AcquireLease? {
      TakeLeaseTracks(run, actor, op.ttl, now, op.hid, "lease_expired", d);
    } else if op.RenewLease? || op.ReleaseLease? || op.TransferLease? {
      LeaseTracks(run, Perform(run, op, actor, now).value.tx, d);
    }
  }

  lemma LeaseTracks(run: Run, tx: Tx, d: Discipline)
    requires |tx.events| == 1 && StepGood(run, tx.events[0], d) && tx.run == ApplyPayload(run, tx.events[0])
    ensures Tracks(run, tx, d)
  {
    assert tx.events == [] + [tx.events[0]];
    TrackAppend(run, Tx(run, []), tx.events[0], d);
  }

  lemma TransitionGood(run: Run, op: Op, actor: Id, now: real, d: Discipline)
    requires op.Transition? && Issued(run, op, d) && op.target != Assigned && op.uid in run.units
    requires Legal(run.units[op.uid].state, op.target)
    requires op.target == Verifying ==> HandoffReady(run.units[op.uid])
    ensures var u' := Moved(run.units[op.uid], op.target, actor, op.reason, now);
            StepGood(run, UnitEvent(StateChanged, op.uid, u'), d)
  {
    hide ParallelSafe, DepsMerged;
  }

  lemma TransitionTracks(run: Run, op: Op, actor: Id, now: real, d: Discipline)
    requires op.Transition? && Issued(run, op, d) && op.target != Assigned
    ensures var r := SetState(Tx(run, []), op.uid, op.target, actor, op.reason, now); r.Ok? ==> Tracks(run, r.value, d)
  {
    if op.uid in run.units {
      var u := run.units[op.uid];
      if Legal(u.state, op.target) && (op.target == Verifying ==> HandoffReady(u)) {
        TransitionGood(run, op, actor, now, d);
      }
      EditSame(Tx(run, []), op.uid);
      hide ParallelSafe, DepsMerged, Promote, StepGood, Issued, Moved, Legal, HandoffReady, SetState;
      SetStateTracks(run, Tx(run, []), op.uid, u, op.target, actor, op.reason, now, d);
    }
  }

  lemma FoundTracks(pre: Run, doc: Run, kind: Kind, actor: Id, now: real, d: Discipline)
    requires kind == RunCreated || kind == RunReplanned
    requires FreshDoc(doc)
    ensures Tracks(pre, Found(doc, kind, actor, now), d)
  {
    var tx := Tx(doc, [RunEvent(kind, doc)]);
    assert tx.events == [] + [RunEvent(kind, doc)];
    TrackAppend(pre, Tx(pre, []), RunEvent(kind, doc), d);
    PromoteTracks(pre, tx, Ids(doc), actor, now, d);
  }

  /** A handoff id that is already on file makes the replayed document differ from the saved one. */
  lemma StaleHandoffDiverges(run: Run, actor: Id, to: Id, ttl: real, now: real, hid: Id)
    ensures var r := Perform(run, TransferLease(to, ttl, hid), actor, now);
            r.Ok? && (ApplyAll(run, r.value.tx.events) == r.value.tx.run <==> !HasHandoff(run.handoffs, hid))
  {
    var tx := Perform(run, TransferLease(to, ttl, hid), actor, now).value.tx;
    assert tx.events[..0] == [];
    assert ApplyAll(run, tx.events) == ApplyPayload(run, tx.events[0]);
  }
}
