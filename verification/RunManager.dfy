/** The run manager itself: a stored snapshot and log, changed step by step (runs/manager.py, runs/store.py). */
module RunManager {
  import opened Wrappers
  import opened Ordering
  import opened UnitStates
  import opened RunRecords
  import opened Conflicts
  import opened RunSpec
  import Dag

  /** The working copy and event list that one closure edits in place. */
  class Transaction {
    var run: Run
    var events: seq<Payload>

    ghost function View(): Tx
      reads this
    {
      Tx(run, events)
    }

    constructor (run: Run, events: seq<Payload>)
      ensures View() == Tx(run, events)
    {
      this.run := run;
      this.events := events;
    }

    method SetUnitState(uid: Id, target: State, actor: Id, reason: string, now: real) returns (ok: bool)
      modifies this
      ensures match SetState(old(View()), uid, target, actor, reason, now)
              case Ok(tx) => ok && View() == tx
              case Err(_) => !ok && View() == old(View())
      decreases if target == Merged then 2 else 0
    {
      if uid !in run.units { return false; }
      var unit := run.units[uid];
      var current := unit.state;
      if !Legal(current, target) { return false; }
      if target == Verifying && !HandoffReady(unit) { return false; }
      unit := unit.(state := target, reason := reason);
      unit := unit.(history := unit.history + [Move(current, target, now, actor, unit.owner, reason)]);
      run := run.(units := run.units[uid := unit]);
      events := events + [UnitEvent(StateChanged, uid, unit)];
      if target == Merged { PromoteReady(actor, now); }
      return true;
    }

    method PromoteReady(actor: Id, now: real)
      modifies this
      ensures View() == Promote(old(View()), Ids(old(run)), actor, now)
      decreases 1
    {
      var ids := Ids(run);
      var i := 0;
      while i < |ids|
        invariant 0 <= i <= |ids|
        invariant View() == Promote(old(View()), ids[..i], actor, now)
      {
        assert ids[..i + 1][..i] == ids[..i];
        var uid := ids[i];
        if uid in run.units && run.units[uid].state == Pending && DepsMerged(run, run.units[uid]) {
          var _ := SetUnitState(uid, Ready, actor, "dependencies_merged", now);
        }
        i := i + 1;
      }
      assert ids[..i] == ids;
    }

    method Take(actor: Id, ttl: real, now: real, hid: Id, reason: string)
      modifies this
      ensures View() == TakeLease(old(View()), actor, ttl, now, hid, reason)
    {
      var previous := run.lease.conductor;
      run := run.(lease := LeaseOf(actor, ttl, now));
      var handoff: Option<Handoff> := None;
      if previous != "" && previous != actor {
        var h := Handoff(hid, None, Some(previous), actor, reason);
        run := run.(handoffs := run.handoffs + [h]);
        handoff := Some(h);
      }
      events := events + [LeaseEvent(LeaseAcquired, run.lease, handoff)];
    }

    /** The result is the reply's `ok`; a refused call changes nothing. */
    method AssignTo(uid: Id, worker: Id, r: Routing, actor: Id, now: real) returns (done: bool, ok: bool)
      requires uid in run.units
      modifies this
      ensures match AssignWork(old(View()), uid, worker, r, actor, now)
              case Ok(reply) => done && View() == reply.tx && ok == reply.ok
              case Err(_) => !done
    {
      var unit := run.units[uid];
      var tier := ChooseTier(unit, r);
      if tier.None? {
        done := SetUnitState(uid, NeedsUser, actor, "routing_invalid", now);
        return done, false;
      }
      if Exhausted(unit, tier.value) {
        done := SetUnitState(uid, NeedsUser, actor, "budget_exhausted", now);
        return done, false;
      }
      unit := unit.(attempts := unit.attempts + 1);
      unit := unit.(byTier := unit.byTier[tier.value := TierCount(unit.byTier, tier.value) + 1]);
      unit := unit.(owner := Some(worker), tier := tier);
      run := run.(units := run.units[uid := unit]);
      done := SetUnitState(uid, Assigned, actor, "assigned", now);
      return done, true;
    }

    method ReassignTo(uid: Id, worker: Id, r: Routing, reason: string, hid: Id, actor: Id, now: real)
      returns (done: bool, ok: bool)
      requires uid in run.units
      modifies this
      ensures match ReassignWork(old(View()), uid, worker, r, reason, hid, actor, now)
              case Ok(reply) => done && View() == reply.tx && ok == reply.ok
              case Err(_) => !done
    {
      var unit := run.units[uid];
      var previous := unit.state;
      var h := Handoff(hid, Some(uid), unit.owner, worker, reason);
      run := run.(handoffs := run.handoffs + [h]);
      unit := unit.(handoffRef := Some(hid), process := None);
      run := run.(units := run.units[uid := unit]);
      assert View() == Detached(old(View()), uid, h);
      if previous != Ready {
        var moved := SetUnitState(uid, Ready, actor, "handoff:" + hid, now);
        if !moved { return false, false; }
      }
      ghost var readied := View();
      unit := run.units[uid].(owner := Some(worker));
      run := run.(units := run.units[uid := unit]);
      events := events + [Payload(HandoffRecorded, None, Some((uid, unit)), None, Some(h))];
      assert View() == Recorded(readied, uid, worker, h);
      done, ok := AssignTo(uid, worker, r, actor, now);
    }

    method SweepUnit(uid: Id, liveness: map<Id, Liveness>, actor: Id, now: real)
      modifies this
      ensures View() == SweepOne(old(View()), uid, liveness, actor, now)
    {
      if uid in run.units && InFlight(run.units[uid].state) {
        var status := UnitStatus(run.units[uid], uid, liveness);
        if status == Unverified {
          var _ := SetUnitState(uid, NeedsUser, actor, "liveness_unverified", now);
        } else if status == Dead {
          var _ := SetUnitState(uid, Interrupted, actor, "process_gone", now);
        }
      }
    }

    method SweepInFlight(liveness: map<Id, Liveness>, actor: Id, now: real)
      modifies this
      ensures View() == Sweep(old(View()), Ids(old(run)), liveness, actor, now)
    {
      var ids := Ids(run);
      var i := 0;
      while i < |ids|
        invariant 0 <= i <= |ids|
        invariant View() == Sweep(old(View()), ids[..i], liveness, actor, now)
      {
        assert ids[..i + 1][..i] == ids[..i];
        SweepUnit(ids[i], liveness, actor, now);
        i := i + 1;
      }
      assert ids[..i] == ids;
    }

    method Update(uid: Id, unit: Unit)
      modifies this
      ensures View() == Updated(old(View()), uid, unit)
    {
      run := run.(units := run.units[uid := unit]);
      events := events + [UnitEvent(UnitUpdated, uid, unit)];
    }

    method Record(op: Op, actor: Id, now: real) returns (done: bool, ok: bool)
      requires IsRecording(op) && op.uid in run.units
      modifies this
      ensures match RecordOn(old(View()), op, actor, now)
              case Ok(reply) => done && View() == reply.tx && ok == reply.ok
              case Err(_) => !done
    {
      var uid, unit := op.uid, run.units[op.uid];
      match op {
        case RecordProcess(_, process) =>
          Update(uid, unit.(process := Some(process)));
          return true, true;
        case RecordProcessExit(_) =>
          var p := if unit.process.Some? then unit.process.value else Process(None, false, false);
          Update(uid, unit.(process := Some(p.(finished := true))));
          return true, true;
        case RecordWorkspace(_, workspace) =>
          Update(uid, unit.(workspace := Some(workspace)));
          return true, true;
        case RecordHandoff(_, valid) =>
          Update(uid, unit.(note := Some(HandoffNote(unit.attempts, valid))));
          return true, valid;
        case Annotate(_, BudgetGrant(n)) =>
          Update(uid, unit.(grant := if n < 0 then 0 else n));
          return true, true;
        case Annotate(_, Other(key, value)) =>
          if key !in ANNOTATION_KEYS { return false, false; }
          Update(uid, unit.(annotations := unit.annotations[key := value]));
          return true, true;
        case RecordUsage(_, cost) =>
          if cost < 0.0 { return false, false; }
          unit := unit.(cost := unit.cost + cost);
          Update(uid, unit);
          if !OverCost(unit) { return true, true; }
          if Legal(unit.state, NeedsUser) {
            var moved := SetUnitState(uid, NeedsUser, actor, "budget_exhausted", now);
            return moved, false;
          }
          return true, false;
      }
    }

    /** Moves and assignments of one unit. */
    method MoveUnit(op: Op, actor: Id, now: real) returns (done: bool, ok: bool)
      requires events == [] && (op.Transition? || op.Assign? || op.Reassign? || op.Surrender?)
      modifies this
      ensures match Perform(old(run), op, actor, now)
              case Ok(reply) => done && View() == reply.tx && ok == reply.ok
              case Err(_) => !done
    {
      if op.Transition? {
        if op.target == Assigned { return false, false; }
        done := SetUnitState(op.uid, op.target, actor, op.reason, now);
        return done, true;
      }
      if op.uid !in run.units { return false, false; }
      var unit := run.units[op.uid];
      if op.Assign? {
        if unit.state != Ready { return false, false; }
        if unit.owner.Some? && unit.owner.value != op.worker { return false, false; }
        if op.guarded && !ParallelSafe(run, op.uid) { return false, false; }
        done, ok := AssignTo(op.uid, op.worker, op.routing, actor, now);
      } else if op.Reassign? {
        if !Reassignable(unit.state) { return false, false; }
        done, ok := ReassignTo(op.uid, op.worker, op.routing, op.reason, op.hid, actor, now);
      } else {
        if unit.process.None? || unit.process.value.conductor != Some(actor) { return false, false; }
        if !InFlight(unit.state) { return false, false; }
        unit := unit.(process := Some(unit.process.value.(surrendered := true)));
        run := run.(units := run.units[op.uid := unit]);
        done := SetUnitState(op.uid, NeedsUser, actor, op.reason, now);
        return done, true;
      }
    }

    /** Lease operations, among them resume. */
    method MoveLease(op: Op, actor: Id, now: real) returns (done: bool)
      requires events == []
      requires op.AcquireLease? || op.RenewLease? || op.ReleaseLease? || op.TransferLease? || op.Resume?
      modifies this
      ensures match Perform(old(run), op, actor, now)
              case Ok(reply) => done && View() == reply.tx && reply.ok
              case Err(_) => !done
    {
      match op {
        case AcquireLease(ttl, hid) =>
          if LeaseBlocked(run, actor, now) { return false; }
          Take(actor, ttl, now, hid, "lease_expired");
        case RenewLease(ttl) =>
          run := run.(lease := LeaseOf(actor, ttl, now));
          events := events + [LeaseEvent(LeaseRenewed, run.lease, None)];
        case ReleaseLease =>
          run := run.(lease := run.lease.(expires := now));
          events := events + [LeaseEvent(LeaseReleased, run.lease, None)];
        case TransferLease(to, ttl, hid) =>
          run := run.(lease := LeaseOf(to, ttl, now));
          var h := Handoff(hid, None, Some(actor), to, "explicit_transfer");
          run := run.(handoffs := run.handoffs + [h]);
          events := events + [LeaseEvent(LeaseTransferred, run.lease, Some(h))];
        case Resume(ttl, hid, liveness) =>
          if LeaseBlocked(run, actor, now) { return false; }
          assert Ids(TakeLease(Tx(run, []), actor, ttl, now, hid, "resume").run) == Ids(run);
          Take(actor, ttl, now, hid, "resume");
          SweepInFlight(liveness, actor, now);
          events := events + [Payload(RunResumed, None, None, None, None)];
      }
      return true;
    }

    /** Runs the closure of one operation. */
    method Apply(op: Op, actor: Id, now: real) returns (done: bool, ok: bool)
      requires events == []
      modifies this
      ensures match Perform(old(run), op, actor, now)
              case Ok(reply) => done && View() == reply.tx && ok == reply.ok
              case Err(_) => !done
    {
      if op.Create? || op.Replace? { return false, false; }
      if op.Transition? || op.Assign? || op.Reassign? || op.Surrender? {
        done, ok := MoveUnit(op, actor, now);
      } else if IsRecording(op) {
        if op.uid !in run.units { return false, false; }
        done, ok := Record(op, actor, now);
      } else {
        done := MoveLease(op, actor, now);
        ok := true;
      }
    }
  }

  /** The log is what it was and the first `i` events, numbered on. */
  ghost predicate LogHas(log: seq<Event>, before: seq<Event>, base: nat, ps: seq<Payload>, i: nat) {
    i <= |ps| && log == before + Numbered(base, ps[..i]) && LastSeq(log) == base + i
  }

  /** One more appended event, numbered one past the last. */
  lemma LogHasMore(log: seq<Event>, before: seq<Event>, base: nat, ps: seq<Payload>, i: nat)
    requires i < |ps| && LogHas(log, before, base, ps, i)
    ensures LogHas(log + [Event(LastSeq(log) + 1, ps[i])], before, base, ps, i + 1)
  {
    var e := Event(base + i + 1, ps[i]);
    assert Numbered(base, ps[..i + 1]) == Numbered(base, ps[..i]) + [e];
    assert (log + [e])[..|log|] == log;
  }

  /** One run directory: `run.json` and `events.jsonl`, used under the per-run lock. */
  class Manager {
    var snapshot: Option<Run>
    var log: seq<Event>

    ghost function View(): Store
      reads this
    {
      Store(snapshot, log)
    }

    constructor ()
      ensures View() == Store(None, [])
    {
      snapshot := None;
      log := [];
    }

    method LoadUnlocked() returns (doc: Doc)
      ensures doc == Load(View())
    {
      var base := if snapshot.Some? then snapshot.value.lastSeq else 0;
      var events := After(log, base);
      doc := Saved(Store(snapshot, log));
      var i := 0;
      while i < |events|
        invariant 0 <= i <= |events|
        invariant doc == Fold(Saved(View()), events[..i])
      {
        assert events[..i + 1][..i] == events[..i];
        doc := ApplyEvent(doc, events[i]);
        i := i + 1;
      }
      assert events[..i] == events;
    }

    method AppendEvent(p: Payload)
      modifies this`log
      ensures log == old(log) + [Event(LastSeq(old(log)) + 1, p)]
    {
      log := log + [Event(LastSeq(log) + 1, p)];
    }

    /** Appends, then replaces the snapshot; a crash leaves only the first `stop` writes. */
    method CommitTx(tx: Transaction, stop: Option<nat>)
      modifies this
      ensures View() == Commit(old(View()), tx.View(), stop)
    {
      hide LastSeq;
      var ps := tx.events;
      var i := 0;
      var base := LastSeq(log);
      while i < |ps|
        invariant 0 <= i <= |ps| && (stop.Some? ==> i <= stop.value)
        invariant snapshot == old(snapshot)
        invariant LogHas(log, old(log), base, ps, i)
      {
        if stop == Some(i) {
          return;
        }
        LogHasMore(log, old(log), base, ps, i);
        AppendEvent(ps[i]);
        i := i + 1;
      }
      assert ps[..|ps|] == ps;
      if stop == Some(i) {
        return;
      }
      if |ps| > 0 {
        snapshot := Some(tx.run.(lastSeq := base + |ps|));
      }
    }

    /** The mutation core: load, check the lease, run the closure on a copy, append, save. */
    method Mutate(a: Action) returns (ok: bool)
      requires !a.op.Create? && !a.op.Replace?
      modifies this
      ensures View() == Exec(old(View()), a)
      ensures ok <==> Load(old(View())).Loaded?
                      && (LeaseExempt(a.op) || HoldsLease(Load(old(View())).run, a.actor, a.now))
                      && Perform(Load(old(View())).run, a.op, a.actor, a.now).Ok?
                      && Perform(Load(old(View())).run, a.op, a.actor, a.now).value.ok
    {
      var doc := LoadUnlocked();
      if !doc.Loaded? { return false; }
      if !LeaseExempt(a.op) && !HoldsLease(doc.run, a.actor, a.now) { return false; }
      var tx := new Transaction(doc.run, []);
      var done, replyOk := tx.Apply(a.op, a.actor, a.now);
      if !done { return false; }
      CommitTx(tx, a.stop);
      return replyOk;
    }

    /** Creates the run: the bare snapshot first, then the founding event, promotions and final snapshot. */
    method CreateRun(a: Action) returns (ok: bool)
      requires a.op.Create?
      modifies this
      ensures View() == Exec(old(View()), a)
      ensures ok <==> PlanAccepted(a.op) && old(View()) == Store(None, [])
    {
      hide Promote, Dag.PlanOk, FreshRun, LastSeq, Load;
      var analysis := Dag.AnalyzePlan(Raw(a.op.plan));
      if analysis.errors != [] || !a.op.valid { return false; }
      var doc := FreshRun(a.op.plan, a.actor, a.op.ttl, a.now);
      if snapshot.Some? || log != [] { return false; }
      if a.stop == Some(0) { return true; }
      snapshot := Some(doc);
      var tx := new Transaction(doc, [RunEvent(RunCreated, doc)]);
      tx.PromoteReady(a.actor, a.now);
      CommitTx(tx, if a.stop.Some? then Some(a.stop.value - 1) else None);
      return true;
    }

    /** Replaces the plan of a run that has not started. */
    method ReplaceRun(a: Action) returns (ok: bool)
      requires a.op.Replace?
      modifies this
      ensures View() == Exec(old(View()), a)
      ensures ok <==> PlanAccepted(a.op) && Load(old(View())).Loaded? && NoneStarted(Load(old(View())).run)
                      && !LeaseBlocked(Load(old(View())).run, a.actor, a.now)
    {
      var analysis := Dag.AnalyzePlan(Raw(a.op.plan));
      if analysis.errors != [] || !a.op.valid { return false; }
      var prior := LoadUnlocked();
      if !prior.Loaded? { return false; }
      if !NoneStarted(prior.run) || LeaseBlocked(prior.run, a.actor, a.now) { return false; }
      var doc := FreshRun(a.op.plan, a.actor, a.op.ttl, a.now)
        .(created := prior.run.created, replaced := prior.run.replaced + [prior.run.plan]);
      var tx := new Transaction(doc, [RunEvent(RunReplanned, doc)]);
      tx.PromoteReady(a.actor, a.now);
      CommitTx(tx, a.stop);
      return true;
    }
  }
}
