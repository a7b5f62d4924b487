/** Which events a completed call appends to the log (runs/manager.py). */
module RunLog {
  import opened Wrappers
  import opened Ordering
  import opened UnitStates
  import opened RunRecords
  import opened RunSpec
  import opened RunSteps
  import opened RunRecovery
  import opened RunHistory
  import opened RunOutcomes
  import opened RunLeases

  /** The payloads after the first `n` all report state changes, in the order of the units' ids. */
  ghost predicate MovesFrom(ps: seq<Payload>, n: nat) {
    && n <= |ps| && (forall i :: n <= i < |ps| ==> ps[i].kind == StateChanged && ps[i].unit.Some?)
    && forall i, j :: n <= i < j < |ps| ==> LexLe(ps[i].unit.value.0, ps[j].unit.value.0)
  }

  /** They report state changes of listed units. */
  ghost predicate MovesOf(ps: seq<Payload>, n: nat, ids: seq<Id>) {
    MovesFrom(ps, n) && forall i :: n <= i < |ps| ==> ps[i].unit.value.0 in ids
  }

  /** The payload at `i` is of this kind and about this unit. */
  ghost predicate Reports(ps: seq<Payload>, i: int, kind: Kind, uid: Id) {
    0 <= i < |ps| && ps[i].kind == kind && ps[i].unit.Some? && ps[i].unit.value.0 == uid
  }

  lemma OneMoreMove(ps: seq<Payload>, ps': seq<Payload>, n: nat, ids: seq<Id>)
    requires ids != [] && SortedBy(ids, LexLe) && MovesOf(ps, n, ids[..|ids| - 1])
    requires ps' == ps || (ps' != [] && ps' == ps + [ps'[|ps'| - 1]])
    requires ps' != ps ==> Reports(ps', |ps'| - 1, StateChanged, ids[|ids| - 1])
    ensures |ps| <= |ps'| && ps'[..|ps|] == ps && MovesOf(ps', n, ids)
  {
    if ps' == ps {
      assert ps[..|ps|] == ps;
    } else {
      forall i | n <= i < |ps| ensures LexLe(ps[i].unit.value.0, ids[|ids| - 1]) {
        var k :| 0 <= k < |ids| - 1 && ids[k] == ps[i].unit.value.0;
      }
    }
  }

  lemma {:induction false} PromoteLogs(tx: Tx, ids: seq<Id>, actor: Id, now: real)
    requires SortedBy(ids, LexLe)
    ensures var ps := Promote(tx, ids, actor, now).events;
            |tx.events| <= |ps| && ps[..|tx.events|] == tx.events && MovesOf(ps, |tx.events|, ids)
    decreases |ids|
  {
    if ids != [] {
      PromoteLogs(tx, ids[..|ids| - 1], actor, now);
      var b := Promote(tx, ids[..|ids| - 1], actor, now);
      var ps := Promote(tx, ids, actor, now).events;
      if ps != b.events {
        assert ps == b.events + [ps[|ps| - 1]];
      }
      hide MovesOf, Promote;
      OneMoreMove(b.events, ps, |tx.events|, ids);
      assert ps[..|tx.events|] == ps[..|b.events|][..|tx.events|];
    } else {
      assert tx.events[..|tx.events|] == tx.events;
    }
  }

  lemma {:induction false} SweepLogs(tx: Tx, ids: seq<Id>, liveness: map<Id, Liveness>, actor: Id, now: real)
    requires SortedBy(ids, LexLe)
    ensures var ps := Sweep(tx, ids, liveness, actor, now).events;
            |tx.events| <= |ps| && ps[..|tx.events|] == tx.events && MovesOf(ps, |tx.events|, ids)
    decreases |ids|
  {
    if ids != [] {
      SweepLogs(tx, ids[..|ids| - 1], liveness, actor, now);
      var b := Sweep(tx, ids[..|ids| - 1], liveness, actor, now);
      var ps := Sweep(tx, ids, liveness, actor, now).events;
      if ps != b.events {
        assert ps == b.events + [ps[|ps| - 1]];
      }
      hide MovesOf, Sweep;
      OneMoreMove(b.events, ps, |tx.events|, ids);
      assert ps[..|tx.events|] == ps[..|b.events|][..|tx.events|];
    } else {
      assert tx.events[..|tx.events|] == tx.events;
    }
  }

  /** What an accepted call reports: the kinds of its events and the unit they are about. */
  ghost predicate Logs(run: Run, a: Action, ps: seq<Payload>) {
    match a.op
    case AcquireLease(_, _) => |ps| == 1 && ps[0].kind == LeaseAcquired
    case RenewLease(_) => |ps| == 1 && ps[0].kind == LeaseRenewed
    case ReleaseLease => |ps| == 1 && ps[0].kind == LeaseReleased
    case TransferLease(_, _, _) => |ps| == 1 && ps[0].kind == LeaseTransferred
    case Resume(_, _, _) =>
      |ps| >= 2 && ps[0].kind == LeaseAcquired && ps[|ps| - 1].kind == RunResumed && MovesFrom(ps[..|ps| - 1], 1)
    case Transition(uid, target, _) =>
      Reports(ps, 0, StateChanged, uid) && MovesFrom(ps, 1) && (target != Merged ==> |ps| == 1)
    case Assign(uid, _, _, _) => |ps| == 1 && Reports(ps, 0, StateChanged, uid)
    case Reassign(uid, _, _, _, _) =>
      var first := if uid in run.units && run.units[uid].state == Ready then 0 else 1;
      && |ps| == first + 2 && (first == 1 ==> Reports(ps, 0, StateChanged, uid))
      && Reports(ps, first, HandoffRecorded, uid) && Reports(ps, first + 1, StateChanged, uid)
    case Surrender(uid, _) => |ps| == 1 && Reports(ps, 0, StateChanged, uid)
    case RecordUsage(uid, _) =>
      1 <= |ps| <= 2 && Reports(ps, 0, UnitUpdated, uid) && (|ps| == 2 ==> Reports(ps, 1, StateChanged, uid))
    case Create(_, _, _) => true
    case Replace(_, _, _) => true
    case _ => |ps| == 1 && Reports(ps, 0, UnitUpdated, a.op.uid)
  }

  lemma SetStateLogs(tx: Tx, uid: Id, target: State, reason: string, a: Action)
    requires SetState(tx, uid, target, a.actor, reason, a.now).Ok?
    ensures var ps, n := SetState(tx, uid, target, a.actor, reason, a.now).value.events, |tx.events|;
            && |ps| > n && ps[..n] == tx.events && Reports(ps, n, StateChanged, uid) && MovesFrom(ps, n + 1)
            && (target != Merged ==> |ps| == n + 1)
  {
    var led := Publish(tx, uid, target, a.actor, reason, a.now);
    assert led.events[..|tx.events|] == tx.events;
    if target == Merged {
      hide Promote;
      IdsSorted(led.run);
      PromoteLogs(led, Ids(led.run), a.actor, a.now);
      var ps := Promote(led, Ids(led.run), a.actor, a.now).events;
      assert ps[|tx.events|] == ps[..|led.events|][|tx.events|];
      assert ps[..|tx.events|] == ps[..|led.events|][..|tx.events|];
    }
  }

  lemma AssignWorkLogs(tx: Tx, uid: Id, worker: Id, r: Routing, a: Action)
    requires uid in tx.run.units && AssignWork(tx, uid, worker, r, a.actor, a.now).Ok?
    ensures var ps, n := AssignWork(tx, uid, worker, r, a.actor, a.now).value.tx.events, |tx.events|;
            |ps| == n + 1 && ps[..n] == tx.events && Reports(ps, n, StateChanged, uid)
  {
    hide SetState;
    var u := tx.run.units[uid];
    var tier := ChooseTier(u, r);
    if tier.None? {
      SetStateLogs(tx, uid, NeedsUser, "routing_invalid", a);
    } else if Exhausted(u, tier.value) {
      SetStateLogs(tx, uid, NeedsUser, "budget_exhausted", a);
    } else {
      SetStateLogs(Edit(tx, uid, Started(u, worker, tier.value)), uid, Assigned, "assigned", a);
    }
  }

  lemma RecordedLogs(t: Tx, uid: Id, worker: Id, h: Handoff)
    requires uid in t.run.units
    ensures var ps, n := Recorded(t, uid, worker, h).events, |t.events|;
            |ps| == n + 1 && ps[..n] == t.events && Reports(ps, n, HandoffRecorded, uid)
    ensures uid in Recorded(t, uid, worker, h).run.units
  {
  }

  /** The handoff and the attempt after it. */
  lemma HandedLogs(t: Tx, uid: Id, worker: Id, h: Handoff, r: Routing, a: Action)
    requires uid in t.run.units && AssignWork(Recorded(t, uid, worker, h), uid, worker, r, a.actor, a.now).Ok?
    ensures var over, n := Recorded(t, uid, worker, h), |t.events|;
            var ps := AssignWork(over, uid, worker, r, a.actor, a.now).value.tx.events;
            && |ps| == n + 2 && ps[..n] == t.events
            && Reports(ps, n, HandoffRecorded, uid) && Reports(ps, n + 1, StateChanged, uid)
  {
    RecordedLogs(t, uid, worker, h);
    hide AssignWork, Recorded;
    var over := Recorded(t, uid, worker, h);
    AssignWorkLogs(over, uid, worker, r, a);
    var ps := AssignWork(over, uid, worker, r, a.actor, a.now).value.tx.events;
    assert ps[|t.events|] == ps[..|over.events|][|t.events|];
    assert ps[..|t.events|] == ps[..|over.events|][..|t.events|];
  }

  lemma ReassignWorkLogs(run: Run, a: Action)
    requires a.op.Reassign? && a.op.uid in run.units
    requires ReassignWork(Tx(run, []), a.op.uid, a.op.worker, a.op.routing, a.op.reason, a.op.hid, a.actor, a.now).Ok?
    ensures Logs(run, a, ReassignWork(Tx(run, []), a.op.uid, a.op.worker, a.op.routing, a.op.reason, a.op.hid,
                                      a.actor, a.now).value.tx.events)
  {
    hide SetState, AssignWork, Recorded, Detached;
    var uid, u := a.op.uid, run.units[a.op.uid];
    var h := Handoff(a.op.hid, Some(uid), u.owner, a.op.worker, a.op.reason);
    var t := Detached(Tx(run, []), uid, h);
    DetachedLogs(run, uid, h);
    if u.state != Ready {
      t := SetState(t, uid, Ready, a.actor, "handoff:" + a.op.hid, a.now).value;
      ReadiedLogs(Detached(Tx(run, []), uid, h), uid, a);
    }
    RecordedLogs(t, uid, a.op.worker, h);
    HandedLogs(t, uid, a.op.worker, h, a.op.routing, a);
    var over := Recorded(t, uid, a.op.worker, h);
    var ps := AssignWork(over, uid, a.op.worker, a.op.routing, a.actor, a.now).value.tx.events;
    if u.state != Ready { assert ps[0] == ps[..1][0]; }
  }

  lemma DetachedLogs(run: Run, uid: Id, h: Handoff)
    requires uid in run.units
    ensures Detached(Tx(run, []), uid, h).events == [] && uid in Detached(Tx(run, []), uid, h).run.units
  {
  }

  lemma ReadiedLogs(t: Tx, uid: Id, a: Action)
    requires a.op.Reassign? && t.events == [] && uid in t.run.units
    requires SetState(t, uid, Ready, a.actor, "handoff:" + a.op.hid, a.now).Ok?
    ensures var t' := SetState(t, uid, Ready, a.actor, "handoff:" + a.op.hid, a.now).value;
            uid in t'.run.units && |t'.events| == 1 && Reports(t'.events, 0, StateChanged, uid)
  {
    SetStateLogs(t, uid, Ready, "handoff:" + a.op.hid, a);
  }

  lemma RecordLogs(run: Run, a: Action)
    requires IsRecording(a.op) && a.op.uid in run.units && RecordOn(Tx(run, []), a.op, a.actor, a.now).Ok?
    ensures Logs(run, a, RecordOn(Tx(run, []), a.op, a.actor, a.now).value.tx.events)
  {
    if a.op.RecordUsage? {
      var t := Updated(Tx(run, []), a.op.uid, WithCost(run.units[a.op.uid], a.op.cost));
      assert |t.events| == 1 && Reports(t.events, 0, UnitUpdated, a.op.uid);
      var u := t.run.units[a.op.uid];
      if OverCost(u) && Legal(u.state, NeedsUser) {
        SetStateLogs(t, a.op.uid, NeedsUser, "budget_exhausted", a);
        hide SetState;
        var ps := SetState(t, a.op.uid, NeedsUser, a.actor, "budget_exhausted", a.now).value.events;
        assert ps[0] == ps[..1][0];
      }
    }
  }

  lemma ResumeAppends(run: Run, a: Action)
    requires a.op.Resume? && Perform(run, a.op, a.actor, a.now).Ok?
    ensures var taken := TakeLease(Tx(run, []), a.actor, a.op.ttl, a.now, a.op.hid, "resume");
            Perform(run, a.op, a.actor, a.now).value.tx.events ==
              Sweep(taken, Ids(run), a.op.liveness, a.actor, a.now).events
              + [Payload(RunResumed, None, None, None, None)]
  {
    hide TakeLease, Sweep, Ids;
  }

  lemma IdsSorted(run: Run)
    ensures SortedBy(Ids(run), LexLe)
  {
    SortIdsSorted(PlanIds(run.plan));
  }

  lemma ResumeLogs(run: Run, a: Action)
    requires a.op.Resume? && Perform(run, a.op, a.actor, a.now).Ok?
    ensures Logs(run, a, Perform(run, a.op, a.actor, a.now).value.tx.events)
  {
    hide Perform, Sweep, TakeLease, Ids, LeaseFree;
    ResumeAppends(run, a);
    var taken := TakeLease(Tx(run, []), a.actor, a.op.ttl, a.now, a.op.hid, "resume");
    TakenLogs(run, a);
    IdsSorted(run);
    SweepLogs(taken, Ids(run), a.op.liveness, a.actor, a.now);
    var swept := Sweep(taken, Ids(run), a.op.liveness, a.actor, a.now);
    var ps := Perform(run, a.op, a.actor, a.now).value.tx.events;
    assert swept.events[0] == swept.events[..1][0];
    assert ps[..|ps| - 1] == swept.events;
  }

  lemma TakenLogs(run: Run, a: Action)
    requires a.op.Resume?
    ensures var ps := TakeLease(Tx(run, []), a.actor, a.op.ttl, a.now, a.op.hid, "resume").events;
            |ps| == 1 && ps[0].kind == LeaseAcquired
  {
  }

  lemma PerformLogs(run: Run, a: Action)
    requires !a.op.Create? && !a.op.Replace? && Perform(run, a.op, a.actor, a.now).Ok?
    ensures Logs(run, a, Perform(run, a.op, a.actor, a.now).value.tx.events)
  {
    hide SetState, AssignWork, ReassignWork, RecordOn, Sweep;
    if a.op.Resume? {
      ResumeLogs(run, a);
    } else if a.op.Transition? {
      SetStateLogs(Tx(run, []), a.op.uid, a.op.target, a.op.reason, a);
    } else if a.op.Assign? {
      AssignWorkLogs(Tx(run, []), a.op.uid, a.op.worker, a.op.routing, a);
    } else if a.op.Reassign? {
      ReassignWorkLogs(run, a);
    } else if a.op.Surrender? {
      var u := run.units[a.op.uid];
      var t := Edit(Tx(run, []), a.op.uid, u.(process := Some(u.process.value.(surrendered := true))));
      SetStateLogs(t, a.op.uid, NeedsUser, a.op.reason, a);
    } else if IsRecording(a.op) {
      RecordLogs(run, a);
    }
  }

  lemma AllowedPerforms(st: Store, a: Action)
    requires Completed(st, a)
    ensures var run := Before(st);
            (LeaseExempt(a.op) || HasLease(run, a)) && Perform(run, a.op, a.actor, a.now).Ok? <==> Allowed(run, a)
  {
    var run := Before(st);
    if LeaseExempt(a.op) || HasLease(run, a) {
      OpPerforms(run, a);
    } else {
      LeaseNeeded(run, a);
    }
  }

  lemma CommitAppends(st: Store, tx: Tx) returns (ps: seq<Payload>)
    requires WellNumbered(st.log)
    ensures ps == tx.events
    ensures Commit(st, tx, None).log == st.log + seq(|ps|, i requires 0 <= i < |ps| => Event(|st.log| + i + 1, ps[i]))
  {
    WellNumberedLast(st.log);
    ps := tx.events;
    assert ps[..|ps|] == ps;
  }

  /** A completed call appends, numbered on, exactly the events its operation reports; a refused one appends nothing. */
  lemma LogOutcome(st: Store, a: Action) returns (ps: seq<Payload>)
    requires Completed(st, a)
    ensures Exec(st, a).log == st.log + seq(|ps|, i requires 0 <= i < |ps| => Event(|st.log| + i + 1, ps[i]))
    ensures if Allowed(Before(st), a) then Logs(Before(st), a, ps) else ps == []
  {
    var run := Before(st);
    var r := Perform(run, a.op, a.actor, a.now);
    CallIs(st, a);
    AllowedPerforms(st, a);
    hide Perform, Exec, Allowed, Logs, Good, Sound, Load, LeaseExempt, HasLease, Commit;
    if (LeaseExempt(a.op) || HasLease(run, a)) && r.Ok? {
      PerformLogs(run, a);
      ps := CommitAppends(st, r.value.tx);
    } else {
      ps := [];
    }
  }

  lemma FoundLogs(doc: Run, kind: Kind, a: Action)
    ensures var ps := Found(doc, kind, a.actor, a.now).events;
            |ps| >= 1 && ps[0].kind == kind && ps[0].run == Some(doc) && MovesFrom(ps, 1)
  {
    hide Promote, Ids;
    var tx := Tx(doc, [RunEvent(kind, doc)]);
    IdsSorted(doc);
    PromoteLogs(tx, Ids(doc), a.actor, a.now);
    var ps := Found(doc, kind, a.actor, a.now).events;
    assert ps[0] == ps[..1][0];
  }

  /** The new document and the store the founding is committed to. */
  lemma FoundingIs(st: Store, a: Action) returns (doc: Run, base: Store)
    requires Good(st, ANY) && a.stop == None && (a.op.Create? || (a.op.Replace? && st != EMPTY))
    requires if a.op.Create? then st == EMPTY && PlanAccepted(a.op) else ReplaceAllowed(Load(st).run, a)
    ensures doc.plan == a.op.plan && doc.lease == Lease(a.actor, a.now + a.op.ttl)
    ensures base.log == st.log && WellNumbered(st.log)
    ensures var kind := if a.op.Create? then RunCreated else RunReplanned;
            Exec(st, a) == Commit(base, Found(doc, kind, a.actor, a.now), None)
  {
    hide Commit, Found, PlanAccepted, ReplaceAllowed, Exec, Load;
    if a.op.Create? {
      CreateIs(st, a);
      doc := FreshRun(a.op.plan, a.actor, a.op.ttl, a.now);
      base := Store(Some(doc), []);
    } else {
      ReplaceIs(st, a);
      doc, base := ReplacedRun(Load(st).run, a), st;
    }
  }

  /** A completed founding appends one founding event with the whole new document, then the roots' moves. */
  lemma FoundingLog(st: Store, a: Action) returns (ps: seq<Payload>)
    requires Good(st, ANY) && a.stop == None && (a.op.Create? || (a.op.Replace? && st != EMPTY))
    requires if a.op.Create? then st == EMPTY && PlanAccepted(a.op) else ReplaceAllowed(Load(st).run, a)
    ensures Exec(st, a).log == st.log + seq(|ps|, i requires 0 <= i < |ps| => Event(|st.log| + i + 1, ps[i]))
    ensures |ps| >= 1 && ps[0].kind == (if a.op.Create? then RunCreated else RunReplanned) && MovesFrom(ps, 1)
    ensures ps[0].run.Some? && ps[0].run.value.plan == a.op.plan
    ensures ps[0].run.value.lease == Lease(a.actor, a.now + a.op.ttl)
  {
    var kind := if a.op.Create? then RunCreated else RunReplanned;
    var doc, base := FoundingIs(st, a);
    FoundLogs(doc, kind, a);
    hide Found, Exec, Good, Load, PlanAccepted, ReplaceAllowed, Commit;
    ps := CommitAppends(base, Found(doc, kind, a.actor, a.now));
  }
}
