/** What each manager operation does to a run document and which events it appends (runs/manager.py). */
module RunSpec {
  import opened Wrappers
  import opened Ordering
  import opened UnitStates
  import opened RunRecords
  import opened Conflicts
  import Dag

  /** A transaction under construction: the working copy and the events to append. */
  datatype Tx = Tx(run: Run, events: seq<Payload>)

  datatype Reply = Reply(tx: Tx, ok: bool)

  datatype Classification = Classification(ok: bool, minimum: int, maximum: int, chosen: int)

  /** The caller's runner choice: the current classification and an optional explicit tier. */
  datatype Routing = Routing(classification: Classification, tier: Option<int>)

  datatype Liveness = Alive | Dead | Unverified

  datatype Annotation = BudgetGrant(attempts: int) | Other(key: string, value: string)

  datatype Op =
    | Create(plan: seq<PlanUnit>, ttl: real, valid: bool)
    | Replace(plan: seq<PlanUnit>, ttl: real, valid: bool)
    | AcquireLease(ttl: real, hid: Id)
    | RenewLease(ttl: real)
    | ReleaseLease
    | TransferLease(to: Id, ttl: real, hid: Id)
    | Transition(uid: Id, target: State, reason: string)
    | Assign(uid: Id, worker: Id, routing: Routing, guarded: bool)
    | Reassign(uid: Id, worker: Id, routing: Routing, reason: string, hid: Id)
    | RecordProcess(uid: Id, process: Process)
    | RecordProcessExit(uid: Id)
    | RecordWorkspace(uid: Id, workspace: string)
    | RecordHandoff(uid: Id, valid: bool)
    | Annotate(uid: Id, annotation: Annotation)
    | RecordUsage(uid: Id, cost: real)
    | Surrender(uid: Id, reason: string)
    | Resume(ttl: real, hid: Id, liveness: map<Id, Liveness>)

  /** One call: who, when, and, if the process dies, after how many durable writes. */
  datatype Action = Action(op: Op, actor: Id, now: real, stop: Option<nat>)

  // ---- leases ----

  predicate HoldsLease(run: Run, actor: Id, now: real) {
    run.lease.conductor == actor && run.lease.expires > now
  }

  /** Another conductor holds an unexpired lease. */
  predicate LeaseBlocked(run: Run, actor: Id, now: real) {
    run.lease.conductor != "" && run.lease.conductor != actor && run.lease.expires > now
  }

  function LeaseOf(actor: Id, ttl: real, now: real): Lease {
    Lease(actor, now + ttl)
  }

  /** Takes the lease, recording a conductor handoff when it changes hands. */
  function TakeLease(tx: Tx, actor: Id, ttl: real, now: real, hid: Id, reason: string): Tx {
    var previous := tx.run.lease.conductor;
    var lease := LeaseOf(actor, ttl, now);
    var run := tx.run.(lease := lease);
    if previous != "" && previous != actor then
      var h := Handoff(hid, None, Some(previous), actor, reason);
      Tx(run.(handoffs := run.handoffs + [h]), tx.events + [LeaseEvent(LeaseAcquired, lease, Some(h))])
    else
      Tx(run, tx.events + [LeaseEvent(LeaseAcquired, lease, None)])
  }

  // ---- unit moves ----

  function Edit(tx: Tx, uid: Id, u: Unit): Tx {
    tx.(run := tx.run.(units := tx.run.units[uid := u]))
  }

  function Touch(tx: Tx, uid: Id, kind: Kind): Tx
    requires uid in tx.run.units
  {
    tx.(events := tx.events + [UnitEvent(kind, uid, tx.run.units[uid])])
  }

  function Moved(u: Unit, target: State, actor: Id, reason: string, now: real): Unit {
    u.(state := target, reason := reason,
       history := u.history + [Move(u.state, target, now, actor, u.owner, reason)])
  }

  /** The part of `_set_state` after its checks and before promotion. */
  function Publish(tx: Tx, uid: Id, target: State, actor: Id, reason: string, now: real): Tx
    requires uid in tx.run.units
  {
    Touch(Edit(tx, uid, Moved(tx.run.units[uid], target, actor, reason, now)), uid, StateChanged)
  }

  predicate HandoffReady(u: Unit) {
    u.note.Some? && u.note.value.valid && u.note.value.attempt == u.attempts
  }

  predicate DepsMerged(run: Run, u: Unit) {
    forall i :: 0 <= i < |u.dependsOn| ==>
                  u.dependsOn[i] in run.units && run.units[u.dependsOn[i]].state == Merged
  }

  function SetState(tx: Tx, uid: Id, target: State, actor: Id, reason: string, now: real): Result<Tx> {
    if uid !in tx.run.units then Err("unknown unit")
    else
      var u := tx.run.units[uid];
      if !Legal(u.state, target) then Err("illegal transition")
      else if target == Verifying && !HandoffReady(u) then Err("no valid handoff")
      else
        var tx' := Publish(tx, uid, target, actor, reason, now);
        Ok(if target == Merged then Promote(tx', Ids(tx'.run), actor, now) else tx')
  }

  function Ids(run: Run): seq<Id> {
    SortIds(PlanIds(run.plan))
  }

  predicate Promotable(run: Run, u: Unit) {
    u.state == Pending && DepsMerged(run, u)
  }

  /** Promotes, in order, every listed pending unit whose dependencies are merged. */
  function Promote(tx: Tx, ids: seq<Id>, actor: Id, now: real): Tx
    decreases |ids|
  {
    if ids == [] then tx
    else
      var before := Promote(tx, ids[..|ids| - 1], actor, now);
      var uid := ids[|ids| - 1];
      if uid in before.run.units && Promotable(before.run, before.run.units[uid])
      then Publish(before, uid, Ready, actor, "dependencies_merged", now)
      else before
  }

  // ---- assignment ----

  /** An explicit tier, else the previous attempt's, else the classified one; it must be within the limits. */
  function ChooseTier(u: Unit, r: Routing): Option<nat> {
    var tier := if r.tier.Some? then r.tier.value
                else if u.tier.Some? then u.tier.value else r.classification.chosen;
    if r.classification.ok && 0 <= tier && r.classification.minimum <= tier <= r.classification.maximum
    then Some(tier) else None
  }

  function TierCount(byTier: map<nat, nat>, tier: nat): nat {
    if tier in byTier then byTier[tier] else 0
  }

  predicate Exhausted(u: Unit, tier: nat) {
    || (u.budget.perTier.Some? && TierCount(u.byTier, tier) >= u.budget.perTier.value + u.grant)
    || (u.budget.perTier.None? && u.budget.total.Some? && u.attempts >= u.budget.total.value + u.grant)
    || (u.budget.cost.Some? && u.cost >= u.budget.cost.value)
  }

  function Started(u: Unit, worker: Id, tier: nat): Unit {
    u.(attempts := u.attempts + 1, byTier := u.byTier[tier := TierCount(u.byTier, tier) + 1],
       owner := Some(worker), tier := Some(tier))
  }

  function AssignWork(tx: Tx, uid: Id, worker: Id, r: Routing, actor: Id, now: real): Result<Reply>
    requires uid in tx.run.units
  {
    var u := tx.run.units[uid];
    var tier := ChooseTier(u, r);
    if tier.None? then Refused(SetState(tx, uid, NeedsUser, actor, "routing_invalid", now))
    else if Exhausted(u, tier.value) then Refused(SetState(tx, uid, NeedsUser, actor, "budget_exhausted", now))
    else Accepted(SetState(Edit(tx, uid, Started(u, worker, tier.value)), uid, Assigned, actor, "assigned", now))
  }

  function Refused(r: Result<Tx>): Result<Reply> {
    match r case Ok(tx) => Ok(Reply(tx, false)) case Err(e) => Err(e)
  }

  function Accepted(r: Result<Tx>): Result<Reply> {
    match r case Ok(tx) => Ok(Reply(tx, true)) case Err(e) => Err(e)
  }

  /** The dispatcher's re-check: no other active unit's scope overlaps. */
  predicate ParallelSafe(run: Run, uid: Id)
    requires uid in run.units
  {
    forall o :: o in run.units && o != uid && Active(run.units[o].state) ==>
                  !ScopesOverlap(run.units[uid].scope, run.units[o].scope)
  }

  predicate Reassignable(s: State) {
    s == Interrupted || s == Failed || s == NeedsUser || s == Ready || s == Blocked
  }

  /** Files the handoff record and detaches the old worker. */
  function Detached(tx: Tx, uid: Id, h: Handoff): Tx
    requires uid in tx.run.units
  {
    Edit(tx.(run := tx.run.(handoffs := tx.run.handoffs + [h])), uid,
         tx.run.units[uid].(handoffRef := Some(h.id), process := None))
  }

  /** Makes the new worker the owner and publishes the handoff. */
  function Recorded(tx: Tx, uid: Id, worker: Id, h: Handoff): Tx
    requires uid in tx.run.units
  {
    var u := tx.run.units[uid].(owner := Some(worker));
    Edit(tx, uid, u).(events := tx.events + [Payload(HandoffRecorded, None, Some((uid, u)), None, Some(h))])
  }

  function ReassignWork(tx: Tx, uid: Id, worker: Id, r: Routing, reason: string, hid: Id, actor: Id, now: real)
    : Result<Reply>
    requires uid in tx.run.units
  {
    var u := tx.run.units[uid];
    var h := Handoff(hid, Some(uid), u.owner, worker, reason);
    var readied := if u.state == Ready then Ok(Detached(tx, uid, h))
                   else SetState(Detached(tx, uid, h), uid, Ready, actor, "handoff:" + hid, now);
    match readied
    case Err(e) => Err(e)
    case Ok(t) => AssignWork(Recorded(t, uid, worker, h), uid, worker, r, actor, now)
  }

  // ---- resume ----

  function UnitStatus(u: Unit, uid: Id, liveness: map<Id, Liveness>): Liveness {
    if u.process.None? || u.process.value.finished then Dead
    else if uid in liveness then liveness[uid] else Dead
  }

  /** Looks at one unit if it is in flight. */
  function SweepOne(tx: Tx, uid: Id, liveness: map<Id, Liveness>, actor: Id, now: real): Tx {
    if uid !in tx.run.units || !InFlight(tx.run.units[uid].state) then tx
    else
      match UnitStatus(tx.run.units[uid], uid, liveness)
      case Alive => tx
      case Unverified => Publish(tx, uid, NeedsUser, actor, "liveness_unverified", now)
      case Dead => Publish(tx, uid, Interrupted, actor, "process_gone", now)
  }

  /** Looks, in order, at every listed unit. */
  function Sweep(tx: Tx, ids: seq<Id>, liveness: map<Id, Liveness>, actor: Id, now: real): Tx
    decreases |ids|
  {
    if ids == [] then tx
    else SweepOne(Sweep(tx, ids[..|ids| - 1], liveness, actor, now), ids[|ids| - 1], liveness, actor, now)
  }

  /** The allowed keys besides `budget_grant`, which is an annotation of its own here. */
  const ANNOTATION_KEYS: set<string> :=
    {"verification", "review", "merge", "conflicts", "notes", "escalation", "health",
     "last_failure", "handoff_repair", "team", "skills_pass"}

  predicate OverCost(u: Unit) {
    u.budget.cost.Some? && u.cost > u.budget.cost.value
  }

  // ---- the closures passed to the mutation core ----

  function Perform(run: Run, op: Op, actor: Id, now: real): Result<Reply> {
    var tx := Tx(run, []);
    match op
    case AcquireLease(ttl, hid) =>
      if LeaseBlocked(run, actor, now) then Err("lease held")
      else Ok(Reply(TakeLease(tx, actor, ttl, now, hid, "lease_expired"), true))
    case RenewLease(ttl) =>
      var lease := LeaseOf(actor, ttl, now);
      Ok(Reply(Tx(run.(lease := lease), [LeaseEvent(LeaseRenewed, lease, None)]), true))
    case ReleaseLease =>
      var lease := run.lease.(expires := now);
      Ok(Reply(Tx(run.(lease := lease), [LeaseEvent(LeaseReleased, lease, None)]), true))
    case TransferLease(to, ttl, hid) =>
      var lease, h := LeaseOf(to, ttl, now), Handoff(hid, None, Some(actor), to, "explicit_transfer");
      Ok(Reply(Tx(run.(lease := lease, handoffs := run.handoffs + [h]),
                  [LeaseEvent(LeaseTransferred, lease, Some(h))]), true))
    case Transition(uid, target, reason) =>
      if target == Assigned then Err("use assign_unit or reassign_unit to assign work")
      else Accepted(SetState(tx, uid, target, actor, reason, now))
    case Assign(uid, worker, routing, guarded) =>
      if uid !in run.units then Err("unknown unit")
      else if run.units[uid].state != Ready then Err("not ready")
      else if run.units[uid].owner.Some? && run.units[uid].owner.value != worker then Err("belongs to another worker")
      else if guarded && !ParallelSafe(run, uid) then Err("overlaps active units")
      else AssignWork(tx, uid, worker, routing, actor, now)
    case Reassign(uid, worker, routing, reason, hid) =>
      if uid !in run.units then Err("unknown unit")
      else if !Reassignable(run.units[uid].state) then Err("only stopped units can be reassigned")
      else ReassignWork(tx, uid, worker, routing, reason, hid, actor, now)
    case Surrender(uid, reason) =>
      if uid !in run.units then Err("unknown unit")
      else if run.units[uid].process.None? || run.units[uid].process.value.conductor != Some(actor)
      then Err("process was not started by this conductor")
      else if !InFlight(run.units[uid].state) then Err("not in flight")
      else
        var u := run.units[uid];
        Accepted(SetState(Edit(tx, uid, u.(process := Some(u.process.value.(surrendered := true)))),
                          uid, NeedsUser, actor, reason, now))
    case Resume(ttl, hid, liveness) =>
      if LeaseBlocked(run, actor, now) then Err("lease held")
      else
        var taken := TakeLease(tx, actor, ttl, now, hid, "resume");
        var swept := Sweep(taken, Ids(run), liveness, actor, now);
        Ok(Reply(swept.(events := swept.events + [Payload(RunResumed, None, None, None, None)]), true))
    case Create(_, _, _) => Err("not a mutation of an existing run")
    case Replace(_, _, _) => Err("not a mutation of an existing run")
    case _ =>
      if op.uid !in run.units then Err("unknown unit") else RecordOn(tx, op, actor, now)
  }

  predicate IsRecording(op: Op) {
    || op.RecordProcess? || op.RecordProcessExit? || op.RecordWorkspace? || op.RecordHandoff?
    || op.Annotate? || op.RecordUsage?
  }

  /** Operations that record facts on one unit without asking for a move. */
  function RecordOn(tx: Tx, op: Op, actor: Id, now: real): Result<Reply>
    requires IsRecording(op) && op.uid in tx.run.units
  {
    var u := tx.run.units[op.uid];
    match op
    case RecordProcess(uid, process) => Ok(Reply(Updated(tx, uid, u.(process := Some(process))), true))
    case RecordProcessExit(uid) =>
      var p := if u.process.Some? then u.process.value else Process(None, false, false);
      Ok(Reply(Updated(tx, uid, u.(process := Some(p.(finished := true)))), true))
    case RecordWorkspace(uid, workspace) => Ok(Reply(Updated(tx, uid, u.(workspace := Some(workspace))), true))
    case RecordHandoff(uid, valid) =>
      Ok(Reply(Updated(tx, uid, u.(note := Some(HandoffNote(u.attempts, valid)))), valid))
    case Annotate(uid, BudgetGrant(n)) => Ok(Reply(Updated(tx, uid, u.(grant := if n < 0 then 0 else n)), true))
    case Annotate(uid, Other(key, value)) =>
      if key !in ANNOTATION_KEYS then Err("annotation key not allowed")
      else Ok(Reply(Updated(tx, uid, u.(annotations := u.annotations[key := value])), true))
    case RecordUsage(uid, cost) => Spend(tx, uid, cost, actor, now)
  }

  function Spend(tx: Tx, uid: Id, cost: real, actor: Id, now: real): Result<Reply>
    requires uid in tx.run.units
  {
    if cost < 0.0 then Err("usage must be non-negative")
    else CheckCost(Updated(tx, uid, WithCost(tx.run.units[uid], cost)), uid, actor, now)
  }

  function WithCost(u: Unit, cost: real): Unit {
    u.(cost := u.cost + cost)
  }

  /** A unit over its cost limit goes to the user if it can. */
  function CheckCost(tx: Tx, uid: Id, actor: Id, now: real): Result<Reply>
    requires uid in tx.run.units
  {
    var u := tx.run.units[uid];
    if !OverCost(u) then Ok(Reply(tx, true))
    else if Legal(u.state, NeedsUser) then Refused(SetState(tx, uid, NeedsUser, actor, "budget_exhausted", now))
    else Ok(Reply(tx, false))
  }

  function Updated(tx: Tx, uid: Id, u: Unit): Tx {
    Touch(Edit(tx, uid, u), uid, UnitUpdated)
  }

  /** Operations allowed without the lease; the others are refused without it. */
  predicate LeaseExempt(op: Op) {
    op.AcquireLease? || op.Surrender? || op.Resume?
  }

  // ---- founding a run ----

  /** `valid` is the verdict of the unit, policy and identifier validators. */
  ghost predicate PlanAccepted(op: Op)
    requires op.Create? || op.Replace?
  {
    op.valid && Dag.PlanOk(Raw(op.plan))
  }

  function FreshRun(plan: seq<PlanUnit>, actor: Id, ttl: real, now: real): Run {
    Run(plan, NewUnits(plan), LeaseOf(actor, ttl, now), [], now, [], 0)
  }

  predicate NoneStarted(run: Run) {
    forall u :: u in run.units ==>
      (run.units[u].state == Pending || run.units[u].state == Ready)
      && run.units[u].attempts == 0 && run.units[u].workspace.None?
  }

  /** The founding event followed by the promotion of the roots. */
  function Found(doc: Run, kind: Kind, actor: Id, now: real): Tx {
    Promote(Tx(doc, [RunEvent(kind, doc)]), Ids(doc), actor, now)
  }

  // ---- durable effects ----

  function Numbered(base: nat, ps: seq<Payload>): seq<Event> {
    seq(|ps|, i requires 0 <= i < |ps| => Event(base + i + 1, ps[i]))
  }

  /** How many of `n` writes happen. */
  function Written(stop: Option<nat>, n: nat): (k: nat)
    ensures k <= n
  {
    if stop.Some? && stop.value < n then stop.value else n
  }

  /** Appends the events one by one and then, if there were any, replaces the snapshot. */
  function Commit(st: Store, tx: Tx, stop: Option<nat>): Store {
    var base, n := LastSeq(st.log), |tx.events|;
    var done := tx.events[..Written(stop, n)];
    var saved := n > 0 && Written(stop, n + 1) == n + 1;
    Store(if saved then Some(tx.run.(lastSeq := base + n)) else st.snapshot, st.log + Numbered(base, done))
  }

  /** The outcome of one call on the stored run. */
  ghost function Exec(st: Store, a: Action): Store {
    match a.op
    case Create(plan, ttl, _) =>
      if !PlanAccepted(a.op) || st.snapshot.Some? || st.log != [] || a.stop == Some(0) then st
      else
        var doc := FreshRun(plan, a.actor, ttl, a.now);
        Commit(Store(Some(doc), st.log), Found(doc, RunCreated, a.actor, a.now),
               if a.stop.Some? then Some(a.stop.value - 1) else None)
    case Replace(plan, ttl, _) =>
      if !PlanAccepted(a.op) || !Load(st).Loaded? then st
      else
        var prior := Load(st).run;
        if !NoneStarted(prior) || LeaseBlocked(prior, a.actor, a.now) then st
        else
          var doc := FreshRun(plan, a.actor, ttl, a.now)
            .(created := prior.created, replaced := prior.replaced + [prior.plan]);
          Commit(st, Found(doc, RunReplanned, a.actor, a.now), a.stop)
    case _ =>
      if !Load(st).Loaded? then st
      else
        var run := Load(st).run;
        if !LeaseExempt(a.op) && !HoldsLease(run, a.actor, a.now) then st
        else
          match Perform(run, a.op, a.actor, a.now)
          case Err(_) => st
          case Ok(reply) => Commit(st, reply.tx, a.stop)
  }
}
