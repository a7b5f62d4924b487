/** The persisted documents of a run: units, leases, events and their replay (runs/manager.py, runs/store.py). */
module RunRecords {
  import opened Wrappers
  import opened Ordering
  import opened UnitStates
  import Dag

  type Id = string

  // ---- documents ----

  /** `perTier` is `attempts`; `total` is the deprecated alias read only when `attempts` is absent. */
  datatype Budget = Budget(perTier: Option<nat>, total: Option<nat>, cost: Option<real>)

  datatype PlanUnit = PlanUnit(id: Id, dependsOn: seq<Id>, budget: Budget, scope: seq<string>)

  datatype Process = Process(conductor: Option<Id>, finished: bool, surrendered: bool)

  /** The `handoff` annotation: which attempt it was recorded for and whether it was valid. */
  datatype HandoffNote = HandoffNote(attempt: nat, valid: bool)

  datatype Move = Move(from: State, to: State, at: real, actor: Id, owner: Option<Id>, reason: string)

  datatype Unit = Unit(
    state: State, owner: Option<Id>, attempts: nat, byTier: map<nat, nat>, cost: real, budget: Budget,
    tier: Option<nat>, dependsOn: seq<Id>, scope: seq<string>, process: Option<Process>,
    workspace: Option<string>, handoffRef: Option<Id>, reason: string, note: Option<HandoffNote>,
    grant: nat, annotations: map<string, string>, history: seq<Move>)

  datatype Lease = Lease(conductor: Id, expires: real)

  datatype Handoff = Handoff(id: Id, unit: Option<Id>, from: Option<Id>, to: Id, reason: string)

  datatype Run = Run(plan: seq<PlanUnit>, units: map<Id, Unit>, lease: Lease, handoffs: seq<Handoff>,
                     created: real, replaced: seq<seq<PlanUnit>>, lastSeq: nat)

  datatype Kind =
    | RunCreated | RunReplanned | StateChanged | UnitUpdated | HandoffRecorded
    | LeaseAcquired | LeaseRenewed | LeaseReleased | LeaseTransferred | RunResumed

  /** The optional parts of an event's data that replay looks at. */
  datatype Payload = Payload(kind: Kind, run: Option<Run>, unit: Option<(Id, Unit)>,
                             lease: Option<Lease>, handoff: Option<Handoff>)

  datatype Event = Event(num: nat, data: Payload)

  function UnitEvent(kind: Kind, uid: Id, u: Unit): Payload {
    Payload(kind, None, Some((uid, u)), None, None)
  }

  function LeaseEvent(kind: Kind, lease: Lease, handoff: Option<Handoff>): Payload {
    Payload(kind, None, None, Some(lease), handoff)
  }

  function RunEvent(kind: Kind, run: Run): Payload {
    Payload(kind, Some(run), None, None, None)
  }

  // ---- replay ----

  predicate Founds(p: Payload) {
    (p.kind == RunCreated || p.kind == RunReplanned) && p.run.Some?
  }

  predicate HasHandoff(handoffs: seq<Handoff>, id: Id) {
    exists i :: 0 <= i < |handoffs| && handoffs[i].id == id
  }

  /** What one event does to the document, apart from the sequence number. */
  function ApplyPayload(run: Run, p: Payload): Run {
    var r0 := if Founds(p) then p.run.value else run;
    var r1 := if p.unit.Some? then r0.(units := r0.units[p.unit.value.0 := p.unit.value.1]) else r0;
    var r2 := if p.lease.Some? then r1.(lease := p.lease.value) else r1;
    if p.handoff.Some? && !HasHandoff(r2.handoffs, p.handoff.value.id)
    then r2.(handoffs := r2.handoffs + [p.handoff.value])
    else r2
  }

  /** What reading a run amounts to so far; `Broken` is the replay error of a log with no founding event. */
  datatype Doc = Absent | Loaded(run: Run) | Broken

  function ApplyEvent(doc: Doc, e: Event): Doc {
    match doc
    case Broken => Broken
    case Absent => if Founds(e.data) then Loaded(ApplyPayload(e.data.run.value, e.data).(lastSeq := e.num)) else Broken
    case Loaded(run) => Loaded(ApplyPayload(run, e.data).(lastSeq := e.num))
  }

  function Fold(doc: Doc, events: seq<Event>): Doc
    decreases |events|
  {
    if events == [] then doc
    else ApplyEvent(Fold(doc, events[..|events| - 1]), events[|events| - 1])
  }

  function After(log: seq<Event>, base: nat): seq<Event> {
    if log == [] then []
    else After(log[..|log| - 1], base) + (if log[|log| - 1].num > base then [log[|log| - 1]] else [])
  }

  function LastSeq(log: seq<Event>): nat {
    if log == [] then 0
    else
      var m := LastSeq(log[..|log| - 1]);
      if log[|log| - 1].num > m then log[|log| - 1].num else m
  }

  datatype Store = Store(snapshot: Option<Run>, log: seq<Event>)

  function Saved(st: Store): Doc {
    if st.snapshot.Some? then Loaded(st.snapshot.value) else Absent
  }

  function Base(st: Store): nat {
    if st.snapshot.Some? then st.snapshot.value.lastSeq else 0
  }

  /** Snapshot plus newer events. */
  function Load(st: Store): Doc {
    Fold(Saved(st), After(st.log, Base(st)))
  }

  /** The log alone. */
  function Rebuild(log: seq<Event>): Doc {
    Fold(Absent, log)
  }

  // ---- facts about replay ----

  ghost predicate WellNumbered(log: seq<Event>) {
    forall i :: 0 <= i < |log| ==> log[i].num == i + 1
  }

  lemma {:induction false} WellNumberedLast(log: seq<Event>)
    requires WellNumbered(log)
    ensures LastSeq(log) == |log|
  {
    if log != [] { WellNumberedLast(log[..|log| - 1]); }
  }

  lemma {:induction false} WellNumberedReads(log: seq<Event>, base: nat)
    requires WellNumbered(log) && base <= |log|
    ensures LastSeq(log) == |log|
    ensures After(log, base) == log[base..]
  {
    WellNumberedLast(log);
    if base == |log| {
      AfterNothing(log, base);
    } else {
      hide LastSeq;
      var front := log[..|log| - 1];
      assert WellNumbered(front) && log[|log| - 1].num > base;
      WellNumberedReads(front, base);
      assert log[base..] == front[base..] + [log[|log| - 1]];
    }
  }

  lemma {:induction false} AfterNothing(log: seq<Event>, base: nat)
    requires WellNumbered(log) && |log| <= base
    ensures After(log, base) == []
  {
    if log != [] { AfterNothing(log[..|log| - 1], base); }
  }

  lemma {:induction false} FoldConcat(doc: Doc, a: seq<Event>, b: seq<Event>)
    ensures Fold(doc, a + b) == Fold(Fold(doc, a), b)
    decreases |b|
  {
    if b == [] {
      assert a + b == a;
    } else {
      var front := b[..|b| - 1];
      FoldConcat(doc, a, front);
      assert (a + b)[..|a + b| - 1] == a + front;
    }
  }

  ghost predicate Anchored(log: seq<Event>) {
    log != [] && Founds(log[0].data)
  }

  /** The log alone gives a run exactly when its first event founds one. */
  lemma {:induction false} RebuildNeedsFounding(log: seq<Event>)
    ensures Rebuild(log).Loaded? <==> Anchored(log)
    ensures log != [] && !Anchored(log) ==> Rebuild(log) == Broken
  {
    if log != [] {
      var front := log[..|log| - 1];
      RebuildNeedsFounding(front);
    }
  }

  // ---- plans ----

  function Raw(plan: seq<PlanUnit>): Dag.RawPlan {
    Dag.Units(RawUnits(plan))
  }

  function RawUnits(plan: seq<PlanUnit>): seq<Dag.RawUnit> {
    seq(|plan|, i requires 0 <= i < |plan| => Dag.Object(Some(plan[i].id), Some(plan[i].dependsOn)))
  }

  function PlanIds(plan: seq<PlanUnit>): seq<Id> {
    seq(|plan|, i requires 0 <= i < |plan| => plan[i].id)
  }

  function NewUnit(u: PlanUnit): Unit {
    Unit(Pending, None, 0, map[], 0.0, u.budget, None, u.dependsOn, u.scope, None, None, None, "", None, 0,
         map[], [])
  }

  function NewUnits(plan: seq<PlanUnit>): map<Id, Unit> {
    if plan == [] then map[]
    else NewUnits(plan[..|plan| - 1])[plan[|plan| - 1].id := NewUnit(plan[|plan| - 1])]
  }

  lemma {:induction false} NewUnitsShape(plan: seq<PlanUnit>)
    ensures forall u :: u in NewUnits(plan) <==> u in PlanIds(plan)
    ensures forall u :: u in NewUnits(plan) ==>
                          exists p :: p in plan && p.id == u && NewUnits(plan)[u] == NewUnit(p)
  {
    if plan != [] {
      var n := |plan| - 1;
      NewUnitsShape(plan[..n]);
      assert PlanIds(plan) == PlanIds(plan[..n]) + [plan[n].id];
      forall u | u in NewUnits(plan)
        ensures exists p :: p in plan && p.id == u && NewUnits(plan)[u] == NewUnit(p)
      {
        if u != plan[n].id {
          assert u in NewUnits(plan[..n]);
          var p :| p in plan[..n] && p.id == u && NewUnits(plan[..n])[u] == NewUnit(p);
          assert p in plan;
        } else {
          assert plan[n] in plan;
        }
      }
    }
  }

  /** The dependency graph of a plan, read off its unit records. */
  ghost function UnitGraph(units: map<Id, Unit>): Dag.Deps {
    map u | u in units :: Dag.Dedup(units[u].dependsOn)
  }

  lemma {:induction false} NewUnitsGraph(plan: seq<PlanUnit>)
    requires Dag.WellFormedUnits(RawUnits(plan))
    ensures UnitGraph(NewUnits(plan)) == Dag.Graph(RawUnits(plan))
  {
    if plan != [] {
      var n := |plan| - 1;
      var raw := RawUnits(plan);
      assert raw[..n] == RawUnits(plan[..n]);
      assert Dag.WellFormedUnits(raw[..n]) by {
        forall i, j | 0 <= i < j < n ensures raw[..n][i].id != raw[..n][j].id { assert raw[i].id != raw[j].id; }
      }
      NewUnitsGraph(plan[..n]);
    }
  }
}
