/** Leases as fences: who may change a run, over any interleaving of conductors. */
module RunFencing {
  import opened Wrappers
  import opened UnitStates
  import opened RunRecords
  import opened RunSpec
  import opened RunSteps
  import opened RunRecovery
  import opened RunSafety
  import opened RunHistory
  import Dag

  // ---- paths that leave something alone ----

  lemma {:induction false} UnitOnlyKeepsLease(run: Run, ps: seq<Payload>, k: nat)
    requires UnitOnly(ps, 0) && k <= |ps|
    ensures ApplyAll(run, ps[..k]).lease == run.lease
    decreases k
  {
    if k > 0 {
      assert ps[..k][..k - 1] == ps[..k - 1];
      UnitOnlyKeepsLease(run, ps, k - 1);
    }
  }

  /** A path whose only lease event is its first ends with that lease, unless nothing was written. */
  lemma {:induction false} FirstLeaseDecides(run: Run, ps: seq<Payload>, k: nat)
    requires UnitOnly(ps, 1) && k <= |ps|
    ensures ApplyAll(run, ps[..k]).lease == if k == 0 || ps[0].lease.None? then run.lease else ps[0].lease.value
    decreases k
  {
    if k > 1 {
      assert ps[..k][..k - 1] == ps[..k - 1];
      FirstLeaseDecides(run, ps, k - 1);
    } else if k == 1 {
      assert ps[..1][..0] == [];
    }
  }

  lemma {:induction false} NoUnitEventsKeepUnits(run: Run, ps: seq<Payload>, k: nat)
    requires k <= |ps| && forall i :: 0 <= i < |ps| ==> ps[i].run.None? && ps[i].unit.None?
    ensures ApplyAll(run, ps[..k]).units == run.units
    decreases k
  {
    if k > 0 {
      assert ps[..k][..k - 1] == ps[..k - 1];
      NoUnitEventsKeepUnits(run, ps, k - 1);
    }
  }

  /** Reading a run after a mutation, wherever it stopped. */
  lemma MutationLoads(st: Store, a: Action, d: Discipline) returns (k: nat)
    requires Good(st, d) && st != EMPTY && Admitted(st, a, d)
    requires !a.op.Create? && !a.op.Replace? && Perform(Load(st).run, a.op, a.actor, a.now).Ok?
    requires LeaseExempt(a.op) || HoldsLease(Load(st).run, a.actor, a.now)
    ensures var ps := Perform(Load(st).run, a.op, a.actor, a.now).value.tx.events;
            k <= |ps| && Load(Exec(st, a)) == Loaded(Reached(Load(st).run, |st.log|, ps[..k]))
  {
    var tx := Perform(Load(st).run, a.op, a.actor, a.now).value.tx;
    PerformTracks(Load(st).run, a.op, a.actor, a.now, d);
    CommitLoads(st, tx, a.stop, d);
    k := Written(a.stop, |tx.events|);
  }

  // ---- one call ----

  /** The holder changes only after expiry or by a transfer its unexpired holder issued. */
  lemma HolderChanges(st: Store, a: Action, d: Discipline)
    requires Good(st, d) && Admitted(st, a, d) && Load(st).Loaded?
    requires Load(Exec(st, a)).Loaded? && Load(Exec(st, a)).run.lease.conductor != Load(st).run.lease.conductor
    requires Load(st).run.lease.conductor != ""
    ensures Load(st).run.lease.expires <= a.now || (a.op.TransferLease? && HoldsLease(Load(st).run, a.actor, a.now))
  {
    var run := Load(st).run;
    if Exec(st, a) != st {
      ChangeWasAllowed(st, a);
      if a.op.Replace? { ReplaceChangesHolder(st, a, d); } else { MutationChangesHolder(st, a, d); }
    }
  }

  lemma {:induction false} PromoteTail(tx: Tx, ids: seq<Id>, actor: Id, now: real)
    requires |tx.events| > 0 && TailUnitOnly(tx.events)
    ensures TailUnitOnly(Promote(tx, ids, actor, now).events)
    decreases |ids|
  {
    if ids != [] { PromoteTail(tx, ids[..|ids| - 1], actor, now); }
  }

  ghost predicate TailUnitOnly(ps: seq<Payload>) {
    forall i :: 1 <= i < |ps| ==> ps[i].run.None? && ps[i].lease.None?
  }

  lemma {:induction false} FoundingDecides(run: Run, doc: Run, ps: seq<Payload>, k: nat)
    requires k <= |ps| && TailUnitOnly(ps) && (|ps| > 0 ==> ps[0] == RunEvent(RunReplanned, doc))
    ensures ApplyAll(run, ps[..k]).lease == if k == 0 then run.lease else doc.lease
    decreases k
  {
    if k > 1 {
      assert ps[..k][..k - 1] == ps[..k - 1];
      FoundingDecides(run, doc, ps, k - 1);
    } else if k == 1 {
      assert ps[..1][..0] == [];
    }
  }

  /** A replaced run belongs to whoever replaced it, unless nothing was written. */
  lemma ReplaceChangesHolder(st: Store, a: Action, d: Discipline)
    requires Good(st, d) && st != EMPTY && a.op.Replace? && Exec(st, a) != st
    ensures Load(Exec(st, a)).Loaded?
    ensures Load(Exec(st, a)).run.lease.conductor == Load(st).run.lease.conductor
            || Load(Exec(st, a)).run.lease.conductor == a.actor
  {
    var run := Load(st).run;
    var doc := FreshRun(a.op.plan, a.actor, a.op.ttl, a.now)
      .(created := run.created, replaced := run.replaced + [run.plan]);
    var tx := Found(doc, RunReplanned, a.actor, a.now);
    FoundTracks(run, doc, RunReplanned, a.actor, a.now, d);
    CommitLoads(st, tx, a.stop, d);
    var k := Written(a.stop, |tx.events|);
    PromoteTail(Tx(doc, [RunEvent(RunReplanned, doc)]), Ids(doc), a.actor, a.now);
    PromoteKeepsFirst(Tx(doc, [RunEvent(RunReplanned, doc)]), Ids(doc), a.actor, a.now);
    FoundingDecides(run, doc, tx.events, k);
    ReachedLease(run, |st.log|, tx.events[..k]);
  }

  lemma MutationChangesHolder(st: Store, a: Action, d: Discipline)
    requires Good(st, d) && st != EMPTY && Admitted(st, a, d)
    requires !a.op.Create? && !a.op.Replace? && Perform(Load(st).run, a.op, a.actor, a.now).Ok?
    requires LeaseExempt(a.op) || HoldsLease(Load(st).run, a.actor, a.now)
    requires Load(st).run.lease.conductor != ""
    ensures Load(Exec(st, a)).Loaded?
    ensures var run, run' := Load(st).run, Load(Exec(st, a)).run;
            run'.lease.conductor == run.lease.conductor || run.lease.expires <= a.now
            || (a.op.TransferLease? && HoldsLease(run, a.actor, a.now))
  {
    var run := Load(st).run;
    var k := MutationLoads(st, a, d);
    MutationHolder(run, a, k);
    ReachedLease(run, |st.log|, Perform(run, a.op, a.actor, a.now).value.tx.events[..k]);
  }

  lemma ReachedLease(run: Run, base: nat, ps: seq<Payload>)
    ensures Reached(run, base, ps).lease == ApplyAll(run, ps).lease
  {
  }

  /** A call that changes the store passed the checks of its kind. */
  lemma ChangeWasAllowed(st: Store, a: Action)
    requires st.snapshot.Some? && Load(st).Loaded? && Exec(st, a) != st
    ensures !a.op.Create?
    ensures a.op.Replace? ==> !LeaseBlocked(Load(st).run, a.actor, a.now)
    ensures !a.op.Replace? ==> Perform(Load(st).run, a.op, a.actor, a.now).Ok?
                               && (LeaseExempt(a.op) || HoldsLease(Load(st).run, a.actor, a.now))
  {
  }

  lemma MutationHolder(run: Run, a: Action, k: nat)
    requires Perform(run, a.op, a.actor, a.now).Ok? && (LeaseExempt(a.op) || HoldsLease(run, a.actor, a.now))
    requires k <= |Perform(run, a.op, a.actor, a.now).value.tx.events| && run.lease.conductor != ""
    ensures var run' := ApplyAll(run, Perform(run, a.op, a.actor, a.now).value.tx.events[..k]);
            run'.lease.conductor == run.lease.conductor || run.lease.expires <= a.now
            || (a.op.TransferLease? && HoldsLease(run, a.actor, a.now))
  {
    var ps := Perform(run, a.op, a.actor, a.now).value.tx.events;
    PerformUnitOnly(run, a.op, a.actor, a.now);
    if MovesLease(a.op) {
      FirstLeaseDecides(run, ps, k);
      FirstLeaseEvent(run, a);
    } else {
      UnitOnlyKeepsLease(run, ps, k);
    }
  }

  lemma FirstLeaseEvent(run: Run, a: Action)
    requires MovesLease(a.op) && Perform(run, a.op, a.actor, a.now).Ok?
    ensures var ps := Perform(run, a.op, a.actor, a.now).value.tx.events;
            && |ps| > 0 && ps[0].lease.Some?
            && (a.op.AcquireLease? || a.op.Resume? ==>
                  ps[0].lease.value.conductor == a.actor && !LeaseBlocked(run, a.actor, a.now))
            && (a.op.RenewLease? ==> ps[0].lease.value.conductor == a.actor)
            && (a.op.ReleaseLease? ==> ps[0].lease.value.conductor == run.lease.conductor)
  {
    if a.op.Resume? {
      var taken := TakeLease(Tx(run, []), a.actor, a.op.ttl, a.now, a.op.hid, "resume");
      SweepKeepsFirst(taken, Ids(run), a.op.liveness, a.actor, a.now);
    }
  }

  lemma {:induction false} SweepKeepsFirst(tx: Tx, ids: seq<Id>, liveness: map<Id, Liveness>, actor: Id, now: real)
    requires |tx.events| > 0
    ensures |Sweep(tx, ids, liveness, actor, now).events| > 0
    ensures Sweep(tx, ids, liveness, actor, now).events[0] == tx.events[0]
    decreases |ids|
  {
    if ids != [] { SweepKeepsFirst(tx, ids[..|ids| - 1], liveness, actor, now); }
  }

  /** `u'` is `u`, given up by the conductor whose process was working on it. */
  ghost predicate SurrenderedBy(u: Unit, u': Unit, actor: Id) {
    && InFlight(u.state) && u.process.Some? && u.process.value.conductor == Some(actor)
    && u'.state == NeedsUser && u'.attempts == u.attempts && u'.byTier == u.byTier && u'.note == u.note
    && |u'.history| == |u.history| + 1 && u'.history[..|u.history|] == u.history
  }

  /** Every unit is untouched, or given up by one of `actors`. */
  ghost predicate OnlySurrenders(before: map<Id, Unit>, after: map<Id, Unit>, actors: set<Id>) {
    && before.Keys == after.Keys
    && forall uid :: uid in before ==>
         before[uid] == after[uid] || exists c :: c in actors && SurrenderedBy(before[uid], after[uid], c)
  }

  /** Units change only by the holder, by a surrender, or inside a resume or replace that passed the lease check. */
  lemma UnitsChange(st: Store, a: Action, d: Discipline)
    requires Good(st, d) && Admitted(st, a, d) && Load(st).Loaded? && Load(Exec(st, a)).Loaded?
    ensures UnitsChangeFairly(Load(st).run, Load(Exec(st, a)).run, a)
  {
    var run := Load(st).run;
    if Exec(st, a) != st && !HoldsLease(run, a.actor, a.now) {
      ChangeWasAllowed(st, a);
      if !a.op.Replace? {
        var k := MutationLoads(st, a, d);
        ExemptUnits(run, a, k);
      }
    }
  }

  ghost predicate UnitsChangeFairly(run: Run, run': Run, a: Action) {
    || run'.units == run.units
    || HoldsLease(run, a.actor, a.now)
    || (a.op.Surrender? && OnlySurrenders(run.units, run'.units, {a.actor}))
    || ((a.op.Resume? || a.op.Replace?) && !LeaseBlocked(run, a.actor, a.now))
  }

  lemma ExemptUnits(run: Run, a: Action, k: nat)
    requires LeaseExempt(a.op) && Perform(run, a.op, a.actor, a.now).Ok?
    requires k <= |Perform(run, a.op, a.actor, a.now).value.tx.events|
    ensures UnitsChangeFairly(run, ApplyAll(run, Perform(run, a.op, a.actor, a.now).value.tx.events[..k]), a)
  {
    if a.op.AcquireLease? {
      NoUnitEventsKeepUnits(run, Perform(run, a.op, a.actor, a.now).value.tx.events, k);
    } else if a.op.Surrender? {
      SurrenderChanges(run, a, k);
    }
  }

  lemma SurrenderChanges(run: Run, a: Action, k: nat)
    requires a.op.Surrender? && Perform(run, a.op, a.actor, a.now).Ok?
    requires k <= |Perform(run, a.op, a.actor, a.now).value.tx.events|
    ensures var run' := ApplyAll(run, Perform(run, a.op, a.actor, a.now).value.tx.events[..k]);
            OnlySurrenders(run.units, run'.units, {a.actor})
    ensures run.lease == ApplyAll(run, Perform(run, a.op, a.actor, a.now).value.tx.events[..k]).lease
  {
    var ps := Perform(run, a.op, a.actor, a.now).value.tx.events;
    var u := run.units[a.op.uid];
    var u' := Moved(u.(process := Some(u.process.value.(surrendered := true))), NeedsUser, a.actor, a.op.reason, a.now);
    assert ps == [UnitEvent(StateChanged, a.op.uid, u')];
    if k == 1 {
      assert ps[..1] == ps && ps[..0] == [];
      assert ApplyAll(run, ps) == ApplyPayload(run, ps[0]);
      assert SurrenderedBy(u, u', a.actor);
    } else {
      assert ps[..k] == [];
    }
  }

  // ---- a whole interleaving ----

  /** Calls by others while `holder`'s lease runs. */
  ghost predicate OthersBefore(acts: seq<Action>, holder: Id, expires: real) {
    forall i :: 0 <= i < |acts| ==> acts[i].actor != holder && acts[i].now < expires
  }

  ghost function Actors(acts: seq<Action>): set<Id> {
    if acts == [] then {} else Actors(acts[..|acts| - 1]) + {acts[|acts| - 1].actor}
  }

  /** A step by someone else while the lease runs: the run is fenced. */
  lemma FencedStep(st: Store, a: Action, d: Discipline)
    requires Good(st, d) && Admitted(st, a, d) && Load(st).Loaded? && !a.op.Create?
    requires Load(st).run.lease.conductor != "" && a.actor != Load(st).run.lease.conductor
    requires a.now < Load(st).run.lease.expires
    ensures Load(Exec(st, a)).Loaded? && Load(Exec(st, a)).run.lease == Load(st).run.lease
    ensures OnlySurrenders(Load(st).run.units, Load(Exec(st, a)).run.units, {a.actor})
  {
    var run := Load(st).run;
    if Exec(st, a) != st {
      assert a.op.Surrender?;
      var k := MutationLoads(st, a, d);
      SurrenderChanges(run, a, k);
    }
  }

  lemma SurrendersCompose(a: map<Id, Unit>, b: map<Id, Unit>, c: map<Id, Unit>, xs: set<Id>, ys: set<Id>)
    requires OnlySurrenders(a, b, xs) && OnlySurrenders(b, c, ys)
    ensures OnlySurrenders(a, c, xs + ys)
  {
    forall uid | uid in a ensures a[uid] == c[uid] || exists x :: x in xs + ys && SurrenderedBy(a[uid], c[uid], x) {
      if b[uid] == c[uid] && a[uid] != b[uid] {
        var x :| x in xs && SurrenderedBy(a[uid], b[uid], x);
        assert x in xs + ys;
      } else if b[uid] != c[uid] {
        var y :| y in ys && SurrenderedBy(b[uid], c[uid], y);
        assert y in xs + ys;
      }
    }
  }

  /**
   * While a lease runs, no interleaving of calls by other conductors, with any
   * crashes, moves the lease or touches a unit except to give up its own work.
   */
  lemma {:induction false} FencingTheorem(st: Store, acts: seq<Action>, d: Discipline)
    requires Good(st, d) && Admissible(st, acts, d) && Load(st).Loaded?
    requires Load(st).run.lease.conductor != ""
    requires OthersBefore(acts, Load(st).run.lease.conductor, Load(st).run.lease.expires)
    ensures Load(RunAll(st, acts)).Loaded? && Load(RunAll(st, acts)).run.lease == Load(st).run.lease
    ensures OnlySurrenders(Load(st).run.units, Load(RunAll(st, acts)).run.units, Actors(acts))
  {
    if acts != [] {
      var front, last := acts[..|acts| - 1], acts[|acts| - 1];
      assert OthersBefore(front, Load(st).run.lease.conductor, Load(st).run.lease.expires);
      FencingTheorem(st, front, d);
      AllRunsGood(st, front, d);
      var mid := RunAll(st, front);
      if last.op.Create? {
        assert Exec(mid, last) == mid;
        assert OnlySurrenders(Load(mid).run.units, Load(mid).run.units, {last.actor});
      } else {
        FencedStep(mid, last, d);
      }
      SurrendersCompose(Load(st).run.units, Load(mid).run.units, Load(Exec(mid, last)).run.units,
                        Actors(front), {last.actor});
    }
  }

  // ---- a consequence of the order of writes ----

  /** A run's log founds it exactly when creation got past its first write, the bare snapshot. */
  lemma CreationAnchors(plan: seq<PlanUnit>, actor: Id, ttl: real, now: real, stop: Option<nat>)
    requires Dag.PlanOk(Raw(plan)) && stop != Some(0)
    ensures var st := Exec(EMPTY, Action(Create(plan, ttl, true), actor, now, stop));
            st.snapshot.Some? && (Anchored(st.log) <==> stop != Some(1))
  {
    var doc := FreshRun(plan, actor, ttl, now);
    var tx := Found(doc, RunCreated, actor, now);
    PromoteKeepsFirst(Tx(doc, [RunEvent(RunCreated, doc)]), Ids(doc), actor, now);
    assert tx.events[0] == RunEvent(RunCreated, doc);
  }

  lemma {:induction false} PromoteKeepsFirst(tx: Tx, ids: seq<Id>, actor: Id, now: real)
    requires |tx.events| > 0
    ensures |Promote(tx, ids, actor, now).events| > 0 && Promote(tx, ids, actor, now).events[0] == tx.events[0]
    decreases |ids|
  {
    if ids != [] { PromoteKeepsFirst(tx, ids[..|ids| - 1], actor, now); }
  }
}
