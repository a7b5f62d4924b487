/** What follows each recorded attempt, exactly, and when a unit is done (routing/escalation.py). */
module EscalationOutcomes {
  import opened Wrappers
  import opened Escalation

  // ---- one recorded attempt ----

  /** How many attempts the current tier allows: below the top at most two, plus what the owner granted. */
  function Cap(cfg: Config, c: Ctrl): int {
    var own := if cfg.budget < 1 then 1 else cfg.budget;
    c.extra + if c.tier >= cfg.maximum then own else if own < 2 then own else 2
  }

  predicate Affords(cfg: Config, spent: real, tier: int) {
    tier in cfg.estimates ==> cfg.estimates[tier] <= cfg.maxCost - spent + 0.000000000001
  }

  predicate BudgetGone(cfg: Config, c: Ctrl, o: Outcome) {
    c.spent + o.cost >= cfg.maxCost - 0.000000000001
  }

  /** The tier above is open to an objective failure. */
  predicate MayClimb(cfg: Config, c: Ctrl, o: Outcome) {
    o.objective && c.tier < cfg.maximum
  }

  predicate MayRetry(cfg: Config, c: Ctrl) {
    c.attempts + 1 < Cap(cfg, c)
  }

  /** Another attempt here would bring this tier's spend above one attempt at the next. */
  predicate Dearer(cfg: Config, c: Ctrl, o: Outcome) {
    && c.tier in cfg.estimates && c.tier + 1 in cfg.estimates
    && c.spentAtTier + o.cost + cfg.estimates[c.tier] > cfg.estimates[c.tier + 1]
  }

  /** The failed attempt calls for the next tier. */
  predicate WantsUp(cfg: Config, c: Ctrl, o: Outcome) {
    MayClimb(cfg, c, o) && (!MayRetry(cfg, c) || Dearer(cfg, c, o))
  }

  predicate Ups(cfg: Config, c: Ctrl, o: Outcome) {
    && !o.passed && !BudgetGone(cfg, c, o) && WantsUp(cfg, c, o) && Affords(cfg, c.spent + o.cost, c.tier + 1)
  }

  predicate Repairs(cfg: Config, c: Ctrl, o: Outcome) {
    && !o.passed && !BudgetGone(cfg, c, o) && !WantsUp(cfg, c, o) && MayRetry(cfg, c)
    && Affords(cfg, c.spent + o.cost, c.tier)
  }

  /** A failure that allows neither another attempt here nor one a tier up. */
  predicate Ends(cfg: Config, c: Ctrl, o: Outcome) {
    !o.passed && !Ups(cfg, c, o) && !Repairs(cfg, c, o)
  }

  /** The attempt as it enters the history, at the tier and of the kind that were pending. */
  function Noted(c: Ctrl, o: Outcome): Entry {
    Entry(c.tier, c.attempts + 1, if c.pending.kind == Some(Repairing) then Repairing else Implementation, o)
  }

  /** What recording an attempt comes to, in every case. */
  ghost predicate Follows(cfg: Config, c: Ctrl, o: Outcome, c': Ctrl) {
    && c'.history == c.history + [Noted(c, o)] && c'.spent == c.spent + o.cost
    && (Ups(cfg, c, o) ==>
          && c'.pending == Pending(Escalate, c.tier + 1, Some(Implementation), 1)
          && c'.tier == c.tier + 1 && c'.attempts == 0 && c'.spentAtTier == 0.0
          && c'.escalations == c.escalations + [Escalated(c.tier, c.tier + 1, c.attempts + 1, c.spent + o.cost)]
          && c'.extra == c.extra && c'.reserve == c.reserve)
    && (!Ups(cfg, c, o) ==>
          && c'.tier == c.tier && c'.attempts == c.attempts + 1 && c'.spentAtTier == c.spentAtTier + o.cost
          && c'.escalations == c.escalations)
    && (o.passed ==>
          c'.pending == Pending(Done, c.tier, None, c.attempts + 1) && c'.extra == c.extra && c'.reserve == c.reserve)
    && (Repairs(cfg, c, o) ==>
          && c'.pending == Pending(Repair, c.tier, Some(Repairing), c.attempts + 2)
          && c'.extra == c.extra && c'.reserve == c.reserve)
    && (Ends(cfg, c, o) && c.reserve == 0 ==>
          c'.pending == Pending(Stop, c.tier, None, c.attempts + 1) && c'.extra == c.extra && c'.reserve == 0)
    && (Ends(cfg, c, o) && c.reserve > 0 ==>
          && c'.pending == Pending(Repair, c.tier, Some(Repairing), c.attempts + 2)
          && c'.extra == c.extra + c.reserve && c'.reserve == 0)
  }

  lemma SameTests(cfg: Config, c: Ctrl, o: Outcome)
    ensures var d := Charged(c, o);
            && PerTier(cfg, d.tier, d.extra) == Cap(cfg, c)
            && (Fits(cfg, d.spent, d.tier) <==> Affords(cfg, c.spent + o.cost, c.tier))
            && (Fits(cfg, d.spent, d.tier + 1) <==> Affords(cfg, c.spent + o.cost, c.tier + 1))
  {
  }

  /** The decision before any grant is spent. */
  lemma DecisionIs(cfg: Config, c: Ctrl, o: Outcome)
    ensures var d := Charged(c, o);
            Decide(cfg, d, o) ==
              if o.passed then d.(pending := Pending(Done, c.tier, None, c.attempts + 1))
              else if Ups(cfg, c, o) then
                d.(tier := c.tier + 1, attempts := 0, spentAtTier := 0.0,
                   escalations := c.escalations + [Escalated(c.tier, c.tier + 1, c.attempts + 1, c.spent + o.cost)],
                   pending := Pending(Escalate, c.tier + 1, Some(Implementation), 1))
              else if Repairs(cfg, c, o) then d.(pending := Pending(Repair, c.tier, Some(Repairing), c.attempts + 2))
              else d.(pending := Pending(Stop, c.tier, None, c.attempts + 1))
  {
    SameTests(cfg, c, o);
    hide Fits, Affords, PerTier, Cap;
  }

  lemma RecordFollows(cfg: Config, c: Ctrl, o: Outcome)
    ensures Follows(cfg, c, o, Record(cfg, c, o))
  {
    DecisionIs(cfg, c, o);
    hide Decide, Ups, Repairs;
    match c.pending.kind { case None => case Some(Implementation) => case Some(Repairing) => }
    assert Charged(c, o).history == c.history + [Noted(c, o)];
    assert !o.passed || (!Ups(cfg, c, o) && !Repairs(cfg, c, o)) by { PassedNeither(cfg, c, o); }
    assert !(Ups(cfg, c, o) && Repairs(cfg, c, o)) by { NotBoth(cfg, c, o); }
  }

  lemma PassedNeither(cfg: Config, c: Ctrl, o: Outcome)
    ensures o.passed ==> !Ups(cfg, c, o) && !Repairs(cfg, c, o)
  {
  }

  lemma NotBoth(cfg: Config, c: Ctrl, o: Outcome)
    ensures !(Ups(cfg, c, o) && Repairs(cfg, c, o))
  {
    hide WantsUp, Affords, MayRetry, BudgetGone;
  }

  // ---- from a fresh start ----

  /** A fresh controller attempts the starting tier if its estimate fits the ceiling, and is stopped otherwise. */
  lemma StartExactly(cfg: Config)
    ensures New(cfg).pending ==
            if cfg.start in cfg.estimates && cfg.estimates[cfg.start] > cfg.maxCost + 0.000000000001
            then Pending(Stop, cfg.start, None, 0) else Pending(Attempt, cfg.start, Some(Implementation), 1)
  {
  }

  /** Done if and only if the last recorded attempt passed. */
  ghost predicate DoneIfPassed(c: Ctrl) {
    c.pending.step == Done <==> c.history != [] && c.history[|c.history| - 1].outcome.passed
  }

  lemma {:induction false} FedDone(cfg: Config, c: Ctrl, os: seq<Outcome>)
    requires DoneIfPassed(c)
    ensures DoneIfPassed(Feed(cfg, c, os))
    decreases |os|
  {
    if os != [] {
      var before, last := Feed(cfg, c, os[..|os| - 1]), os[|os| - 1];
      FedDone(cfg, c, os[..|os| - 1]);
      RecordFollows(cfg, before, last);
    }
  }

  /** A unit is done exactly when its last attempt passed, live or rebuilt, with or without a grant. */
  lemma DoneExactly(cfg: Config, os: seq<Outcome>, grant: nat)
    ensures DoneIfPassed(Live(cfg, os, grant)) && DoneIfPassed(Replay(cfg, os, grant))
  {
    FedDone(cfg, New(cfg).(reserve := grant), os);
    FedDone(cfg, Replay(cfg, [], grant), os);
  }

  /** A passed attempt ends it: nothing is granted or spent for it, and nothing more is recorded. */
  lemma PassEnds(cfg: Config, c: Ctrl, o: Outcome, more: seq<Outcome>)
    requires o.passed
    ensures var c' := Record(cfg, c, o);
            && c'.pending.step == Done && c'.extra == c.extra && c'.reserve == c.reserve && c'.tier == c.tier
            && Feed(cfg, c', more) == c' && forall next :: !Accepts(c', next)
  {
    RecordFollows(cfg, c, o);
    FinishedStays(cfg, Record(cfg, c, o), more);
  }

  /** A controller that stopped has no grant left, and its last attempt, if any, allowed nothing further. */
  ghost predicate StoppedFor(cfg: Config, c: Ctrl) {
    c.pending.step == Stop ==>
      && c.reserve == 0
      && (c.history == [] ==> c.tier == cfg.start && !Affords(cfg, 0.0, cfg.start))
      && (c.history != [] ==> !c.history[|c.history| - 1].outcome.passed)
  }

  /** Live controllers stop only without a grant left, after a failure or an unaffordable start. */
  lemma StopExactly(cfg: Config, os: seq<Outcome>, grant: nat)
    ensures StoppedFor(cfg, Live(cfg, os, grant))
    ensures os != [] ==>
              var before, last := Live(cfg, os[..|os| - 1], grant), os[|os| - 1];
              !Finished(before) ==>
                (Live(cfg, os, grant).pending.step == Stop <==> Ends(cfg, before, last) && before.reserve == 0)
    decreases |os|
  {
    if os != [] {
      var before, last := Live(cfg, os[..|os| - 1], grant), os[|os| - 1];
      StopExactly(cfg, os[..|os| - 1], grant);
      RecordFollows(cfg, before, last);
    } else {
      StartExactly(cfg);
    }
  }

  /** Below the top tier an attempt's number is at most two, or the budget if that is smaller, plus the grant. */
  ghost predicate FewBelowTop(cfg: Config, c: Ctrl, grant: nat) {
    && c.extra + c.reserve == grant
    && (!Finished(c) ==> c.attempts < Cap(cfg, c))
    && forall i :: 0 <= i < |c.history| && c.history[i].tier < cfg.maximum ==>
                     c.history[i].attempt <= grant + if cfg.budget < 2 then 1 else 2
  }

  lemma RecordFew(cfg: Config, c: Ctrl, o: Outcome, grant: nat)
    requires FewBelowTop(cfg, c, grant) && !Finished(c)
    ensures FewBelowTop(cfg, Record(cfg, c, o), grant)
  {
    var c' := Record(cfg, c, o);
    RecordFollows(cfg, c, o);
    hide Record, Ups, Affords, BudgetGone, Dearer;
    assert c'.history[..|c.history|] == c.history;
    forall i | 0 <= i < |c'.history| && c'.history[i].tier < cfg.maximum
      ensures c'.history[i].attempt <= grant + if cfg.budget < 2 then 1 else 2
    {
      if i < |c.history| { assert c'.history[i] == c.history[i]; } else { assert c'.history[i] == Noted(c, o); }
    }
  }

  lemma {:induction false} FedFew(cfg: Config, c: Ctrl, os: seq<Outcome>, grant: nat)
    requires FewBelowTop(cfg, c, grant)
    ensures FewBelowTop(cfg, Feed(cfg, c, os), grant)
    decreases |os|
  {
    if os != [] {
      var before := Feed(cfg, c, os[..|os| - 1]);
      FedFew(cfg, c, os[..|os| - 1], grant);
      if !Finished(before) { RecordFew(cfg, before, os[|os| - 1], grant); }
    }
  }

  /** Every attempt a live controller ever made below the top tier was within that cap. */
  lemma AttemptsBelowTop(cfg: Config, os: seq<Outcome>, grant: nat, i: nat)
    requires i < |Live(cfg, os, grant).history| && Live(cfg, os, grant).history[i].tier < cfg.maximum
    ensures Live(cfg, os, grant).history[i].attempt <= grant + if cfg.budget < 2 then 1 else 2
  {
    FedFew(cfg, Replay(cfg, [], grant), os, grant);
  }
}
