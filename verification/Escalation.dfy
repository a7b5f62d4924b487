/** Retry, escalate or stop: the attempt controller and its reconstruction from history (routing/escalation.py). */
module Escalation {
  import opened Wrappers

  const MAX_ATTEMPTS_PER_TIER := 2
  const EPS: real := 0.000000000001

  datatype Kind = Implementation | Repairing

  datatype Step = Attempt | Repair | Escalate | Stop | Done

  /** The next action. A stop or done has no kind. */
  datatype Pending = Pending(step: Step, tier: int, kind: Option<Kind>, attempt: nat)

  datatype Outcome = Outcome(passed: bool, objective: bool, cost: real)

  datatype Entry = Entry(tier: int, attempt: nat, kind: Kind, outcome: Outcome)

  datatype Escalated = Escalated(from: int, to: int, attempts: nat, spent: real)

  /** The unit's classification, budget and tier estimates; unknown estimates are absent. */
  datatype Config = Config(start: int, maximum: int, budget: int, maxCost: real, estimates: map<int, real>)

  datatype Ctrl = Ctrl(tier: int, extra: nat, reserve: nat, attempts: nat, spent: real, spentAtTier: real,
                       history: seq<Entry>, escalations: seq<Escalated>, pending: Pending)

  // ---- helpers ----

  function Budget(cfg: Config): nat {
    if cfg.budget < 1 then 1 else cfg.budget
  }

  function LowCap(cfg: Config): nat {
    if Budget(cfg) < MAX_ATTEMPTS_PER_TIER then Budget(cfg) else MAX_ATTEMPTS_PER_TIER
  }

  function PerTier(cfg: Config, tier: int, extra: nat): nat {
    (if tier >= cfg.maximum then Budget(cfg) else LowCap(cfg)) + extra
  }

  function Estimate(cfg: Config, tier: int): Option<real> {
    if tier in cfg.estimates then Some(cfg.estimates[tier]) else None
  }

  predicate Fits(cfg: Config, spent: real, tier: int) {
    Estimate(cfg, tier).None? || Estimate(cfg, tier).value <= cfg.maxCost - spent + EPS
  }

  predicate Finished(c: Ctrl) {
    c.pending.step == Stop || c.pending.step == Done
  }

  function Act(c: Ctrl, step: Step, kind: Option<Kind>): Ctrl {
    c.(pending := Pending(step, c.tier, kind,
                          c.attempts + if step == Attempt || step == Repair || step == Escalate then 1 else 0))
  }

  function New(cfg: Config): Ctrl {
    var c := Ctrl(cfg.start, 0, 0, 0, 0.0, 0.0, [], [], Pending(Stop, cfg.start, None, 0));
    if Fits(cfg, 0.0, cfg.start) then Act(c, Attempt, Some(Implementation)) else Act(c, Stop, None)
  }

  /** More repairs at the current tier; a stopped controller reopens. */
  function Grant(c: Ctrl, extra: nat): Ctrl {
    var c' := c.(extra := c.extra + extra);
    if c.pending.step == Stop then Act(c', Repair, Some(Repairing)) else c'
  }

  function SpendReserve(c: Ctrl): Ctrl {
    if c.reserve > 0 && c.pending.step == Stop then Grant(c.(reserve := 0), c.reserve) else c
  }

  // ---- recording ----

  function TryEscalate(cfg: Config, c: Ctrl): Ctrl {
    var target := c.tier + 1;
    if !Fits(cfg, c.spent, target) then Act(c, Stop, None)
    else
      Act(c.(escalations := c.escalations + [Escalated(c.tier, target, c.attempts, c.spent)],
             tier := target, attempts := 0, spentAtTier := 0.0), Escalate, Some(Implementation))
  }

  function Decide(cfg: Config, c: Ctrl, o: Outcome): Ctrl {
    if o.passed then Act(c, Done, None)
    else if c.spent >= cfg.maxCost - EPS then Act(c, Stop, None)
    else
      var canEscalate := o.objective && c.tier < cfg.maximum;
      if c.attempts < PerTier(cfg, c.tier, c.extra) then
        var here, above := Estimate(cfg, c.tier), Estimate(cfg, c.tier + 1);
        if canEscalate && here.Some? && above.Some? && c.spentAtTier + here.value > above.value then TryEscalate(cfg, c)
        else if !Fits(cfg, c.spent, c.tier) then Act(c, Stop, None)
        else Act(c, Repair, Some(Repairing))
      else if canEscalate then TryEscalate(cfg, c)
      else Act(c, Stop, None)
  }

  function Charged(c: Ctrl, o: Outcome): Ctrl {
    var kind := if c.pending.kind.Some? then c.pending.kind.value else Implementation;
    c.(attempts := c.attempts + 1, spent := c.spent + o.cost, spentAtTier := c.spentAtTier + o.cost,
       history := c.history + [Entry(c.tier, c.attempts + 1, kind, o)])
  }

  /** The controller refuses outcomes after the end and negative costs. */
  predicate Accepts(c: Ctrl, o: Outcome) {
    !Finished(c) && o.cost >= 0.0
  }

  function Record(cfg: Config, c: Ctrl, o: Outcome): Ctrl {
    SpendReserve(Decide(cfg, Charged(c, o), o))
  }

  /** Records outcomes one after another until the controller finishes. */
  function Feed(cfg: Config, c: Ctrl, os: seq<Outcome>): Ctrl
    decreases |os|
  {
    if os == [] then c
    else
      var before := Feed(cfg, c, os[..|os| - 1]);
      if Finished(before) then before else Record(cfg, before, os[|os| - 1])
  }

  /** Rebuilds a controller from persisted attempts, holding an owner grant in reserve. */
  function Replay(cfg: Config, os: seq<Outcome>, grant: nat): Ctrl {
    SpendReserve(Feed(cfg, New(cfg).(reserve := grant), os))
  }

  function OutcomesOf(history: seq<Entry>): seq<Outcome> {
    seq(|history|, i requires 0 <= i < |history| => history[i].outcome)
  }

  /** A controller in use: rebuilt from nothing with the grant, then fed. */
  function Live(cfg: Config, os: seq<Outcome>, grant: nat): Ctrl {
    Feed(cfg, Replay(cfg, [], grant), os)
  }

  // ---- replay fidelity ----

  lemma RecordHistory(cfg: Config, c: Ctrl, o: Outcome)
    ensures |Record(cfg, c, o).history| == |c.history| + 1
    ensures Record(cfg, c, o).history[..|c.history|] == c.history
    ensures Record(cfg, c, o).history[|c.history|].outcome == o
    ensures Record(cfg, c, o).history[|c.history|].tier == c.tier
  {
  }

  lemma OutcomeAdded(before: seq<Entry>, after: seq<Entry>, o: Outcome)
    requires |after| == |before| + 1 && after[..|before|] == before && after[|before|].outcome == o
    ensures OutcomesOf(after) == OutcomesOf(before) + [o]
  {
    forall i | 0 <= i < |before| ensures after[i] == before[i] { assert after[..|before|][i] == before[i]; }
  }

  lemma FeedSnoc(cfg: Config, c: Ctrl, front: seq<Outcome>, last: Outcome)
    ensures var before := Feed(cfg, c, front);
            Feed(cfg, c, front + [last]) == if Finished(before) then before else Record(cfg, before, last)
  {
    assert (front + [last])[..|front|] == front;
  }

  /** What was recorded is a prefix of what was offered, all of it until the end, and feeds to the same controller. */
  ghost predicate Recorded(cfg: Config, c: Ctrl, os: seq<Outcome>) {
    var f := Feed(cfg, c, os);
    var n := |f.history|;
    && n <= |os| && OutcomesOf(f.history) == os[..n] && Feed(cfg, c, os[..n]) == f
    && (!Finished(f) ==> n == |os|)
  }

  lemma RecordedFinished(cfg: Config, c: Ctrl, front: seq<Outcome>, last: Outcome)
    requires Recorded(cfg, c, front) && Finished(Feed(cfg, c, front))
    ensures Recorded(cfg, c, front + [last])
  {
    hide Feed, Finished, OutcomesOf;
    FeedSnoc(cfg, c, front, last);
    var n := |Feed(cfg, c, front).history|;
    assert (front + [last])[..n] == front[..n];
  }

  lemma RecordedMore(cfg: Config, c: Ctrl, front: seq<Outcome>, last: Outcome)
    requires Recorded(cfg, c, front) && !Finished(Feed(cfg, c, front))
    ensures Recorded(cfg, c, front + [last])
  {
    hide Feed, Finished, OutcomesOf, Record;
    var before, all := Feed(cfg, c, front), front + [last];
    FeedSnoc(cfg, c, front, last);
    RecordHistory(cfg, before, last);
    OutcomeAdded(before.history, Record(cfg, before, last).history, last);
    assert front[..|front|] == front && all[..|all|] == all;
  }

  lemma {:induction false} FeedRecords(cfg: Config, c: Ctrl, os: seq<Outcome>)
    requires c.history == []
    ensures Recorded(cfg, c, os)
    decreases |os|
  {
    if os == [] {
      assert os[..0] == [] && OutcomesOf(c.history) == [];
    } else {
      hide Recorded, Feed, Finished;
      var front, last := os[..|os| - 1], os[|os| - 1];
      assert os == front + [last];
      FeedRecords(cfg, c, front);
      if Finished(Feed(cfg, c, front)) { RecordedFinished(cfg, c, front, last); }
      else { RecordedMore(cfg, c, front, last); }
    }
  }

  /** Recording leaves nothing for another spend of the reserve. */
  lemma {:induction false} FedIsSpent(cfg: Config, c: Ctrl, os: seq<Outcome>)
    requires SpendReserve(c) == c
    ensures SpendReserve(Feed(cfg, c, os)) == Feed(cfg, c, os)
    decreases |os|
  {
    if os != [] { FedIsSpent(cfg, c, os[..|os| - 1]); }
  }

  lemma {:induction false} FinishedStays(cfg: Config, c: Ctrl, os: seq<Outcome>)
    requires Finished(c)
    ensures Feed(cfg, c, os) == c
    decreases |os|
  {
    if os != [] { FinishedStays(cfg, c, os[..|os| - 1]); }
  }

  /**
   * For any outcomes and grant, a controller rebuilt from its own history
   * equals the live one exactly when the first attempt fits the cost ceiling,
   * or nothing has been recorded yet.
   */
  lemma ReplayFidelity(cfg: Config, os: seq<Outcome>, grant: nat)
    ensures var live := Live(cfg, os, grant);
            Replay(cfg, OutcomesOf(live.history), grant) == live
            <==> (Fits(cfg, 0.0, cfg.start) || live.history == [])
  {
    var start := New(cfg).(reserve := grant);
    var live := Live(cfg, os, grant);
    var h := OutcomesOf(live.history);
    FeedRecords(cfg, Replay(cfg, [], grant), os);
    if Fits(cfg, 0.0, cfg.start) {
      assert Replay(cfg, [], grant) == start;
      FedIsSpent(cfg, start, os);
    } else {
      FinishedStays(cfg, start, h);
      assert Replay(cfg, h, grant) == SpendReserve(start);
      if live.history == [] {
        assert os[..0] == [];
      }
    }
  }

  /** An estimate above the ceiling at the starting tier, and one attempt paid for by a grant. */
  const TOO_DEAR := Config(0, 1, 2, 1.0, map[0 := 2.0])
  const GRANTED := Outcome(false, false, 0.0)

  /** That attempt is lost in the replay of its own history. */
  lemma ReplayLoses()
    ensures var live := Live(TOO_DEAR, [GRANTED], 1);
            |live.history| == 1 && Replay(TOO_DEAR, OutcomesOf(live.history), 1).history == []
  {
    var start := Replay(TOO_DEAR, [], 1);
    assert !Finished(start) && [GRANTED][..0] == [];
    var live := Live(TOO_DEAR, [GRANTED], 1);
    assert Feed(TOO_DEAR, start, []) == start && live == Record(TOO_DEAR, start, GRANTED);
    RecordHistory(TOO_DEAR, start, GRANTED);
    FinishedStays(TOO_DEAR, New(TOO_DEAR).(reserve := 1), OutcomesOf(live.history));
  }

  /**
   * Re-recording the last attempt with another outcome (a review that asks for
   * changes) leaves every earlier attempt and the tier of the last one as they were.
   */
  lemma RewriteLast(cfg: Config, os: seq<Outcome>, grant: nat, o: Outcome)
    requires Fits(cfg, 0.0, cfg.start) && Live(cfg, os, grant).history != []
    ensures var h := Live(cfg, os, grant).history; var n := |h| - 1;
            var r := Replay(cfg, OutcomesOf(h)[..n] + [o], grant);
            && |r.history| == n + 1 && r.history[..n] == h[..n] && r.history[n].tier == h[n].tier
            && r.history[n].outcome == o
  {
    var start := New(cfg).(reserve := grant);
    assert Replay(cfg, [], grant) == start;
    var live := Live(cfg, os, grant);
    var h := OutcomesOf(live.history);
    var front, last := h[..|h| - 1], h[|h| - 1];
    var before := Feed(cfg, start, front);
    FeedRecords(cfg, start, os);
    FeedRecords(cfg, start, front);
    assert !Finished(before);
    RecordHistory(cfg, before, last);
    RecordHistory(cfg, before, o);
    FeedSnoc(cfg, start, front, o);
    FedIsSpent(cfg, start, front + [o]);
  }

  // ---- a first grant changes nothing already decided ----

  /** Recording with a reserve is recording without, then spending the reserve if that stopped. */
  lemma ReserveCommutes(cfg: Config, c: Ctrl, o: Outcome, grant: nat)
    requires c.reserve == 0
    ensures Record(cfg, c, o).reserve == 0
    ensures Record(cfg, c.(reserve := grant), o) == SpendReserve(Record(cfg, c, o).(reserve := grant))
  {
    DecideIgnoresReserve(cfg, Charged(c, o), o, grant);
    hide Decide;
  }

  lemma DecideIgnoresReserve(cfg: Config, d: Ctrl, o: Outcome, grant: nat)
    ensures Decide(cfg, d.(reserve := grant), o) == Decide(cfg, d, o).(reserve := grant)
    ensures Decide(cfg, d, o).reserve == d.reserve
  {
  }

  /** With a reserve, the controller follows the same path up to its first stop. */
  lemma {:induction false} ReserveFollows(cfg: Config, os: seq<Outcome>, grant: nat)
    ensures var plain := Feed(cfg, New(cfg), os);
            && plain.reserve == 0
            && (plain.pending.step != Stop ==> Feed(cfg, New(cfg).(reserve := grant), os) == plain.(reserve := grant))
    decreases |os|
  {
    if os != [] {
      var front := os[..|os| - 1];
      ReserveFollows(cfg, front, grant);
      ReserveCommutes(cfg, Feed(cfg, New(cfg), front), os[|os| - 1], grant);
    }
  }

  /**
   * Adding a first grant to any history changes none of its entries: the
   * rebuilt controller is the ungranted one with the reserve, spent if it had stopped.
   */
  lemma FirstGrantKeepsPath(cfg: Config, os: seq<Outcome>, grant: nat)
    ensures var plain := Feed(cfg, New(cfg), os);
            var granted := Replay(cfg, OutcomesOf(plain.history), grant);
            && granted == SpendReserve(plain.(reserve := grant))
            && granted.history == plain.history && granted.tier == plain.tier
    ensures var plain := Feed(cfg, New(cfg), os);
            plain.pending.step == Stop && grant > 0 ==>
              Replay(cfg, OutcomesOf(plain.history), grant).pending.step == Repair
  {
    var plain := Feed(cfg, New(cfg), os);
    var h := OutcomesOf(plain.history);
    FeedRecords(cfg, New(cfg), os);
    assert plain == Feed(cfg, New(cfg), h) && |plain.history| == |h|;
    if h != [] {
      var front, last := h[..|h| - 1], h[|h| - 1];
      var before := Feed(cfg, New(cfg), front);
      FeedRecords(cfg, New(cfg), front);
      assert !Finished(before);
      ReserveFollows(cfg, front, grant);
      ReserveCommutes(cfg, before, last, grant);
    }
  }

  const SECOND := Config(0, 1, 1, 100.0, map[])
  const SOFT := Outcome(false, false, 1.0)
  const HARD := Outcome(false, true, 1.0)

  lemma FeedNext(cfg: Config, c: Ctrl, os: seq<Outcome>, b: Ctrl, o: Outcome, after: Ctrl)
    requires Feed(cfg, c, os) == b && !Finished(b) && after == Record(cfg, b, o)
    ensures Feed(cfg, c, os + [o]) == after
  {
    FeedSnoc(cfg, c, os, o);
  }

  lemma FeedThree(cfg: Config, c: Ctrl, x: Outcome, y: Outcome, z: Outcome, c1: Ctrl, c2: Ctrl, c3: Ctrl)
    requires !Finished(c) && c1 == Record(cfg, c, x) && !Finished(c1) && c2 == Record(cfg, c1, y) && !Finished(c2)
    requires c3 == Record(cfg, c2, z)
    ensures Feed(cfg, c, [x, y, z]) == c3
  {
    FeedNext(cfg, c, [], c, x, c1);
    assert [] + [x] == [x];
    FeedNext(cfg, c, [x], c1, y, c2);
    assert [x] + [y] == [x, y];
    FeedNext(cfg, c, [x, y], c2, z, c3);
    assert [x, y] + [z] == [x, y, z];
  }

  /** The example after its first outcome: the stop was reopened by the whole grant. */
  function Reopened(grant: nat): Ctrl {
    Ctrl(0, grant, 0, 1, 1.0, 1.0, [Entry(0, 1, Implementation, SOFT)], [], Pending(Repair, 0, Some(Repairing), 2))
  }

  lemma FirstOutcome(grant: nat)
    requires grant > 0
    ensures !Finished(New(SECOND).(reserve := grant))
    ensures Record(SECOND, New(SECOND).(reserve := grant), SOFT) == Reopened(grant)
  {
  }

  /** One extra attempt sends the objective failure up a tier; two extra repair it in place. */
  lemma SecondOutcome()
    ensures Record(SECOND, Reopened(1), HARD).tier == 1 && !Finished(Record(SECOND, Reopened(1), HARD))
    ensures Record(SECOND, Reopened(2), HARD).tier == 0 && !Finished(Record(SECOND, Reopened(2), HARD))
    ensures |Record(SECOND, Reopened(1), HARD).history| == |Record(SECOND, Reopened(2), HARD).history| == 2
  {
  }

  /**
   * A second grant is not so harmless: accumulated into one total it is spent
   * at the first stop, and the attempt that ran at tier 1 replays at tier 0.
   */
  lemma SecondGrantRewrites()
    ensures var one := Feed(SECOND, New(SECOND).(reserve := 1), [SOFT, HARD, SOFT]);
            var two := Feed(SECOND, New(SECOND).(reserve := 2), [SOFT, HARD, SOFT]);
            && |one.history| == 3 && one.history[2].tier == 1
            && |two.history| == 3 && two.history[2].tier == 0
  {
    FirstOutcome(1);
    FirstOutcome(2);
    SecondOutcome();
    var a, b := Record(SECOND, Reopened(1), HARD), Record(SECOND, Reopened(2), HARD);
    FeedThree(SECOND, New(SECOND).(reserve := 1), SOFT, HARD, SOFT, Reopened(1), a, Record(SECOND, a, SOFT));
    FeedThree(SECOND, New(SECOND).(reserve := 2), SOFT, HARD, SOFT, Reopened(2), b, Record(SECOND, b, SOFT));
    RecordHistory(SECOND, a, SOFT);
    RecordHistory(SECOND, b, SOFT);
  }

  // ---- termination and cost ----

  /** The tier is within its limits and no tier has had more attempts than its cap. */
  ghost predicate Bounded(cfg: Config, c: Ctrl, grant: nat) {
    && cfg.start <= c.tier <= cfg.maximum && c.extra + c.reserve == grant
    && c.attempts <= PerTier(cfg, c.tier, c.extra)
    && (!Finished(c) ==> c.attempts < PerTier(cfg, c.tier, c.extra))
    && |c.history| <= (c.tier - cfg.start) * (LowCap(cfg) + grant) + c.attempts
  }

  lemma NewBounded(cfg: Config, grant: nat)
    requires cfg.start <= cfg.maximum
    ensures Bounded(cfg, New(cfg).(reserve := grant), grant)
    ensures Bounded(cfg, Replay(cfg, [], grant), grant)
  {
  }

  lemma OneMoreTier(tiers: int, cap: nat, history: nat, attempts: nat)
    requires history <= tiers * cap + attempts && attempts <= cap
    ensures history <= (tiers + 1) * cap
  {
  }

  lemma RecordBounded(cfg: Config, c: Ctrl, o: Outcome, grant: nat)
    requires Bounded(cfg, c, grant) && !Finished(c)
    ensures Bounded(cfg, Record(cfg, c, o), grant)
  {
    DecideBounded(cfg, Charged(c, o), o, grant);
    hide Decide;
  }

  /** Bounded but for the attempt just charged: it may have reached the cap. */
  ghost predicate Spent(cfg: Config, d: Ctrl, grant: nat) {
    && cfg.start <= d.tier <= cfg.maximum && d.extra + d.reserve == grant
    && d.attempts <= PerTier(cfg, d.tier, d.extra)
    && |d.history| <= (d.tier - cfg.start) * (LowCap(cfg) + grant) + d.attempts
  }

  lemma DecideBounded(cfg: Config, d: Ctrl, o: Outcome, grant: nat)
    requires Spent(cfg, d, grant)
    ensures var c := Decide(cfg, d, o); Bounded(cfg, c, grant) || (Finished(c) && Spent(cfg, c, grant))
  {
    if d.tier < cfg.maximum {
      OneMoreTier(d.tier - cfg.start, LowCap(cfg) + grant, |d.history|, d.attempts);
    }
  }

  /** The tier never falls, and rises by one only after an objective failure. */
  lemma TierClimbs(cfg: Config, c: Ctrl, o: Outcome)
    ensures var c' := Record(cfg, c, o);
            c'.tier == c.tier || (c'.tier == c.tier + 1 && o.objective && !o.passed && c.tier < cfg.maximum)
  {
  }

  lemma {:induction false} FedBounded(cfg: Config, c: Ctrl, os: seq<Outcome>, grant: nat)
    requires Bounded(cfg, c, grant)
    ensures Bounded(cfg, Feed(cfg, c, os), grant)
    decreases |os|
  {
    if os != [] {
      FedBounded(cfg, c, os[..|os| - 1], grant);
      var before := Feed(cfg, c, os[..|os| - 1]);
      if !Finished(before) { RecordBounded(cfg, before, os[|os| - 1], grant); }
    }
  }

  /** However the outcomes fall, only so many attempts are ever recorded. */
  lemma AttemptsBounded(cfg: Config, os: seq<Outcome>, grant: nat)
    requires cfg.start <= cfg.maximum
    ensures |Live(cfg, os, grant).history| <=
              (cfg.maximum - cfg.start) * (LowCap(cfg) + grant) + Budget(cfg) + grant
  {
    var c := Live(cfg, os, grant);
    NewBounded(cfg, grant);
    FedBounded(cfg, Replay(cfg, [], grant), os, grant);
    if c.tier < cfg.maximum {
      OneMoreTier(c.tier - cfg.start, LowCap(cfg) + grant, |c.history|, c.attempts);
      Widen(c.tier + 1 - cfg.start, cfg.maximum - cfg.start, LowCap(cfg) + grant);
    }
  }

  lemma Widen(a: int, b: int, cap: nat)
    requires a <= b
    ensures a * cap <= b * cap
  {
  }

  /** So a long enough run of attempts always ends. */
  lemma EscalationTerminates(cfg: Config, os: seq<Outcome>, grant: nat)
    requires cfg.start <= cfg.maximum
    requires |os| > (cfg.maximum - cfg.start) * (LowCap(cfg) + grant) + Budget(cfg) + grant
    ensures Finished(Live(cfg, os, grant))
  {
    AttemptsBounded(cfg, os, grant);
    FeedRecords(cfg, Replay(cfg, [], grant), os);
  }

  /** All estimates are known and at most `most`. */
  ghost predicate Estimated(cfg: Config, most: real) {
    most >= 0.0 && forall t :: cfg.start <= t <= cfg.maximum ==> t in cfg.estimates && 0.0 <= cfg.estimates[t] <= most
  }

  ghost predicate Affordable(cfg: Config, c: Ctrl, most: real) {
    && c.tier in cfg.estimates
    && c.spent <= cfg.maxCost + EPS + (if c.extra > 0 then most else 0.0)
    && (!Finished(c) ==>
          || c.spent + cfg.estimates[c.tier] <= cfg.maxCost + EPS
          || (c.extra > 0 && c.reserve == 0 && c.spent <= cfg.maxCost + EPS))
    && (c.reserve > 0 ==> c.extra == 0)
  }

  lemma RecordAffordable(cfg: Config, c: Ctrl, o: Outcome, most: real, grant: nat)
    requires Estimated(cfg, most) && Bounded(cfg, c, grant) && Affordable(cfg, c, most) && !Finished(c)
    requires 0.0 <= o.cost <= cfg.estimates[c.tier]
    ensures Affordable(cfg, Record(cfg, c, o), most)
  {
    RecordBounded(cfg, c, o, grant);
  }

  /** Each recorded attempt costs at most the estimate of the tier it ran at. */
  ghost predicate WithinEstimates(cfg: Config, history: seq<Entry>) {
    forall i :: 0 <= i < |history| ==>
      history[i].tier in cfg.estimates && 0.0 <= history[i].outcome.cost <= cfg.estimates[history[i].tier]
  }

  lemma {:induction false} FedAffordable(cfg: Config, c: Ctrl, os: seq<Outcome>, most: real, grant: nat)
    requires Estimated(cfg, most) && Bounded(cfg, c, grant) && Affordable(cfg, c, most)
    requires WithinEstimates(cfg, Feed(cfg, c, os).history)
    ensures Affordable(cfg, Feed(cfg, c, os), most)
    decreases |os|
  {
    if os != [] {
      var front, last := os[..|os| - 1], os[|os| - 1];
      var before := Feed(cfg, c, front);
      FedBounded(cfg, c, front, grant);
      if !Finished(before) {
        var after := Record(cfg, before, last);
        RecordHistory(cfg, before, last);
        forall i | 0 <= i < |before.history|
          ensures before.history[i].tier in cfg.estimates
                  && 0.0 <= before.history[i].outcome.cost <= cfg.estimates[before.history[i].tier]
        {
          assert after.history[i] == before.history[i];
        }
        FedAffordable(cfg, c, front, most, grant);
        RecordAffordable(cfg, before, last, most, grant);
      } else {
        FedAffordable(cfg, c, front, most, grant);
      }
    }
  }

  /** Spending stays under the ceiling, and with a grant goes over by at most one attempt's estimate. */
  lemma SpendBounded(cfg: Config, os: seq<Outcome>, most: real, grant: nat)
    requires cfg.start <= cfg.maximum && cfg.maxCost >= 0.0 && Estimated(cfg, most)
    requires WithinEstimates(cfg, Live(cfg, os, grant).history)
    ensures Live(cfg, os, grant).spent <= cfg.maxCost + EPS + (if grant > 0 then most else 0.0)
  {
    NewBounded(cfg, grant);
    FedBounded(cfg, Replay(cfg, [], grant), os, grant);
    FedAffordable(cfg, Replay(cfg, [], grant), os, most, grant);
  }

  // ---- the controller object ----

  class EscalationController {
    const cfg: Config
    var tier: int
    var extra: nat
    var reserve: nat
    var attempts: nat
    var spent: real
    var spentAtTier: real
    var history: seq<Entry>
    var escalations: seq<Escalated>
    var pending: Pending

    ghost function View(): Ctrl
      reads this
    {
      Ctrl(tier, extra, reserve, attempts, spent, spentAtTier, history, escalations, pending)
    }

    constructor (cfg: Config)
      ensures this.cfg == cfg && View() == New(cfg)
    {
      this.cfg := cfg;
      tier, extra, reserve, attempts := cfg.start, 0, 0, 0;
      spent, spentAtTier := 0.0, 0.0;
      history, escalations := [], [];
      pending := if Fits(cfg, 0.0, cfg.start) then Pending(Attempt, cfg.start, Some(Implementation), 1)
                 else Pending(Stop, cfg.start, None, 0);
    }

    method SetPending(step: Step, kind: Option<Kind>)
      modifies this`pending
      ensures View() == Act(old(View()), step, kind)
    {
      var next := if step == Attempt || step == Repair || step == Escalate then 1 else 0;
      pending := Pending(step, tier, kind, attempts + next);
    }

    method GrantExtra(n: nat)
      modifies this
      ensures View() == Grant(old(View()), n)
    {
      extra := extra + n;
      if pending.step == Stop { SetPending(Repair, Some(Repairing)); }
    }

    method SpendReserved()
      modifies this
      ensures View() == SpendReserve(old(View()))
    {
      if reserve > 0 && pending.step == Stop {
        var n := reserve;
        reserve := 0;
        GrantExtra(n);
      }
    }

    method Climb()
      modifies this
      ensures View() == TryEscalate(cfg, old(View()))
    {
      var target := tier + 1;
      if !Fits(cfg, spent, target) {
        SetPending(Stop, None);
        return;
      }
      escalations := escalations + [Escalated(tier, target, attempts, spent)];
      tier := target;
      attempts := 0;
      spentAtTier := 0.0;
      SetPending(Escalate, Some(Implementation));
    }

    method DecideNext(o: Outcome)
      modifies this
      ensures View() == Decide(cfg, old(View()), o)
    {
      if o.passed { SetPending(Done, None); return; }
      if spent >= cfg.maxCost - EPS { SetPending(Stop, None); return; }
      var canRepair := attempts < PerTier(cfg, tier, extra);
      var canEscalate := o.objective && tier < cfg.maximum;
      if canRepair {
        var here, above := Estimate(cfg, tier), Estimate(cfg, tier + 1);
        if canEscalate && here.Some? && above.Some? && spentAtTier + here.value > above.value { Climb(); return; }
        if !Fits(cfg, spent, tier) { SetPending(Stop, None); return; }
        SetPending(Repair, Some(Repairing));
        return;
      }
      if canEscalate { Climb(); return; }
      SetPending(Stop, None);
    }

    method Charge(o: Outcome)
      modifies this
      ensures View() == Charged(old(View()), o)
    {
      var kind := if pending.kind.Some? then pending.kind.value else Implementation;
      attempts := attempts + 1;
      spent := spent + o.cost;
      spentAtTier := spentAtTier + o.cost;
      history := history + [Entry(tier, attempts, kind, o)];
    }

    /** Refused, with nothing changed, when finished or when the cost is negative. */
    method RecordOutcome(o: Outcome) returns (ok: bool)
      modifies this
      ensures ok <==> Accepts(old(View()), o)
      ensures View() == if ok then Record(cfg, old(View()), o) else old(View())
    {
      if pending.step == Stop || pending.step == Done || o.cost < 0.0 { return false; }
      Charge(o);
      DecideNext(o);
      SpendReserved();
      return true;
    }

    /** `replay` on a new controller. */
    method ReplayAttempts(os: seq<Outcome>, grant: nat)
      requires View() == New(cfg) && forall i :: 0 <= i < |os| ==> os[i].cost >= 0.0
      modifies this
      ensures View() == Replay(cfg, os, grant)
    {
      hide New, Feed, Record;
      reserve := grant;
      var i := 0;
      NothingFed(cfg, New(cfg).(reserve := grant), os);
      while i < |os|
        invariant 0 <= i <= |os|
        invariant View() == Feed(cfg, New(cfg).(reserve := grant), os[..i])
      {
        FedNext(cfg, New(cfg).(reserve := grant), os, i);
        if pending.step == Stop || pending.step == Done {
          FinishedStaysFed(cfg, New(cfg).(reserve := grant), os, i);
          break;
        }
        var ok := RecordOutcome(os[i]);
        i := i + 1;
      }
      assert os[..|os|] == os;
      SpendReserved();
    }
  }

  lemma NothingFed(cfg: Config, c: Ctrl, os: seq<Outcome>)
    ensures Feed(cfg, c, os[..0]) == c
  {
  }

  lemma FedNext(cfg: Config, c: Ctrl, os: seq<Outcome>, i: nat)
    requires i < |os|
    ensures var b := Feed(cfg, c, os[..i]);
            Feed(cfg, c, os[..i + 1]) == if Finished(b) then b else Record(cfg, b, os[i])
  {
    assert os[..i + 1] == os[..i] + [os[i]];
    FeedSnoc(cfg, c, os[..i], os[i]);
  }

  lemma {:induction false} FinishedStaysFed(cfg: Config, c: Ctrl, os: seq<Outcome>, i: nat)
    requires i <= |os| && Finished(Feed(cfg, c, os[..i]))
    ensures Feed(cfg, c, os) == Feed(cfg, c, os[..i])
    decreases |os|
  {
    if i < |os| {
      assert os[..|os| - 1][..i] == os[..i];
      FinishedStaysFed(cfg, c, os[..|os| - 1], i);
    } else {
      assert os[..i] == os;
    }
  }
}
