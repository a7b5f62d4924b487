/** A second owner grant: exactly when replaying the larger total keeps the recorded path (routing/escalation.py). */
module EscalationGrants {
  import opened Wrappers
  import opened Escalation

  /** Another attempt here is projected to cost more than one a tier up. */
  predicate Projected(cfg: Config, c: Ctrl) {
    var here, above := Estimate(cfg, c.tier), Estimate(cfg, c.tier + 1);
    here.Some? && above.Some? && c.spentAtTier + here.value > above.value
  }

  /** With the grant already spent, the attempt cap alone sends the unit up a tier. */
  predicate ForcedClimb(cfg: Config, c: Ctrl, o: Outcome) {
    var d := Charged(c, o);
    && c.reserve == 0 && !o.passed && o.objective && d.spent < cfg.maxCost - EPS
    && d.tier < cfg.maximum && d.attempts >= PerTier(cfg, d.tier, d.extra)
    && Fits(cfg, d.spent, d.tier + 1) && !Projected(cfg, d)
  }

  /** The same controller under a larger total. */
  function Raised(c: Ctrl, more: nat): Ctrl {
    if c.reserve > 0 then c.(reserve := c.reserve + more) else c.(extra := c.extra + more)
  }

  function Begin(cfg: Config, grant: nat): Ctrl {
    New(cfg).(reserve := grant)
  }

  // ---- one step ----

  lemma DecideRaised(cfg: Config, d: Ctrl, o: Outcome, more: nat)
    requires !(d.reserve == 0 && !o.passed && o.objective && d.spent < cfg.maxCost - EPS && d.tier < cfg.maximum
               && d.attempts >= PerTier(cfg, d.tier, d.extra) && Fits(cfg, d.spent, d.tier + 1) && !Projected(cfg, d))
    requires Decide(cfg, d, o).pending.step != Stop || d.reserve > 0
    ensures Decide(cfg, Raised(d, more), o) == Raised(Decide(cfg, d, o), more)
  {
  }

  lemma HistoryRaised(cfg: Config, c: Ctrl, o: Outcome, more: nat)
    ensures Record(cfg, Raised(c, more), o).history == Record(cfg, c, o).history
  {
    var d := Charged(c, o);
    assert Charged(Raised(c, more), o) == Raised(d, more);
    DecideKeepsHistory(cfg, d, o);
    DecideKeepsHistory(cfg, Raised(d, more), o);
  }

  lemma DecideKeepsHistory(cfg: Config, d: Ctrl, o: Outcome)
    ensures SpendReserve(Decide(cfg, d, o)).history == d.history
  {
  }

  /** Short of a forced climb, the larger total decides alike for as long as the controller goes on. */
  lemma StepRaised(cfg: Config, c: Ctrl, o: Outcome, more: nat)
    requires !ForcedClimb(cfg, c, o) && !Finished(Record(cfg, c, o))
    ensures Record(cfg, Raised(c, more), o) == Raised(Record(cfg, c, o), more)
  {
    var d := Charged(c, o);
    assert Charged(Raised(c, more), o) == Raised(d, more);
    DecideRaised(cfg, d, o, more);
  }

  /** A forced climb is what the larger total avoids: the unit stays at its tier. */
  lemma StepForced(cfg: Config, c: Ctrl, o: Outcome, more: nat)
    requires ForcedClimb(cfg, c, o) && more > 0 && c.attempts < PerTier(cfg, c.tier, c.extra)
    ensures Record(cfg, c, o).tier == c.tier + 1 && Record(cfg, Raised(c, more), o).tier == c.tier
  {
  }

  // ---- a whole history ----

  /** No attempt before `n` climbed only because of the cap. */
  ghost predicate Unforced(cfg: Config, grant: nat, os: seq<Outcome>, n: nat)
    requires n <= |os|
  {
    forall i :: 0 <= i < n ==> !ForcedAt(cfg, grant, os, i)
  }

  predicate ForcedAt(cfg: Config, grant: nat, os: seq<Outcome>, i: nat)
    requires i < |os|
  {
    ForcedClimb(cfg, Feed(cfg, Begin(cfg, grant), os[..i]), os[i])
  }

  lemma {:induction false} PathsAgree(cfg: Config, grant: nat, more: nat, os: seq<Outcome>)
    requires grant > 0 && !Finished(Feed(cfg, Begin(cfg, grant), os)) && Unforced(cfg, grant, os, |os|)
    ensures Feed(cfg, Begin(cfg, grant + more), os) == Raised(Feed(cfg, Begin(cfg, grant), os), more)
    decreases |os|
  {
    if os != [] {
      var n := |os| - 1;
      var front := os[..n];
      var before := Feed(cfg, Begin(cfg, grant), front);
      assert !ForcedAt(cfg, grant, os, n);
      forall i | 0 <= i < n ensures !ForcedAt(cfg, grant, front, i) {
        assert front[..i] == os[..i] && !ForcedAt(cfg, grant, os, i);
      }
      assert !Finished(before);
      PathsAgree(cfg, grant, more, front);
      StepRaised(cfg, before, os[n], more);
    }
  }

  /** Each entry was recorded at the tier the controller stood at. */
  lemma {:induction false} EntryTier(cfg: Config, c: Ctrl, os: seq<Outcome>, j: nat)
    requires c.history == [] && j < |Feed(cfg, c, os).history|
    ensures j < |os| && Feed(cfg, c, os).history[j].tier == Feed(cfg, c, os[..j]).tier
    decreases |os|
  {
    var front, last := os[..|os| - 1], os[|os| - 1];
    var before := Feed(cfg, c, front);
    FeedRecords(cfg, c, front);
    if !Finished(before) { RecordHistory(cfg, before, last); }
    if j < |before.history| {
      EntryTier(cfg, c, front, j);
      assert front[..j] == os[..j];
      if !Finished(before) { assert Record(cfg, before, last).history[..|before.history|][j] == before.history[j]; }
    } else {
      assert os[..j] == front;
    }
  }

  /** Before its last attempt a recorded history has the controller still going. */
  lemma GoingBefore(cfg: Config, c: Ctrl, os: seq<Outcome>, i: nat)
    requires c.history == [] && |Feed(cfg, c, os).history| == |os| && i < |os|
    ensures !Finished(Feed(cfg, c, os[..i])) && |Feed(cfg, c, os[..i]).history| == i
  {
    FeedRecords(cfg, c, os[..i]);
    if Finished(Feed(cfg, c, os[..i])) {
      FinishedStaysFed(cfg, c, os, i);
      assert false;
    }
  }

  lemma PrefixUnforced(cfg: Config, grant: nat, os: seq<Outcome>, n: nat)
    requires n <= |os| && Unforced(cfg, grant, os, n)
    ensures Unforced(cfg, grant, os[..n], n)
  {
    forall i | 0 <= i < n ensures !ForcedAt(cfg, grant, os[..n], i) {
      assert os[..n][..i] == os[..i] && !ForcedAt(cfg, grant, os, i);
    }
  }

  lemma SurvivesUnforced(cfg: Config, grant: nat, more: nat, os: seq<Outcome>)
    requires grant > 0 && os != [] && |Feed(cfg, Begin(cfg, grant), os).history| == |os|
    requires Unforced(cfg, grant, os, |os| - 1)
    ensures Feed(cfg, Begin(cfg, grant + more), os).history == Feed(cfg, Begin(cfg, grant), os).history
  {
    var n := |os| - 1;
    GoingBefore(cfg, Begin(cfg, grant), os, n);
    PrefixUnforced(cfg, grant, os, n);
    PathsAgree(cfg, grant, more, os[..n]);
    HistoryRaised(cfg, Feed(cfg, Begin(cfg, grant), os[..n]), os[n], more);
  }

  /** The first forced climb makes the next recorded attempt run at another tier, or not at all. */
  lemma DivergesAt(cfg: Config, grant: nat, more: nat, os: seq<Outcome>, i: nat)
    requires cfg.start <= cfg.maximum && grant > 0 && more > 0 && i < |os| - 1
    requires |Feed(cfg, Begin(cfg, grant), os).history| == |os|
    requires ForcedAt(cfg, grant, os, i) && Unforced(cfg, grant, os, i)
    ensures Feed(cfg, Begin(cfg, grant + more), os).history != Feed(cfg, Begin(cfg, grant), os).history
  {
    var a, b := Begin(cfg, grant), Begin(cfg, grant + more);
    var c := Feed(cfg, a, os[..i]);
    GoingBefore(cfg, a, os, i);
    PrefixUnforced(cfg, grant, os, i);
    PathsAgree(cfg, grant, more, os[..i]);
    NewBounded(cfg, grant);
    FedBounded(cfg, a, os[..i], grant);
    StepForced(cfg, c, os[i], more);
    assert os[..i + 1][..i] == os[..i];
    EntryTier(cfg, a, os, i + 1);
    if |Feed(cfg, b, os).history| > i + 1 { EntryTier(cfg, b, os, i + 1); }
  }

  lemma {:induction false} FirstForced(cfg: Config, grant: nat, os: seq<Outcome>, n: nat) returns (i: nat)
    requires n <= |os| && !Unforced(cfg, grant, os, n)
    ensures i < n && ForcedAt(cfg, grant, os, i) && Unforced(cfg, grant, os, i)
  {
    if Unforced(cfg, grant, os, n - 1) { i := n - 1; } else { i := FirstForced(cfg, grant, os, n - 1); }
  }

  /** What a live controller recorded is what feeding it again from the same start records. */
  lemma LiveIsFed(cfg: Config, os: seq<Outcome>, grant: nat)
    requires Fits(cfg, 0.0, cfg.start)
    ensures var h := Live(cfg, os, grant).history;
            Feed(cfg, Begin(cfg, grant), OutcomesOf(h)).history == h
  {
    assert Replay(cfg, [], grant) == Begin(cfg, grant);
    FeedRecords(cfg, Begin(cfg, grant), os);
  }

  /**
   * A second grant, accumulated into the total, keeps every recorded attempt
   * exactly when the first attempt fitted the ceiling and no attempt but the
   * last was sent up a tier by the cap alone after the first grant was spent.
   */
  lemma SecondGrantExactly(cfg: Config, os: seq<Outcome>, grant: nat, more: nat)
    requires cfg.start <= cfg.maximum && grant > 0 && more > 0
    ensures var h := Live(cfg, os, grant).history;
            Replay(cfg, OutcomesOf(h), grant + more).history == h <==>
            h == [] || (Fits(cfg, 0.0, cfg.start) && Unforced(cfg, grant, OutcomesOf(h), |h| - 1))
  {
    var h := Live(cfg, os, grant).history;
    var hs := OutcomesOf(h);
    if !Fits(cfg, 0.0, cfg.start) {
      FinishedStays(cfg, Begin(cfg, grant + more), hs);
    } else if h != [] {
      LiveIsFed(cfg, os, grant);
      if Unforced(cfg, grant, hs, |h| - 1) {
        SurvivesUnforced(cfg, grant, more, hs);
      } else {
        var i := FirstForced(cfg, grant, hs, |h| - 1);
        DivergesAt(cfg, grant, more, hs, i);
      }
    } else {
      FeedRecords(cfg, Begin(cfg, grant + more), hs);
    }
  }
}
