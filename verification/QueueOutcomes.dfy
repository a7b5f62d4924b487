/** What one queue call comes to, and what good weather does for the whole queue (merge_queue/queue.py). */
module QueueOutcomes {
  import opened Wrappers
  import opened Ordering
  import opened Text
  import opened CommitGraph
  import opened Approvals
  import opened QueueRuns
  import MQ = MergeQueue

  // ---- processing ----

  /** The target exists and the branch still stands where it was verified and recorded. */
  predicate Unmoved(g: Git, target: string, item: MQ.Item) {
    && target in g.refs && item.branch in g.refs && g.refs[item.branch] == item.tip == item.verified
  }

  predicate Mergeable(w: MQ.Weather) {
    w.clean && w.mergeOk
  }

  predicate CheckoutClean(w: MQ.Weather) {
    w.checkedOut ==> !w.dirty
  }

  /** The commit a merge leads to. */
  function Joined(g: Git, target: string, item: MQ.Item, w: MQ.Weather): Oid
    requires Unmoved(g, target, item)
  {
    var t := g.refs[target];
    if t in g.ancestors && item.tip in g.ancestors[t] then t
    else if item.tip in g.ancestors && t in g.ancestors[item.tip] then item.tip
    else w.newId
  }

  /** The outcome of an uninterrupted processing, each of the five exactly. */
  ghost predicate OutcomeIs(g: Git, target: string, item: MQ.Item, w: MQ.Weather, outcome: MQ.Outcome) {
    var reaches := Unmoved(g, target, item) && Mergeable(w) && w.gates;
    && (outcome == MQ.Merged <==> reaches && CheckoutClean(w) && Tip(w.during, target) == Tip(g, target))
    && (outcome == MQ.TargetDirty <==> reaches && !CheckoutClean(w))
    && (outcome == MQ.GateFailed <==> Unmoved(g, target, item) && Mergeable(w) && !w.gates)
    && (outcome == MQ.Conflict <==> Unmoved(g, target, item) && !Mergeable(w))
    && (outcome == MQ.Stale <==> !Unmoved(g, target, item)
                                 || (reaches && CheckoutClean(w) && Tip(w.during, target) != Tip(g, target)))
  }

  /** What the repository's refs are afterwards: only a merge moves one, and only the target. */
  ghost predicate RefsAre(g: Git, target: string, item: MQ.Item, w: MQ.Weather, outcome: MQ.Outcome,
                          refs: map<string, Oid>) {
    if outcome == MQ.Merged && Unmoved(g, target, item) then refs == w.during.refs[target := Joined(g, target, item, w)]
    else if Unmoved(g, target, item) && Mergeable(w) && w.gates then refs == w.during.refs
    else refs == g.refs
  }

  lemma ProcessOutcome(q: MQ.Queue, g: Git, target: string, w: MQ.Weather)
    requires WellFormed(g) && q.items != []
    ensures var p := MQ.ProcessSection(q, g, target, w, None); var item := q.items[0];
            && |p.queue.history| == |q.history| + 1 && p.queue.history[..|q.history|] == q.history
            && var e := p.queue.history[|q.history|];
               && e.item == item && OutcomeIs(g, target, item, w, e.outcome)
               && RefsAre(g, target, item, w, e.outcome, p.git.refs)
               && p.queue.items == (if e.outcome == MQ.TargetDirty then q.items else q.items[1..])
               && p.queue.consumed == q.consumed
               && (e.outcome == MQ.Merged ==>
                     && Unmoved(g, target, item) && e.previous == Some(g.refs[target])
                     && e.merged == Some(Joined(g, target, item, w)))
               && (e.outcome != MQ.Merged ==> e.merged == e.previous == None)
  {
  }

  // ---- a whole queue in good weather ----

  /** Nothing goes wrong while the step runs, and nobody else moves a branch. */
  ghost predicate Fair(s: Sys, t: Timed) {
    && t.act.Process? && t.act.stop == None
    && var w := t.act.weather;
       Mergeable(w) && w.gates && CheckoutClean(w) && w.during.refs == s.git.refs
  }

  /** Every waiting item's branch stands where it was recorded, and is not the target. */
  ghost predicate Standing(s: Sys, target: string) {
    && target in s.git.refs
    && forall i :: 0 <= i < |s.queue.items| ==>
         s.queue.items[i].branch != target && Unmoved(s.git, target, s.queue.items[i])
  }

  ghost predicate AllFair(s: Sys, target: string, ts: seq<Timed>) {
    ts == [] || (AllFair(s, target, ts[..|ts| - 1]) && Fair(RunAll(s, target, ts[..|ts| - 1]), ts[|ts| - 1]))
  }

  /** Item `i` is the `i`-th settled since, as merged, and the target has its head. */
  ghost predicate MergedAt(s: Sys, e: Sys, target: string, i: nat) {
    var k := |s.queue.history| + i;
    && i < |s.queue.items| && k < |e.queue.history| && target in e.git.refs
    && e.queue.history[k].item == s.queue.items[i] && e.queue.history[k].outcome == MQ.Merged
    && Reaches(e.git, e.git.refs[target], s.queue.items[i].verified)
  }

  /** The first `n` items are merged, in order; the target has their heads. */
  ghost predicate Landed(s: Sys, e: Sys, target: string, n: nat) {
    && n <= |s.queue.items| && e.queue.items == s.queue.items[n..]
    && |e.queue.history| == |s.queue.history| + n && e.queue.history[..|s.queue.history|] == s.queue.history
    && target in e.git.refs
    && forall i :: 0 <= i < n ==> MergedAt(s, e, target, i)
  }

  lemma FairProcess(s: Sys, target: string, t: Timed)
    requires Inv(s) && Enabled(s, target, t) && Fair(s, t) && Standing(s, target) && s.queue.items != []
    ensures var s', p := Next(s, target, t), MQ.ProcessSection(s.queue, s.git, target, t.act.weather, None);
            s'.queue == p.queue && s'.git == p.git
    ensures MQ.Judge(s.git, target, s.queue.items[0], t.act.weather).outcome == MQ.Merged
  {
    hide Inv, Enabled, Continues, DuringContinues, MoveBy;
    WellFormedGit(s);
    ProcessOutcome(s.queue, s.git, target, t.act.weather);
  }

  lemma FairEnabled(s: Sys, target: string, t: Timed)
    requires Inv(s) && Enabled(s, target, t) && Fair(s, t)
    ensures WellFormed(s.git) && t.act.weather.newId !in s.git.ancestors && DuringContinues(s, target, t.act.weather)
  {
  }

  lemma FairReaches(s: Sys, target: string, t: Timed)
    requires Inv(s) && Enabled(s, target, t) && Fair(s, t) && Standing(s, target) && s.queue.items != []
    ensures var v := MQ.Judge(s.git, target, s.queue.items[0], t.act.weather);
            && v.outcome == MQ.Merged && Continues(s.git, v.git) && target in v.git.refs
            && Reaches(v.git, v.git.refs[target], s.git.refs[target])
            && Reaches(v.git, v.git.refs[target], s.queue.items[0].verified)
  {
    FairProcess(s, target, t);
    FairEnabled(s, target, t);
    JudgeContinues(s, target, t.act.weather);
    MQ.MoveProvenance(s.git, target, s.queue.items[0], t.act.weather);
  }

  /** What the target already has stays in it. */
  ghost predicate Keeps(g: Git, g': Git, target: string) {
    target in g.refs && target in g'.refs
    && forall x :: Reaches(g, g.refs[target], x) ==> Reaches(g', g'.refs[target], x)
  }

  lemma StillInTarget(g: Git, g': Git, target: string)
    requires target in g.refs && target in g'.refs && WellFormed(g') && Continues(g, g')
    requires Reaches(g', g'.refs[target], g.refs[target])
    ensures Keeps(g, g', target)
  {
    forall x | Reaches(g, g.refs[target], x) ensures Reaches(g', g'.refs[target], x) {
      assert Reaches(g', g.refs[target], x);
      ReachesTransitive(g', g'.refs[target], g.refs[target], x);
    }
  }

  /** The first item is settled as merged, and the target alone has moved. */
  ghost predicate FirstMerged(s: Sys, s': Sys, target: string)
    requires s.queue.items != []
  {
    && s'.queue.items == s.queue.items[1..] && |s'.queue.history| == |s.queue.history| + 1
    && s'.queue.history[..|s.queue.history|] == s.queue.history
    && s'.queue.history[|s.queue.history|].item == s.queue.items[0]
    && s'.queue.history[|s.queue.history|].outcome == MQ.Merged
    && target in s'.git.refs && s'.git.refs == s.git.refs[target := s'.git.refs[target]]
  }

  lemma FairShape(s: Sys, target: string, t: Timed)
    requires Inv(s) && Enabled(s, target, t) && Fair(s, t) && Standing(s, target) && s.queue.items != []
    ensures FirstMerged(s, Next(s, target, t), target)
  {
    hide Inv, Enabled, Next, DuringContinues, WellFormed, Joined;
    var w, item := t.act.weather, s.queue.items[0];
    FairEnabled(s, target, t);
    FairProcess(s, target, t);
    ProcessOutcome(s.queue, s.git, target, w);
    hide MQ.ProcessSection, MQ.Judge;
    assert Next(s, target, t).git.refs == s.git.refs[target := Joined(s.git, target, item, w)];
  }

  lemma StillStanding(s: Sys, s': Sys, target: string)
    requires Standing(s, target) && s.queue.items != [] && FirstMerged(s, s', target)
    ensures Standing(s', target)
  {
    forall i | 0 <= i < |s'.queue.items|
      ensures s'.queue.items[i].branch != target && Unmoved(s'.git, target, s'.queue.items[i])
    {
      assert s'.queue.items[i] == s.queue.items[i + 1];
      assert Unmoved(s.git, target, s.queue.items[i + 1]);
    }
  }

  lemma FairStep(s: Sys, target: string, t: Timed)
    requires Inv(s) && Enabled(s, target, t) && Fair(s, t) && Standing(s, target) && s.queue.items != []
    ensures var s' := Next(s, target, t);
            && Standing(s', target) && FirstMerged(s, s', target) && Keeps(s.git, s'.git, target)
            && Reaches(s'.git, s'.git.refs[target], s.queue.items[0].verified)
  {
    var s', w := Next(s, target, t), t.act.weather;
    FairShape(s, target, t);
    FairProcess(s, target, t);
    FairReaches(s, target, t);
    FairGit(s, target, t);
    hide Inv, Enabled, Next, DuringContinues, Fair, MQ.Judge, MQ.ProcessSection, Reaches, WellFormed;
    hide FirstMerged, Standing;
    StillStanding(s, s', target);
    StillInTarget(s.git, s'.git, target);
  }

  lemma FairGit(s: Sys, target: string, t: Timed)
    requires Inv(s) && Enabled(s, target, t) && Fair(s, t) && Standing(s, target) && s.queue.items != []
    ensures Next(s, target, t).git == MQ.Judge(s.git, target, s.queue.items[0], t.act.weather).git
    ensures WellFormed(Next(s, target, t).git)
  {
    FairProcess(s, target, t);
    FairEnabled(s, target, t);
    hide Inv, Enabled, DuringContinues, Reaches, Next;
    MQ.MoveProvenance(s.git, target, s.queue.items[0], t.act.weather);
  }

  lemma LandedMore(s: Sys, b: Sys, e: Sys, target: string, n: nat)
    requires Landed(s, b, target, n) && b.queue.items != [] && FirstMerged(b, e, target) && Keeps(b.git, e.git, target)
    requires Reaches(e.git, e.git.refs[target], b.queue.items[0].verified)
    ensures Landed(s, e, target, n + 1)
  {
    hide Reaches;
    var h := |s.queue.history|;
    assert e.queue.items == s.queue.items[n..][1..] == s.queue.items[n + 1..];
    assert b.queue.items[0] == s.queue.items[n];
    forall i | 0 <= i < n + 1 ensures MergedAt(s, e, target, i) {
      if i < n { MergedStays(s, b, e, target, i); }
    }
    assert e.queue.history[..h] == e.queue.history[..h + n][..h];
  }

  lemma MergedStays(s: Sys, b: Sys, e: Sys, target: string, i: nat)
    requires MergedAt(s, b, target, i) && b.queue.items != []
    requires FirstMerged(b, e, target) && Keeps(b.git, e.git, target)
    ensures MergedAt(s, e, target, i)
  {
    hide Reaches;
    var k := |s.queue.history| + i;
    assert e.queue.history[k] == e.queue.history[..|b.queue.history|][k] == b.queue.history[k];
  }

  /**
   * In good weather, as many uninterrupted processings as there are waiting
   * items, or fewer, merge that many in order, and the target ends with every one of their heads.
   */
  lemma {:induction false} FairQueueLands(s: Sys, target: string, ts: seq<Timed>)
    requires Inv(s) && Standing(s, target) && Allowed(s, target, ts) && AllFair(s, target, ts)
    requires |ts| <= |s.queue.items|
    ensures var e := RunAll(s, target, ts); Landed(s, e, target, |ts|) && Standing(e, target)
  {
    if ts == [] {
      NothingLanded(s, target);
    } else {
      var front, last := ts[..|ts| - 1], ts[|ts| - 1];
      var b := RunAll(s, target, front);
      FairQueueLands(s, target, front);
      AllRunsKeep(s, target, front);
      hide Inv, Standing, Enabled, Next, Fair, Landed, FirstMerged, Keeps, Reaches;
      StillWaiting(s, b, target, |front|);
      FairStep(b, target, last);
      LandedMore(s, b, Next(b, target, last), target, |front|);
    }
  }

  lemma NothingLanded(s: Sys, target: string)
    requires Standing(s, target)
    ensures Landed(s, s, target, 0)
  {
  }

  lemma StillWaiting(s: Sys, b: Sys, target: string, n: nat)
    requires Landed(s, b, target, n) && n < |s.queue.items|
    ensures b.queue.items != []
  {
  }

  // ---- enqueueing ----

  /** The recorded verification passed for this unit, with a valid handoff and nothing outside its scope. */
  predicate Verified(a: MQ.Admission, head: Oid) {
    match a.verification
    case None => false
    case Some(v) => v.passed && v.unit == a.unit && v.handoffValid && !v.outOfScope && v.head == Some(head)
  }

  /** Someone other than every author approved exactly this head of exactly this unit. */
  predicate Reviewed(a: MQ.Admission, head: Oid) {
    match a.review
    case None => false
    case Some(r) =>
      && r.run == a.run && r.unit == a.unit && r.approved && r.independent && r.head == Some(head)
      && r.reviewer != "" && r.reviewer !in r.authors && r.reviewer != a.author
  }

  /** The approval is approved, unexpired and for merging exactly this head of this plan in the reviewer's session. */
  predicate ApprovedFor(b: Broker, a: MQ.Admission, head: Oid, now: real) {
    && a.approval.Some? && a.approval.value != "" && a.approval.value in b.requests && a.review.Some?
    && var r := b.requests[a.approval.value];
       && r.status == Approved && now < r.expires && r.head == Some(head)
       && r.binding == Binding(a.run, a.unit, "merge", a.plan, a.review.value.session)
  }

  /** Neither the approval nor the unit has been here before. */
  predicate NotQueued(q: MQ.Queue, a: MQ.Admission) {
    && a.approval.Some? && a.approval.value !in q.consumed
    && forall i :: 0 <= i < |q.items| ==>
         q.items[i].request != a.approval.value && !(q.items[i].run == a.run && q.items[i].unit == a.unit)
  }

  ghost predicate MayEnter(q: MQ.Queue, b: Broker, g: Git, target: string, a: MQ.Admission, head: Oid, now: real) {
    && Verified(a, head) && Reviewed(a, head) && IsSha(head) && a.branch in g.refs && g.refs[a.branch] == head
    && target in g.refs && a.diffOk && ApprovedFor(b, a, head, now) && NotQueued(q, a)
  }

  /** An uninterrupted enqueue appends the item and uses up the approval, or changes nothing. */
  lemma EnqueueOutcome(q: MQ.Queue, b: Broker, g: Git, target: string, a: MQ.Admission, now: real)
    ensures var r := MQ.EnqueueSection(q, b, g, target, a, now, None);
            if exists head :: MayEnter(q, b, g, target, a, head, now)
            then && a.verification.Some? && a.verification.value.head.Some? && a.approval.Some?
                 && a.approval.value in b.requests
                 && var head, id := a.verification.value.head.value, a.approval.value;
                    && r.queue.items == q.items + [MQ.Item(a.run, a.unit, a.branch, head, head, a.plan, id)]
                    && r.queue.consumed == q.consumed + [id] && r.queue.history == q.history
                    && r.broker == b.(requests := b.requests[id := b.requests[id].(status := Consumed,
                                                                                  consumedAt := Some(now))])
            else r == MQ.Enqueuing(q, b)
  {
    AdmissibleIs(q, b, g, target, a, now);
    if head :| MayEnter(q, b, g, target, a, head, now) {
      assert MQ.Head(a) == Some(head);
    }
  }

  lemma AdmissibleIs(q: MQ.Queue, b: Broker, g: Git, target: string, a: MQ.Admission, now: real)
    ensures MQ.Admissible(q, b, g, target, a, now) <==> exists head :: MayEnter(q, b, g, target, a, head, now)
  {
    if MQ.Admissible(q, b, g, target, a, now) {
      assert MayEnter(q, b, g, target, a, MQ.Head(a).value, now);
    }
    if head :| MayEnter(q, b, g, target, a, head, now) {
      assert MQ.Head(a) == Some(head);
    }
  }
}
