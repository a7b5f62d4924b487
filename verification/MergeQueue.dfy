/** The merge queue: enqueue with a consumed approval, process with a compare-and-swap (merge_queue/queue.py). */
module MergeQueue {
  import opened Wrappers
  import opened CommitGraph
  import opened Approvals

  datatype Outcome = Merged | Conflict | Stale | GateFailed | TargetDirty

  datatype Item = Item(run: Id, unit: Id, branch: string, tip: Oid, verified: Oid, plan: string, request: Id)

  datatype Entry = Entry(item: Item, outcome: Outcome, merged: Option<Oid>, previous: Option<Oid>)

  datatype Queue = Queue(items: seq<Item>, consumed: seq<Id>, history: seq<Entry>)

  datatype Verification = Verification(passed: bool, unit: Id, handoffValid: bool, outOfScope: bool, head: Option<Oid>)

  datatype Review = Review(run: Id, unit: Id, approved: bool, reviewer: Id, authors: set<Id>, independent: bool,
                           head: Option<Oid>, session: string)

  /** `diffOk` is the outcome of the scope, classification and review-tier checks on the actual diff. */
  datatype Admission = Admission(run: Id, unit: Id, plan: string, branch: string, verification: Option<Verification>,
                                 review: Option<Review>, author: Id, approval: Option<Id>, diffOk: bool)

  // ---- enqueue ----

  predicate VerificationOk(a: Admission) {
    && a.verification.Some? && a.verification.value.passed && a.verification.value.unit == a.unit
    && a.verification.value.handoffValid && !a.verification.value.outOfScope
  }

  predicate ReviewOk(a: Admission) {
    && a.review.Some? && a.review.value.run == a.run && a.review.value.unit == a.unit && a.review.value.approved
    && a.review.value.reviewer != "" && a.review.value.independent
    && a.review.value.reviewer !in a.review.value.authors && (a.author != "" ==> a.review.value.reviewer != a.author)
  }

  function Head(a: Admission): Option<Oid> {
    if a.verification.Some? then a.verification.value.head else None
  }

  function MergeBinding(a: Admission): Binding {
    Binding(a.run, a.unit, "merge", a.plan, if a.review.Some? then a.review.value.session else "")
  }

  predicate Admissible(q: Queue, b: Broker, g: Git, target: string, a: Admission, now: real) {
    && VerificationOk(a) && Head(a).Some? && IsSha(Head(a).value)
    && Tip(g, a.branch) == Head(a)
    && ReviewOk(a) && a.review.value.head == Head(a)
    && Tip(g, target).Some? && a.diffOk
    && Usable(b.requests, a.approval, MergeBinding(a), Head(a), now)
    && a.approval.value !in q.consumed && (forall i :: 0 <= i < |q.items| ==> q.items[i].request != a.approval.value)
    && (forall i :: 0 <= i < |q.items| ==> q.items[i].run != a.run || q.items[i].unit != a.unit)
  }

  function NewItem(a: Admission): Item
    requires a.approval.Some? && Head(a).Some?
  {
    Item(a.run, a.unit, a.branch, Head(a).value, Head(a).value, a.plan, a.approval.value)
  }

  function Enqueued(q: Queue, a: Admission): Queue
    requires a.approval.Some? && Head(a).Some?
  {
    q.(items := q.items + [NewItem(a)], consumed := q.consumed + [a.approval.value])
  }

  // ---- process ----

  /** What the outside does while one item is processed. */
  datatype Weather = Weather(
    clean: bool,             // the dry-run merge check
    mergeOk: bool,           // the real merge
    newId: Oid,              // id of the merge commit, if one is made
    gates: bool,             // the gates on the merged result
    during: Git,             // the repository when the target is about to move
    checkedOut: bool, dirty: bool)

  /** What processing the first item comes to, and the repository afterwards. */
  datatype Verdict = Verdict(outcome: Outcome, git: Git, merged: Option<Oid>, previous: Option<Oid>)

  /** The target may be taken to the merged commit: nobody moved it and its checkout is clean. */
  function MoveTarget(g: Git, target: string, expected: Oid, merged: Oid, w: Weather): Verdict {
    if w.checkedOut && w.dirty then Verdict(TargetDirty, g, None, None)
    else if Tip(g, target) != Some(expected) then Verdict(Stale, g, None, None)
    else Verdict(Merged, g.(refs := g.refs[target := merged]), Some(merged), Some(expected))
  }

  function Judge(g: Git, target: string, item: Item, w: Weather): Verdict
    requires Tip(g, target).Some? ==> Tip(g, target).value in g.ancestors
    requires Tip(g, item.branch).Some? ==> Tip(g, item.branch).value in g.ancestors
  {
    var t := Tip(g, target);
    if t.None? || Tip(g, item.branch) != Some(item.tip) || item.tip != item.verified then Verdict(Stale, g, None, None)
    else if !w.clean || !w.mergeOk then Verdict(Conflict, g, None, None)
    else if !w.gates then Verdict(GateFailed, WithMerge(g, t.value, item.tip, w.newId), None, None)
    else MoveTarget(w.during, target, t.value, MergeResult(g, t.value, item.tip, w.newId), w)
  }

  function Finish(q: Queue, v: Verdict): Queue
    requires q.items != []
  {
    var items := if v.outcome == TargetDirty then q.items else q.items[1..];
    q.(items := items, history := q.history + [Entry(q.items[0], v.outcome, v.merged, v.previous)])
  }

  // ---- the two locked sections, with their crash points ----

  /** The process dies before its `n`-th durable write of the section. */
  predicate Cut(stop: Option<nat>, n: nat) {
    stop.Some? && stop.value < n
  }

  datatype Enqueuing = Enqueuing(queue: Queue, broker: Broker)

  /** Enqueueing saves the broker, then the queue. */
  function EnqueueSection(q: Queue, b: Broker, g: Git, target: string, a: Admission, now: real, stop: Option<nat>)
    : Enqueuing
  {
    if !Admissible(q, b, g, target, a, now) || Cut(stop, 1) then Enqueuing(q, b)
    else Enqueuing(if Cut(stop, 2) then q else Enqueued(q, a), Consume(b, a.approval, MergeBinding(a), Head(a), now))
  }

  datatype Processing = Processing(queue: Queue, git: Git)

  /** Processing moves the target, if it comes to that, then saves the queue. */
  ghost function ProcessSection(q: Queue, g: Git, target: string, w: Weather, stop: Option<nat>): Processing
    requires WellFormed(g)
  {
    if q.items == [] then Processing(q, g)
    else
      var v := Judge(g, target, q.items[0], w);
      if v.outcome == Merged && Cut(stop, 1) then Processing(q, w.during)
      else Processing(if Cut(stop, if v.outcome == Merged then 2 else 1) then q else Finish(q, v), v.git)
  }

  // ---- conservation ----

  function SettledIds(history: seq<Entry>): seq<Id> {
    if history == [] then []
    else
      var last := history[|history| - 1];
      SettledIds(history[..|history| - 1]) + (if last.outcome == TargetDirty then [] else [last.item.request])
  }

  function WaitingIds(items: seq<Item>): seq<Id> {
    seq(|items|, i requires 0 <= i < |items| => items[i].request)
  }

  /** Settled ids followed by waiting ids are the consumed ids, in order. */
  ghost predicate Conserved(q: Queue) {
    SettledIds(q.history) + WaitingIds(q.items) == q.consumed
  }

  lemma EnqueueConserves(q: Queue, a: Admission)
    requires Conserved(q) && a.approval.Some? && Head(a).Some?
    ensures Conserved(Enqueued(q, a))
  {
    var q' := Enqueued(q, a);
    assert WaitingIds(q'.items) == WaitingIds(q.items) + [a.approval.value];
  }

  lemma FinishConserves(q: Queue, v: Verdict)
    requires Conserved(q) && q.items != []
    ensures Conserved(Finish(q, v))
  {
    var q' := Finish(q, v);
    assert q'.history[..|q'.history| - 1] == q.history;
    assert WaitingIds(q.items) == [q.items[0].request] + WaitingIds(q.items[1..]);
  }

  // ---- provenance of one move ----

  /** What a merge that went through looked like. */
  lemma MergedShape(g: Git, target: string, item: Item, w: Weather)
    requires WellFormed(g) && Judge(g, target, item, w).outcome == Merged
    ensures var t, v := Tip(g, target), Judge(g, target, item, w);
            && t.Some? && Tip(g, item.branch) == Some(item.tip) && item.tip == item.verified && w.gates
            && Tip(w.during, target) == t && v.previous == t
            && v.merged == Some(MergeResult(g, t.value, item.tip, w.newId))
            && v.git == w.during.(refs := w.during.refs[target := v.merged.value])
  {
    hide MergeResult;
  }

  lemma MovedRef(g: Git, target: string, c: Oid)
    requires WellFormed(g) && c in g.ancestors
    ensures var g' := g.(refs := g.refs[target := c]); WellFormed(g') && Tip(g', target) == Some(c)
  {
  }

  /**
   * If the target moves, the old target and the item's head are both in the
   * new one, the head is the one recorded as verified, and the gates passed.
   */
  lemma MoveProvenance(g: Git, target: string, item: Item, w: Weather)
    requires WellFormed(g) && w.newId !in g.ancestors
    requires Tip(g, target).Some? && Tip(g, item.branch).Some? ==>
               Continues(WithMerge(g, Tip(g, target).value, Tip(g, item.branch).value, w.newId), w.during)
    ensures var v := Judge(g, target, item, w);
            v.outcome == Merged ==>
              && v.previous == Tip(w.during, target) && Tip(v.git, target) == v.merged
              && v.previous.Some? && v.merged.Some?
              && Reaches(v.git, v.merged.value, v.previous.value) && Reaches(v.git, v.merged.value, item.verified)
              && item.tip == item.verified && w.gates
              && WellFormed(v.git)
  {
    if Judge(g, target, item, w).outcome == Merged {
      MergedShape(g, target, item, w);
      var t := Tip(g, target).value;
      var m := MergeResult(g, t, item.tip, w.newId);
      hide Judge, WithMerge, MergeResult;
      MergeHasBoth(g, t, item.tip, w.newId);
      KeptReaches(WithMerge(g, t, item.tip, w.newId), w.during, m, t, item.tip);
      hide Reaches;
      MovedRef(w.during, target, m);
    }
  }

  lemma KeptReaches(g: Git, g': Git, c: Oid, x: Oid, y: Oid)
    requires Reaches(g, c, x) && Reaches(g, c, y) && Continues(g, g')
    ensures forall refs :: Reaches(g'.(refs := refs), c, x) && Reaches(g'.(refs := refs), c, y)
    ensures c in g'.ancestors
  {
  }

  /** An item whose head is already in the target moves no branch: reprocessing after a crash is harmless. */
  lemma ReprocessIsHarmless(g: Git, target: string, item: Item, w: Weather)
    requires WellFormed(g) && Tip(g, target).Some? && Reaches(g, Tip(g, target).value, item.tip)
    ensures var v := Judge(g, target, item, w);
            v.git.refs == g.refs || v.git.refs == w.during.refs
    ensures var v := Judge(g, target, item, w);
            v.outcome == Merged ==> v.merged == v.previous == Tip(g, target) && v.git == w.during
  {
    var v := Judge(g, target, item, w);
    if v.outcome == Merged {
      assert w.during.refs[target := w.during.refs[target]] == w.during.refs;
    }
  }

  // ---- the queue object ----

  /** The repository on disk. */
  class Repository {
    var git: Git

    constructor (git: Git)
      ensures this.git == git
    {
      this.git := git;
    }
  }

  class MergeQueueState {
    const broker: ApprovalBroker
    const repo: Repository
    const target: string
    var items: seq<Item>
    var consumed: seq<Id>
    var history: seq<Entry>

    ghost function View(): Queue
      reads this
    {
      Queue(items, consumed, history)
    }

    constructor (broker: ApprovalBroker, repo: Repository, target: string)
      ensures this.broker == broker && this.repo == repo && this.target == target
      ensures View() == Queue([], [], [])
    {
      this.broker, this.repo, this.target := broker, repo, target;
      items, consumed, history := [], [], [];
    }

    /** One locked section; a crash leaves the first `stop` of its two saves (broker, queue). */
    method Enqueue(a: Admission, now: real, stop: Option<nat>) returns (ok: bool)
      modifies this, broker
      ensures ok <==> Admissible(old(View()), old(broker.View()), repo.git, target, a, now)
      ensures Enqueuing(View(), broker.View()) ==
              EnqueueSection(old(View()), old(broker.View()), repo.git, target, a, now, stop)
    {
      var q, b := Queue(items, consumed, history), Broker(broker.requests, broker.rejected);
      ok := Admissible(q, b, repo.git, target, a, now);
      if !ok || stop == Some(0) { return; }
      var consumedNow := broker.ConsumeRequest(a.approval, MergeBinding(a), Head(a), now);
      if stop == Some(1) { return; }
      items := items + [NewItem(a)];
      consumed := consumed + [a.approval.value];
    }

    method FinishItem(outcome: Outcome, merged: Option<Oid>, previous: Option<Oid>)
      requires items != []
      modifies this
      ensures forall g :: View() == Finish(old(View()), Verdict(outcome, g, merged, previous))
    {
      var item := items[0];
      if outcome != TargetDirty { items := items[1..]; }
      history := history + [Entry(item, outcome, merged, previous)];
    }

    /** One locked section; a merge writes the ref and then the queue, anything else only the queue. */
    method ProcessNext(w: Weather, stop: Option<nat>) returns (outcome: Option<Outcome>)
      requires WellFormed(repo.git)
      modifies this, repo
      ensures Processing(View(), repo.git) == ProcessSection(old(View()), old(repo.git), target, w, stop)
      ensures outcome == if old(items) == [] then None else Some(Judge(old(repo.git), target, old(items)[0], w).outcome)
    {
      if items == [] { return None; }
      var item := items[0];
      var t := Tip(repo.git, target);
      if t.None? || Tip(repo.git, item.branch) != Some(item.tip) || item.tip != item.verified {
        if stop != Some(0) { FinishItem(Stale, None, None); }
        return Some(Stale);
      }
      if !w.clean || !w.mergeOk {
        if stop != Some(0) { FinishItem(Conflict, None, None); }
        return Some(Conflict);
      }
      var merged := MergeResult(repo.git, t.value, item.tip, w.newId);
      if !w.gates {
        repo.git := WithMerge(repo.git, t.value, item.tip, w.newId);
        if stop != Some(0) { FinishItem(GateFailed, None, None); }
        return Some(GateFailed);
      }
      repo.git := w.during;
      if w.checkedOut && w.dirty {
        if stop != Some(0) { FinishItem(TargetDirty, None, None); }
        return Some(TargetDirty);
      }
      if Tip(repo.git, target) != t {
        if stop != Some(0) { FinishItem(Stale, None, None); }
        return Some(Stale);
      }
      if stop == Some(0) { return Some(Merged); }
      repo.git := repo.git.(refs := repo.git.refs[target := merged]);
      if stop == Some(1) { return Some(Merged); }
      FinishItem(Merged, Some(merged), t);
      return Some(Merged);
    }
  }
}
