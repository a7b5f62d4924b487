/** A merge interrupted between the ref move and the queue save, and processed again (merge_queue/queue.py). */
module Reprocessing {
  import opened Wrappers
  import opened CommitGraph
  import opened Approvals
  import opened QueueRuns
  import MQ = MergeQueue

  /** The target still contains the merged commit, and the merged item is still first in the queue. */
  ghost predicate Awaiting(s: Sys, target: string, item: MQ.Item, merged: Oid) {
    && Inv(s) && s.queue.items != [] && s.queue.items[0] == item
    && Reaches(s.git, merged, item.tip) && HasMerge(s.git, target, merged)
  }

  predicate HasMerge(g: Git, target: string, merged: Oid) {
    Tip(g, target).Some? && Reaches(g, Tip(g, target).value, merged)
  }

  /** Anything but processing; outside moves of the target keep the merged commit in it. */
  predicate Keeps(t: Timed, target: string, merged: Oid) {
    !t.act.Process? && (t.act.Outside? ==> HasMerge(t.act.git, target, merged))
  }

  ghost predicate DiesAfterMove(s: Sys, target: string, t: Timed) {
    && t.act.Process? && t.act.stop == Some(1) && s.queue.items != [] && WellFormed(s.git)
    && MQ.Judge(s.git, target, s.queue.items[0], t.act.weather).outcome == MQ.Merged
  }

  lemma CrashedState(s: Sys, target: string, t: Timed)
    requires DiesAfterMove(s, target, t)
    ensures var s', v := Next(s, target, t), MQ.Judge(s.git, target, s.queue.items[0], t.act.weather);
            s'.git == v.git && s'.queue == s.queue
  {
    hide MQ.Judge, WellFormed;
  }

  lemma MovedFacts(s: Sys, target: string, w: MQ.Weather)
    requires WellFormed(s.git) && s.queue.items != [] && w.newId !in s.git.ancestors && DuringContinues(s, target, w)
    requires MQ.Judge(s.git, target, s.queue.items[0], w).outcome == MQ.Merged
    ensures var item := s.queue.items[0]; var v := MQ.Judge(s.git, target, item, w);
            && v.merged.Some? && Tip(v.git, target) == v.merged
            && Reaches(v.git, v.merged.value, v.merged.value) && Reaches(v.git, v.merged.value, item.tip)
  {
    MQ.MoveProvenance(s.git, target, s.queue.items[0], w);
  }

  lemma ProcessEnabled(s: Sys, target: string, t: Timed)
    requires Inv(s) && Enabled(s, target, t) && t.act.Process?
    ensures WellFormed(s.git) && t.act.weather.newId !in s.git.ancestors && DuringContinues(s, target, t.act.weather)
  {
  }

  /** The crash leaves the ref moved and the item queued. */
  lemma MoveLeftBehind(s: Sys, target: string, t: Timed) returns (merged: Oid)
    requires Inv(s) && Enabled(s, target, t) && DiesAfterMove(s, target, t)
    ensures Tip(Next(s, target, t).git, target) == Some(merged)
    ensures Awaiting(Next(s, target, t), target, s.queue.items[0], merged)
  {
    NextKeeps(s, target, t);
    CrashedState(s, target, t);
    ProcessEnabled(s, target, t);
    hide Inv, MQ.Judge, Reaches, Next, DuringContinues, Enabled;
    MovedFacts(s, target, t.act.weather);
    merged := MQ.Judge(s.git, target, s.queue.items[0], t.act.weather).merged.value;
  }

  /** Every other step leaves the first item first, and the commits and branches alone unless it is an outside one. */
  lemma HeadStays(s: Sys, target: string, t: Timed)
    requires !t.act.Process? && s.queue.items != []
    ensures var s' := Next(s, target, t);
            && s'.queue.items != [] && s'.queue.items[0] == s.queue.items[0]
            && s'.git == if t.act.Outside? then t.act.git else s.git
  {
    hide Resolve, Consume, AddRequest, AfterEnqueue, AfterProcess, Rechecked;
    if t.act.Enqueue? { EnqueueHead(s.(clock := t.now), target, t.act.admission, t.act.stop, t.now); }
  }

  lemma EnqueueHead(s: Sys, target: string, a: MQ.Admission, stop: Option<nat>, now: real)
    requires s.queue.items != []
    ensures var s' := AfterEnqueue(s, target, a, stop, now);
            s'.queue.items != [] && s'.queue.items[0] == s.queue.items[0] && s'.git == s.git
  {
    hide Consume, MQ.Admissible, MQ.NewItem;
  }

  lemma StillReaches(g: Git, g': Git, c: Oid, x: Oid)
    requires Reaches(g, c, x) && Continues(g, g')
    ensures Reaches(g', c, x)
  {
  }

  lemma OutsideContinues(s: Sys, target: string, t: Timed)
    requires Enabled(s, target, t) && t.act.Outside?
    ensures Continues(s.git, t.act.git)
  {
  }

  lemma AwaitingStep(s: Sys, target: string, t: Timed, item: MQ.Item, merged: Oid)
    requires Awaiting(s, target, item, merged) && Enabled(s, target, t) && Keeps(t, target, merged)
    ensures Awaiting(Next(s, target, t), target, item, merged)
  {
    hide Inv, Next, HasMerge, Reaches, Enabled, Continues;
    NextKeeps(s, target, t);
    HeadStays(s, target, t);
    if t.act.Outside? {
      OutsideContinues(s, target, t);
      StillReaches(s.git, t.act.git, merged, item.tip);
    }
  }

  lemma {:induction false} AwaitingRun(s: Sys, target: string, ts: seq<Timed>, item: MQ.Item, merged: Oid)
    requires Awaiting(s, target, item, merged) && Allowed(s, target, ts)
    requires forall i :: 0 <= i < |ts| ==> Keeps(ts[i], target, merged)
    ensures Awaiting(RunAll(s, target, ts), target, item, merged)
  {
    if ts != [] {
      var front := ts[..|ts| - 1];
      AwaitingRun(s, target, front, item, merged);
      AwaitingStep(RunAll(s, target, front), target, ts[|ts| - 1], item, merged);
    }
  }

  /** Processing an item that is already merged moves no ref. */
  lemma ReprocessStep(s: Sys, target: string, u: Timed, item: MQ.Item, merged: Oid)
    requires Awaiting(s, target, item, merged) && Enabled(s, target, u) && u.act.Process?
    ensures var refs := Next(s, target, u).git.refs; refs == s.git.refs || refs == u.act.weather.during.refs
  {
    ReachesTransitive(s.git, Tip(s.git, target).value, merged, item.tip);
    MQ.ReprocessIsHarmless(s.git, target, item, u.act.weather);
  }

  /**
   * After a crash between the ref move and the queue save, whatever happens
   * next that does not take the merge out of the target again, the next
   * processing of the item moves no ref: the refs are as it found them, before
   * it or, if someone else moved them meanwhile, while it ran.
   */
  lemma ReprocessTheorem(s: Sys, target: string, t: Timed, ts: seq<Timed>, u: Timed)
    requires Inv(s) && Enabled(s, target, t) && DiesAfterMove(s, target, t)
    requires var s1 := Next(s, target, t);
             && Allowed(s1, target, ts) && Enabled(RunAll(s1, target, ts), target, u) && u.act.Process?
             && Tip(s1.git, target).Some?
             && forall i :: 0 <= i < |ts| ==> Keeps(ts[i], target, Tip(s1.git, target).value)
    ensures var s2 := RunAll(Next(s, target, t), target, ts);
            var s3, during := Next(s2, target, u), u.act.weather.during;
            && s2.queue.items != [] && s2.queue.items[0] == s.queue.items[0]
            && (s3.git.refs == s2.git.refs || s3.git.refs == during.refs)
            && (Tip(during, target) == Tip(s2.git, target) ==> Tip(s3.git, target) == Tip(s2.git, target))
  {
    hide Inv, Next, Keeps, Allowed;
    var merged := MoveLeftBehind(s, target, t);
    AwaitingRun(Next(s, target, t), target, ts, s.queue.items[0], merged);
    ReprocessStep(RunAll(Next(s, target, t), target, ts), target, u, s.queue.items[0], merged);
  }
}
