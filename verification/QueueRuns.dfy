/** Whole runs of approvals, inbox consumers, the merge queue and the world around them. */
module QueueRuns {
  import opened Wrappers
  import opened Ordering
  import opened CommitGraph
  import opened Approvals
  import MQ = MergeQueue

  /**
   * A consumer's way through one decision file: opened, its lock taken, found
   * to be the file the name still stands for, resolved. Files are told apart
   * by number, as open files are by inode.
   */
  datatype Phase =
    | Idle | Opened(name: string, file: nat) | Locked(name: string, file: nat)
    | Claimed(name: string, file: nat) | Resolved(name: string, file: nat)

  /** History variables: what was admitted with each approval, and every move the queue made. */
  datatype Admitted = Admitted(request: Request, admission: MQ.Admission, at: real)
  datatype RefMove = RefMove(request: Id, from: Oid, to: Oid, head: Oid, gates: bool)

  datatype Sys = Sys(broker: Broker, queue: MQ.Queue, git: Git, clock: real,
                     inbox: map<string, nat>, files: map<nat, Decision>, next: nat, consumers: map<Id, Phase>,
                     admitted: map<Id, Admitted>, moves: seq<RefMove>)

  datatype Act =
    | Ask(id: Id, binding: Binding, head: Option<string>, ttl: real)
    | Decide(decision: Decision)
    | Spend(approval: Option<Id>, binding: Binding, head: Option<string>)
    | Enqueue(admission: MQ.Admission, stop: Option<nat>)
    | Process(weather: MQ.Weather, stop: Option<nat>)
    | Outside(git: Git)
    | Deliver(name: string, decision: Decision)
    | Open(consumer: Id, name: string)
    | Lock(consumer: Id)
    | Recheck(consumer: Id)
    | ResolveClaimed(consumer: Id)
    | RecordResolved(consumer: Id)
    | SetAside(consumer: Id)
    | ConsumerDies(consumer: Id)

  datatype Timed = Timed(act: Act, now: real)

  function PhaseOf(s: Sys, c: Id): Phase {
    if c in s.consumers then s.consumers[c] else Idle
  }

  predicate HasLock(p: Phase) {
    p.Locked? || p.Claimed? || p.Resolved?
  }

  /** The consumer is past its re-check and will act on the file. */
  predicate Holding(p: Phase) {
    p.Claimed? || p.Resolved?
  }

  /** An exclusive lock is given only while no one else has it. */
  predicate Lockable(s: Sys, file: nat) {
    forall c :: c in s.consumers && HasLock(s.consumers[c]) ==> s.consumers[c].file != file
  }

  /** Time does not run backwards, new ids are new, commits are immutable, locks are exclusive. */
  ghost predicate Enabled(s: Sys, target: string, t: Timed) {
    && t.now >= s.clock
    && match t.act
       case Ask(id, _, _, _) => id !in s.broker.requests
       case Outside(git) => Continues(s.git, git)
       case Process(w, _) => w.newId !in s.git.ancestors && DuringContinues(s, target, w)
       case Open(c, name) => PhaseOf(s, c).Idle? && name in s.inbox
       case Lock(c) => PhaseOf(s, c).Opened? && Lockable(s, PhaseOf(s, c).file)
       case _ => true
  }

  ghost predicate DuringContinues(s: Sys, target: string, w: MQ.Weather) {
    s.queue.items != [] && Tip(s.git, target).Some? && Tip(s.git, s.queue.items[0].branch).Some?
    && WellFormed(s.git) ==>
      var branch := Tip(s.git, s.queue.items[0].branch).value;
      Continues(WithMerge(s.git, Tip(s.git, target).value, branch, w.newId), w.during)
  }

  /** One enqueue on the shared state; the history remembers what was admitted. */
  function AfterEnqueue(s: Sys, target: string, a: MQ.Admission, stop: Option<nat>, now: real): Sys {
    var r := MQ.EnqueueSection(s.queue, s.broker, s.git, target, a, now, stop);
    var spent := MQ.Admissible(s.queue, s.broker, s.git, target, a, now) && !MQ.Cut(stop, 1);
    s.(queue := r.queue, broker := r.broker,
       admitted := if spent then s.admitted[a.approval.value := Admitted(s.broker.requests[a.approval.value], a, now)]
                   else s.admitted)
  }

  /** One processing on the shared state; the history remembers a move. */
  ghost function AfterProcess(s: Sys, target: string, w: MQ.Weather, stop: Option<nat>): Sys {
    if s.queue.items == [] || !WellFormed(s.git) then s
    else
      var r, v := MQ.ProcessSection(s.queue, s.git, target, w, stop), MQ.Judge(s.git, target, s.queue.items[0], w);
      s.(queue := r.queue, git := r.git,
         moves := if v.outcome == MQ.Merged && !MQ.Cut(stop, 1)
                  then s.moves + [MoveBy(s.queue.items[0], v, w)] else s.moves)
  }

  function MoveBy(item: MQ.Item, v: MQ.Verdict, w: MQ.Weather): RefMove
    requires v.outcome == MQ.Merged
  {
    var from, to := if v.previous.Some? then v.previous.value else "", if v.merged.Some? then v.merged.value else "";
    RefMove(item.request, from, to, item.verified, w.gates)
  }

  ghost function Next(s: Sys, target: string, t: Timed): Sys {
    var s' := s.(clock := t.now);
    match t.act
    case Ask(id, binding, head, ttl) => s'.(broker := AddRequest(s.broker, id, binding, head, ttl, t.now))
    case Decide(d) => s'.(broker := Resolve(s.broker, d, t.now))
    case Spend(approval, binding, head) => s'.(broker := Consume(s.broker, approval, binding, head, t.now))
    case Enqueue(a, stop) => AfterEnqueue(s', target, a, stop, t.now)
    case Process(w, stop) => AfterProcess(s', target, w, stop)
    case Outside(git) => s'.(git := git)
    case Deliver(name, d) =>
      s'.(inbox := s.inbox[name := s.next], files := s.files[s.next := d], next := s.next + 1)
    case Open(c, name) =>
      if name !in s.inbox then s' else s'.(consumers := s.consumers[c := Opened(name, s.inbox[name])])
    case Lock(c) =>
      if !PhaseOf(s, c).Opened? then s'
      else s'.(consumers := s.consumers[c := Locked(PhaseOf(s, c).name, PhaseOf(s, c).file)])
    case Recheck(c) =>
      if !PhaseOf(s, c).Locked? then s' else s'.(consumers := s.consumers[c := Rechecked(s, PhaseOf(s, c))])
    case ResolveClaimed(c) =>
      if !PhaseOf(s, c).Claimed? || PhaseOf(s, c).file !in s.files then s'
      else s'.(broker := Resolve(s.broker, s.files[PhaseOf(s, c).file], t.now),
               consumers := s.consumers[c := Resolved(PhaseOf(s, c).name, PhaseOf(s, c).file)])
    case RecordResolved(c) =>
      if !PhaseOf(s, c).Resolved? then s'
      else s'.(inbox := s.inbox - {PhaseOf(s, c).name}, consumers := s.consumers[c := Idle])
    case SetAside(c) =>
      if !PhaseOf(s, c).Claimed? then s'
      else s'.(inbox := s.inbox - {PhaseOf(s, c).name}, consumers := s.consumers[c := Idle])
    case ConsumerDies(c) => s'.(consumers := s.consumers[c := Idle])
  }

  /** The claim stands only if the name still stands for the locked file. */
  function Rechecked(s: Sys, p: Phase): Phase
    requires p.Locked?
  {
    if p.name in s.inbox && s.inbox[p.name] == p.file then Claimed(p.name, p.file) else Idle
  }

  // ---- what holds in every reachable state ----

  /** An admission that passed every check, with an approved, unexpired and fully bound request. */
  ghost predicate Sound(x: Admitted) {
    && MQ.VerificationOk(x.admission) && MQ.Head(x.admission).Some? && IsSha(MQ.Head(x.admission).value)
    && MQ.ReviewOk(x.admission)
    && x.admission.review.value.head == MQ.Head(x.admission) && x.admission.diffOk && x.admission.approval.Some?
    && x.request.status == Approved && x.at < x.request.expires
    && x.request.binding == MQ.MergeBinding(x.admission) && x.request.head == MQ.Head(x.admission)
  }

  ghost predicate AdmissionsOk(s: Sys) {
    forall id :: id in s.admitted ==>
      && Sound(s.admitted[id]) && s.admitted[id].admission.approval == Some(id)
      && id in s.broker.requests && s.broker.requests[id].status == Consumed
  }

  ghost predicate ItemOk(s: Sys, item: MQ.Item) {
    item.request in s.admitted && Sound(s.admitted[item.request])
    && item == MQ.NewItem(s.admitted[item.request].admission)
  }

  ghost predicate QueueOk(s: Sys) {
    && MQ.Conserved(s.queue)
    && Distinct(s.queue.consumed)
    && (forall i :: 0 <= i < |s.queue.consumed| ==> s.queue.consumed[i] in s.admitted)
    && (forall i :: 0 <= i < |s.queue.items| ==> ItemOk(s, s.queue.items[i]))
    && (forall i :: 0 <= i < |s.queue.history| ==> ItemOk(s, s.queue.history[i].item))
  }

  /** A move of the target joins the old target and the head that was verified, reviewed and approved. */
  ghost predicate MoveOk(s: Sys, m: RefMove) {
    && m.request in s.admitted && Sound(s.admitted[m.request])
    && MQ.Head(s.admitted[m.request].admission) == Some(m.head)
    && m.gates && Reaches(s.git, m.to, m.from) && Reaches(s.git, m.to, m.head)
  }

  ghost predicate MovesOk(s: Sys) {
    forall i :: 0 <= i < |s.moves| ==> MoveOk(s, s.moves[i])
  }

  ghost predicate Inv(s: Sys) {
    WellFormed(s.git) && AdmissionsOk(s) && QueueOk(s) && MovesOk(s)
  }

  // ---- one step ----

  /** Items and moves stay good while admissions are kept and commits are immutable. */
  lemma Persist(s: Sys, s': Sys)
    requires forall id :: id in s.admitted ==> id in s'.admitted && s'.admitted[id] == s.admitted[id]
    requires forall c :: c in s.git.ancestors ==> c in s'.git.ancestors && s'.git.ancestors[c] == s.git.ancestors[c]
    ensures forall item :: ItemOk(s, item) ==> ItemOk(s', item)
    ensures forall m :: MoveOk(s, m) ==> MoveOk(s', m)
  {
  }

  lemma BrokerStep(s: Sys, s': Sys)
    requires Inv(s)
    requires s'.queue == s.queue && s'.git == s.git && s'.admitted == s.admitted && s'.moves == s.moves
    requires Evolves(s.broker.requests, s'.broker.requests)
    ensures Inv(s')
  {
    Persist(s, s');
  }

  lemma TimeStep(s: Sys, s': Sys)
    requires Inv(s) && s' == s.(clock := s'.clock)
    ensures Inv(s')
  {
    BrokerStep(s, s');
  }

  lemma GitStep(s: Sys, s': Sys)
    requires Inv(s) && s' == s.(git := s'.git, clock := s'.clock) && Continues(s.git, s'.git)
    ensures Inv(s')
  {
    Persist(s, s');
  }

  lemma MoreAdmitted(s: Sys, s': Sys)
    requires Inv(s) && AdmissionsOk(s') && s'.queue == s.queue && s'.git == s.git && s'.moves == s.moves
    requires forall id :: id in s.admitted ==> id in s'.admitted && s'.admitted[id] == s.admitted[id]
    ensures Inv(s')
  {
    hide MoveOk, ItemOk, AdmissionsOk, MQ.Conserved, Distinct, WellFormed;
    Persist(s, s');
  }

  lemma AdmitStep(s: Sys, target: string, a: MQ.Admission, now: real)
    requires Inv(s) && MQ.Admissible(s.queue, s.broker, s.git, target, a, now)
    ensures Inv(AfterEnqueue(s, target, a, Some(1), now))
    ensures ItemOk(AfterEnqueue(s, target, a, Some(1), now), MQ.NewItem(a))
  {
    var s' := AfterEnqueue(s, target, a, Some(1), now);
    AdmissionsGrow(s, target, a, now);
    hide Inv, ItemOk, AdmissionsOk, MQ.NewItem, Consume, MQ.Admissible;
    MoreAdmitted(s, s');
  }

  lemma AdmissionsGrow(s: Sys, target: string, a: MQ.Admission, now: real)
    requires AdmissionsOk(s) && MQ.Admissible(s.queue, s.broker, s.git, target, a, now)
    ensures AdmissionsOk(AfterEnqueue(s, target, a, Some(1), now))
    ensures a.approval.value !in s.admitted
    ensures ItemOk(AfterEnqueue(s, target, a, Some(1), now), MQ.NewItem(a))
  {
    var s', id := AfterEnqueue(s, target, a, Some(1), now), a.approval.value;
    assert id !in s.admitted;
    assert Sound(s'.admitted[id]);
  }

  lemma EnqueueStep(s: Sys, target: string, a: MQ.Admission, stop: Option<nat>, now: real)
    requires Inv(s)
    ensures Inv(AfterEnqueue(s, target, a, stop, now))
  {
    hide Inv, ItemOk, Consume;
    if MQ.Admissible(s.queue, s.broker, s.git, target, a, now) && !MQ.Cut(stop, 1) {
      AdmitStep(s, target, a, now);
      if !MQ.Cut(stop, 2) {
        QueueStep(AfterEnqueue(s, target, a, Some(1), now), a);
      }
    }
  }

  lemma QueueStep(s: Sys, a: MQ.Admission)
    requires Inv(s) && a.approval.Some? && MQ.Head(a).Some? && a.approval.value !in s.queue.consumed
    requires ItemOk(s, MQ.NewItem(a))
    ensures Inv(s.(queue := MQ.Enqueued(s.queue, a)))
  {
    hide Sound, MoveOk, WellFormed;
    var s' := s.(queue := MQ.Enqueued(s.queue, a));
    MQ.EnqueueConserves(s.queue, a);
    Persist(s, s');
  }

  lemma FinishStep(s: Sys, v: MQ.Verdict)
    requires Inv(s) && s.queue.items != []
    ensures Inv(s.(queue := MQ.Finish(s.queue, v)))
  {
    hide Sound, MQ.NewItem, MQ.Conserved, MoveOk, WellFormed;
    var s' := s.(queue := MQ.Finish(s.queue, v));
    MQ.FinishConserves(s.queue, v);
    forall i | 0 <= i < |s'.queue.items| ensures ItemOk(s', s'.queue.items[i]) {
      assert ItemOk(s, if v.outcome == MQ.TargetDirty then s.queue.items[i] else s.queue.items[i + 1]);
    }
    forall i | 0 <= i < |s'.queue.history| ensures ItemOk(s', s'.queue.history[i].item) {
      if i < |s.queue.history| { assert ItemOk(s, s.queue.history[i].item); }
      else { assert ItemOk(s, s.queue.items[0]); }
    }
    Persist(s, s');
  }

  /** The repository after judging an item continues the one before. */
  lemma JudgeContinues(s: Sys, target: string, w: MQ.Weather)
    requires WellFormed(s.git) && s.queue.items != [] && w.newId !in s.git.ancestors && DuringContinues(s, target, w)
    ensures Continues(s.git, MQ.Judge(s.git, target, s.queue.items[0], w).git)
    ensures MQ.Judge(s.git, target, s.queue.items[0], w).outcome == MQ.Merged ==> Continues(s.git, w.during)
  {
    var item := s.queue.items[0];
    var t := Tip(s.git, target);
    if t.Some? && Tip(s.git, item.branch) == Some(item.tip) {
      MergeHasBoth(s.git, t.value, item.tip, w.newId);
      MQ.MoveProvenance(s.git, target, item, w);
    }
  }

  lemma WellFormedGit(s: Sys)
    requires Inv(s)
    ensures WellFormed(s.git)
  {
  }

  lemma ProcessStep(s: Sys, target: string, w: MQ.Weather, stop: Option<nat>)
    requires Inv(s) && w.newId !in s.git.ancestors && DuringContinues(s, target, w)
    ensures Inv(AfterProcess(s, target, w, stop))
  {
    WellFormedGit(s);
    if s.queue.items != [] {
      var v := MQ.Judge(s.git, target, s.queue.items[0], w);
      if v.outcome != MQ.Merged {
        JudgeContinues(s, target, w);
        hide Inv, MQ.Finish, MQ.Judge, WellFormed, DuringContinues, MoveBy, Continues;
        JudgedStep(s, v);
      } else if MQ.Cut(stop, 1) {
        hide Inv, MQ.Finish, MQ.Judge, WellFormed, DuringContinues, MoveBy;
        DuringStep(s, target, w);
      } else {
        hide Inv, MQ.Finish, MQ.Judge, WellFormed, DuringContinues, MoveBy;
        MergedStep(s, target, w, stop);
      }
    }
  }

  /** The item was judged: the repository went on, and the queue was saved or not. */
  lemma JudgedStep(s: Sys, v: MQ.Verdict)
    requires Inv(s) && s.queue.items != [] && Continues(s.git, v.git)
    ensures Inv(s.(git := v.git)) && Inv(s.(git := v.git, queue := MQ.Finish(s.queue, v)))
  {
    hide Inv, MQ.Finish, Continues;
    GitStep(s, s.(git := v.git));
    FinishStep(s.(git := v.git), v);
  }

  lemma DuringStep(s: Sys, target: string, w: MQ.Weather)
    requires Inv(s) && s.queue.items != [] && w.newId !in s.git.ancestors && DuringContinues(s, target, w)
    requires MQ.Judge(s.git, target, s.queue.items[0], w).outcome == MQ.Merged
    ensures Inv(s.(git := w.during))
  {
    WellFormedGit(s);
    JudgeContinues(s, target, w);
    hide Inv, MQ.Judge, Continues, DuringContinues, WellFormed;
    GitStep(s, s.(git := w.during));
  }

  lemma MergedStep(s: Sys, target: string, w: MQ.Weather, stop: Option<nat>)
    requires Inv(s) && s.queue.items != [] && w.newId !in s.git.ancestors && DuringContinues(s, target, w)
    requires MQ.Judge(s.git, target, s.queue.items[0], w).outcome == MQ.Merged && !MQ.Cut(stop, 1)
    ensures Inv(AfterProcess(s, target, w, stop))
  {
    var item := s.queue.items[0];
    var v := MQ.Judge(s.git, target, item, w);
    MergedFacts(s, target, w);
    hide Inv, MQ.Judge, MQ.Finish, WellFormed, DuringContinues, Continues, Reaches;
    var after := s.(git := v.git, moves := s.moves + [MoveBy(item, v, w)]);
    MoveMade(s, item, v, w.gates);
    FinishStep(after, v);
  }

  lemma MergedFacts(s: Sys, target: string, w: MQ.Weather)
    requires WellFormed(s.git) && s.queue.items != [] && w.newId !in s.git.ancestors && DuringContinues(s, target, w)
    requires MQ.Judge(s.git, target, s.queue.items[0], w).outcome == MQ.Merged
    ensures var v := MQ.Judge(s.git, target, s.queue.items[0], w);
            && Continues(s.git, v.git) && w.gates && v.previous.Some? && v.merged.Some?
            && Reaches(v.git, v.merged.value, v.previous.value)
            && Reaches(v.git, v.merged.value, s.queue.items[0].verified)
  {
    JudgeContinues(s, target, w);
    MQ.MoveProvenance(s.git, target, s.queue.items[0], w);
  }

  lemma MoveMade(s: Sys, item: MQ.Item, v: MQ.Verdict, gates: bool)
    requires Inv(s) && Continues(s.git, v.git) && s.queue.items != [] && item == s.queue.items[0] && gates
    requires v.previous.Some? && v.merged.Some?
    requires Reaches(v.git, v.merged.value, v.previous.value) && Reaches(v.git, v.merged.value, item.verified)
    ensures var m := RefMove(item.request, v.previous.value, v.merged.value, item.verified, gates);
            Inv(s.(git := v.git, moves := s.moves + [m]))
  {
    GitStep(s, s.(git := v.git));
    assert ItemOk(s, item);
    MoveStep(s.(git := v.git), RefMove(item.request, v.previous.value, v.merged.value, item.verified, gates));
  }

  lemma MoveStep(s: Sys, m: RefMove)
    requires Inv(s) && MoveOk(s, m)
    ensures Inv(s.(moves := s.moves + [m]))
  {
    hide MoveOk, ItemOk, Sound, MQ.Conserved, Distinct, WellFormed;
    var s' := s.(moves := s.moves + [m]);
    Persist(s, s');
    forall i | 0 <= i < |s'.moves| ensures MoveOk(s', s'.moves[i]) {
      if i < |s.moves| { assert MoveOk(s, s.moves[i]); } else { assert MoveOk(s, m); }
    }
  }

  lemma NoChange(b: Broker)
    ensures Evolves(b.requests, b.requests)
  {
  }

  lemma Asked(b: Broker, id: Id, binding: Binding, head: Option<string>, ttl: real, now: real)
    requires id !in b.requests
    ensures Evolves(b.requests, AddRequest(b, id, binding, head, ttl, now).requests)
  {
  }

  lemma BrokerEvolves(s: Sys, target: string, t: Timed)
    requires Enabled(s, target, t)
    ensures Evolves(s.broker.requests, Next(s, target, t).broker.requests)
  {
    hide Resolve, Consume, MQ.Admissible, MQ.Enqueued, MQ.ProcessSection, MQ.Judge, Rechecked, MQ.MergeBinding, MQ.Head;
    hide Evolves;
    NoChange(s.broker);
    match t.act
    case Ask(id, binding, head, ttl) => Asked(s.broker, id, binding, head, ttl, t.now);
    case Decide(d) => ResolveEvolves(s.broker, d, t.now);
    case Spend(approval, binding, head) => ConsumeEvolves(s.broker, approval, binding, head, t.now);
    case Enqueue(a, stop) => ConsumeEvolves(s.broker, a.approval, MQ.MergeBinding(a), MQ.Head(a), t.now);
    case ResolveClaimed(c) =>
      if PhaseOf(s, c).Claimed? && PhaseOf(s, c).file in s.files {
        ResolveEvolves(s.broker, s.files[PhaseOf(s, c).file], t.now);
      }
    case _ =>
  }

  predicate OfTheQueue(t: Timed) {
    t.act.Enqueue? || t.act.Process?
  }

  lemma OtherFrame(s: Sys, target: string, t: Timed)
    requires !OfTheQueue(t)
    ensures var s' := Next(s, target, t);
            && s'.queue == s.queue && s'.admitted == s.admitted && s'.moves == s.moves
            && (!t.act.Outside? ==> s'.git == s.git)
  {
    hide AfterEnqueue, AfterProcess, Resolve, Consume, AddRequest, Rechecked, PhaseOf;
  }

  /** A step that is not the queue's and not an outside commit changes the broker at most. */
  lemma OtherStep(s: Sys, target: string, t: Timed)
    requires Inv(s) && Enabled(s, target, t) && !OfTheQueue(t) && !t.act.Outside?
    ensures Inv(Next(s, target, t))
  {
    hide Inv, Evolves, Enabled, Next;
    BrokerEvolves(s, target, t);
    OtherFrame(s, target, t);
    BrokerStep(s, Next(s, target, t));
  }

  lemma TimedProcess(s: Sys, target: string, w: MQ.Weather, stop: Option<nat>, now: real)
    requires Inv(s) && w.newId !in s.git.ancestors && DuringContinues(s, target, w)
    ensures Inv(AfterProcess(s.(clock := now), target, w, stop))
  {
    hide Inv, AfterProcess;
    TimeStep(s, s.(clock := now));
    ProcessStep(s.(clock := now), target, w, stop);
  }

  lemma NextKeeps(s: Sys, target: string, t: Timed)
    requires Inv(s) && Enabled(s, target, t)
    ensures Inv(Next(s, target, t))
  {
    hide Inv, AfterEnqueue, AfterProcess, Resolve, Consume, AddRequest, Rechecked, PhaseOf, DuringContinues;
    match t.act
    case Enqueue(a, stop) =>
      TimeStep(s, s.(clock := t.now));
      EnqueueStep(s.(clock := t.now), target, a, stop, t.now);
    case Process(w, stop) => TimedProcess(s, target, w, stop, t.now);
    case Outside(git) => GitStep(s, Next(s, target, t));
    case _ => OtherStep(s, target, t);
  }

  // ---- all runs ----

  ghost function RunAll(s: Sys, target: string, ts: seq<Timed>): Sys {
    if ts == [] then s else Next(RunAll(s, target, ts[..|ts| - 1]), target, ts[|ts| - 1])
  }

  ghost predicate Allowed(s: Sys, target: string, ts: seq<Timed>) {
    ts == [] || (Allowed(s, target, ts[..|ts| - 1]) && Enabled(RunAll(s, target, ts[..|ts| - 1]), target, ts[|ts| - 1]))
  }

  lemma {:induction false} AllRunsKeep(s: Sys, target: string, ts: seq<Timed>)
    requires Inv(s) && Allowed(s, target, ts)
    ensures Inv(RunAll(s, target, ts))
  {
    if ts != [] {
      AllRunsKeep(s, target, ts[..|ts| - 1]);
      NextKeeps(RunAll(s, target, ts[..|ts| - 1]), target, ts[|ts| - 1]);
    }
  }

  ghost function Start(git: Git, now: real): Sys {
    Sys(Broker(map[], []), MQ.Queue([], [], []), git, now, map[], map[], 0, map[], map[], [])
  }

  lemma StartOk(git: Git, now: real)
    requires WellFormed(git)
    ensures Inv(Start(git, now))
  {
  }

  /**
   * Conservation and single use, crashes included: the settled and waiting
   * requests are the consumed ones in order, without repetition, each was
   * approved, unexpired and fully bound when it was consumed, and is consumed now.
   */
  lemma ConservationTheorem(git: Git, now: real, target: string, ts: seq<Timed>)
    requires WellFormed(git) && Allowed(Start(git, now), target, ts)
    ensures var s := RunAll(Start(git, now), target, ts);
            && MQ.SettledIds(s.queue.history) + MQ.WaitingIds(s.queue.items) == s.queue.consumed
            && Distinct(s.queue.consumed)
            && forall i :: 0 <= i < |s.queue.consumed| ==>
                 var id := s.queue.consumed[i];
                 && id in s.admitted && Sound(s.admitted[id])
                 && id in s.broker.requests && s.broker.requests[id].status == Consumed
  {
    StartOk(git, now);
    AllRunsKeep(Start(git, now), target, ts);
  }

  /** Every move of the target joined the old target and a verified, reviewed, approved head, with gates passed. */
  lemma ProvenanceTheorem(git: Git, now: real, target: string, ts: seq<Timed>, i: nat)
    requires WellFormed(git) && Allowed(Start(git, now), target, ts)
    requires i < |RunAll(Start(git, now), target, ts).moves|
    ensures var s := RunAll(Start(git, now), target, ts);
            MoveOk(s, s.moves[i])
  {
    StartOk(git, now);
    AllRunsKeep(Start(git, now), target, ts);
  }

  // ---- a request leaves pending at most once ----

  ghost predicate LeavesPending(s: Sys, s': Sys, id: Id) {
    id in s.broker.requests && s.broker.requests[id].status == Pending
    && id in s'.broker.requests && s'.broker.requests[id].status != Pending
  }

  ghost function Departures(s: Sys, target: string, ts: seq<Timed>, id: Id): nat {
    if ts == [] then 0
    else
      var front := ts[..|ts| - 1];
      Departures(s, target, front, id)
      + (if LeavesPending(RunAll(s, target, front), RunAll(s, target, ts), id) then 1 else 0)
  }

  /** Whatever the inbox consumers and direct deciders do, no request leaves pending twice. */
  lemma {:induction false} SingleDecision(s: Sys, target: string, ts: seq<Timed>, id: Id)
    requires Allowed(s, target, ts)
    ensures Departures(s, target, ts, id) <= 1
    ensures var e := RunAll(s, target, ts);
            id !in e.broker.requests || e.broker.requests[id].status == Pending ==> Departures(s, target, ts, id) == 0
    decreases |ts|
  {
    if ts != [] {
      var front := ts[..|ts| - 1];
      SingleDecision(s, target, front, id);
      BrokerEvolves(RunAll(s, target, front), target, ts[|ts| - 1]);
    }
  }

  /** A resolved claim that is lost before it is recorded is refused when the file is processed again. */
  lemma LostRecordIsRefused(b: Broker, d: Decision, now: real, later: real)
    requires DecisionOk(ExpireAll(b.requests, now), d, now)
    ensures !DecisionOk(ExpireAll(Resolve(b, d, now).requests, later), d, later)
  {
  }
}
