/** Claims on decision files: a lock on the open file and a second look at its name (plugin/inbox.py). */
module InboxClaims {
  import opened Wrappers
  import opened CommitGraph
  import opened Approvals
  import opened QueueRuns
  import MQ = MergeQueue

  /** Whoever is past the re-check holds the file its name stands for. */
  ghost predicate ClaimsOk(s: Sys) {
    forall c :: c in s.consumers && Holding(s.consumers[c]) ==> Current(s, s.consumers[c])
  }

  predicate Current(s: Sys, p: Phase)
    requires !p.Idle?
  {
    p.name in s.inbox && s.inbox[p.name] == p.file
  }

  predicate SameLock(p: Phase, q: Phase) {
    HasLock(p) && HasLock(q) && p.file == q.file
  }

  ghost predicate LocksOk(s: Sys) {
    forall c, e :: c in s.consumers && e in s.consumers && c != e ==> !SameLock(s.consumers[c], s.consumers[e])
  }

  /** Files still to come are new. */
  ghost predicate FilesOk(s: Sys) {
    && (forall name :: name in s.inbox ==> s.inbox[name] < s.next)
    && (forall c :: c in s.consumers && !s.consumers[c].Idle? ==> s.consumers[c].file < s.next)
  }

  /** A writer renames another file over a name that a consumer has claimed. */
  ghost predicate Replaces(s: Sys, t: Timed) {
    t.act.Deliver? && exists c :: c in s.consumers && Holding(s.consumers[c]) && s.consumers[c].name == t.act.name
  }

  /** Claims of one name are claims of one file, and a lock has one holder. */
  lemma OneHolder(s: Sys, c: Id, e: Id)
    requires ClaimsOk(s) && LocksOk(s) && c in s.consumers && e in s.consumers && c != e
    requires Holding(s.consumers[c]) && Holding(s.consumers[e])
    ensures s.consumers[c].name != s.consumers[e].name && s.consumers[c].file != s.consumers[e].file
  {
  }

  /** One consumer's next phase: no lock, the lock it has, or one nobody has; always on a known file. */
  lemma PhaseSet(s: Sys, s': Sys, c: Id, p: Phase)
    requires LocksOk(s) && FilesOk(s) && s'.consumers == s.consumers[c := p] && s'.next == s.next
    requires forall name :: name in s'.inbox ==> name in s.inbox && s'.inbox[name] == s.inbox[name]
    requires !p.Idle? ==> p.file < s.next
    requires HasLock(p) ==> Lockable(s, p.file) || (HasLock(PhaseOf(s, c)) && PhaseOf(s, c).file == p.file)
    ensures LocksOk(s') && FilesOk(s')
  {
  }

  lemma NothingSet(s: Sys, s': Sys)
    requires LocksOk(s) && FilesOk(s) && s'.consumers == s.consumers && s'.next == s.next && s'.inbox == s.inbox
    ensures LocksOk(s') && FilesOk(s')
  {
  }

  /** Acts that leave the inbox and its consumers alone. */
  predicate Elsewhere(t: Timed) {
    t.act.Ask? || t.act.Decide? || t.act.Spend? || t.act.Enqueue? || t.act.Process? || t.act.Outside?
  }

  lemma ElsewhereSame(s: Sys, target: string, t: Timed)
    requires Elsewhere(t)
    ensures var s' := Next(s, target, t);
            s'.consumers == s.consumers && s'.inbox == s.inbox && s'.files == s.files && s'.next == s.next
  {
    hide MQ.Admissible, MQ.EnqueueSection, MQ.ProcessSection, MQ.Judge, MoveBy, WellFormed;
    hide Resolve, Consume, AddRequest;
  }

  lemma LocksStay(s: Sys, target: string, t: Timed)
    requires Enabled(s, target, t) && LocksOk(s) && FilesOk(s)
    ensures LocksOk(Next(s, target, t)) && FilesOk(Next(s, target, t))
  {
    hide LocksOk, FilesOk;
    var s' := Next(s, target, t);
    if Elsewhere(t) {
      ElsewhereSame(s, target, t);
      NothingSet(s, s');
    } else if t.act.Deliver? {
      NewFile(s, s', t.act.name);
    } else {
      var c := t.act.consumer;
      KnownFiles(s, c);
      if s'.consumers != s.consumers { PhaseSet(s, s', c, PhaseOf(s', c)); } else { NothingSet(s, s'); }
    }
  }

  lemma NewFile(s: Sys, s': Sys, name: string)
    requires LocksOk(s) && FilesOk(s)
    requires s'.consumers == s.consumers && s'.next == s.next + 1 && s'.inbox == s.inbox[name := s.next]
    ensures LocksOk(s') && FilesOk(s')
  {
  }

  lemma KnownFiles(s: Sys, c: Id)
    requires FilesOk(s)
    ensures forall name :: name in s.inbox ==> s.inbox[name] < s.next
    ensures !PhaseOf(s, c).Idle? ==> PhaseOf(s, c).file < s.next
  {
  }

  /** A file taken out of the inbox takes no other consumer's claim with it. */
  lemma TakenOut(s: Sys, c: Id)
    requires ClaimsOk(s) && LocksOk(s) && c in s.consumers && Holding(s.consumers[c])
    ensures ClaimsOk(s.(inbox := s.inbox - {s.consumers[c].name}, consumers := s.consumers[c := Idle]))
  {
    var s' := s.(inbox := s.inbox - {s.consumers[c].name}, consumers := s.consumers[c := Idle]);
    forall e | e in s'.consumers && Holding(s'.consumers[e]) ensures Current(s', s'.consumers[e]) {
      OneHolder(s, c, e);
    }
  }

  lemma DeliveredClaims(s: Sys, target: string, t: Timed)
    requires ClaimsOk(s) && FilesOk(s) && t.act.Deliver?
    ensures ClaimsOk(Next(s, target, t)) <==> !Replaces(s, t)
  {
    var s' := Next(s, target, t);
    if Replaces(s, t) {
      var c :| c in s.consumers && Holding(s.consumers[c]) && s.consumers[c].name == t.act.name;
      assert !Current(s', s'.consumers[c]);
    }
  }

  /** Claims stay good through a step exactly when it does not rename over a claimed name. */
  lemma ClaimsExactly(s: Sys, target: string, t: Timed)
    requires Enabled(s, target, t) && ClaimsOk(s) && LocksOk(s) && FilesOk(s)
    ensures ClaimsOk(Next(s, target, t)) <==> !Replaces(s, t)
  {
    hide ClaimsOk, LocksOk, FilesOk;
    var s' := Next(s, target, t);
    if Elsewhere(t) {
      ElsewhereSame(s, target, t);
      SameClaims(s, s');
    } else if t.act.Deliver? {
      DeliveredClaims(s, target, t);
    } else if t.act.RecordResolved? || t.act.SetAside? {
      var c := t.act.consumer;
      if s'.consumers == s.consumers { SameClaims(s, s'); }
      else { TakenOut(s, c); SameClaims(s.(inbox := s'.inbox, consumers := s'.consumers), s'); }
    } else {
      if s'.consumers == s.consumers { SameClaims(s, s'); } else { ClaimSet(s, s', t.act.consumer); }
    }
  }

  lemma SameClaims(s: Sys, s': Sys)
    requires ClaimsOk(s) && s'.consumers == s.consumers && s'.inbox == s.inbox
    ensures ClaimsOk(s')
  {
  }

  predicate SameClaim(p: Phase, q: Phase) {
    Holding(p) && Holding(q) && q.name == p.name && q.file == p.file
  }

  lemma ClaimSet(s: Sys, s': Sys, c: Id)
    requires ClaimsOk(s) && s'.inbox == s.inbox && s'.consumers == s.consumers[c := PhaseOf(s', c)]
    requires Holding(PhaseOf(s', c)) ==> Current(s', PhaseOf(s', c)) || SameClaim(PhaseOf(s, c), PhaseOf(s', c))
    ensures ClaimsOk(s')
  {
  }

  /** Nobody renames over a claimed name. */
  ghost predicate Undisturbed(s: Sys, target: string, ts: seq<Timed>) {
    ts == [] || (Undisturbed(s, target, ts[..|ts| - 1]) && !Replaces(RunAll(s, target, ts[..|ts| - 1]), ts[|ts| - 1]))
  }

  lemma {:induction false} ClaimsKept(s: Sys, target: string, ts: seq<Timed>)
    requires Inv(s) && ClaimsOk(s) && LocksOk(s) && FilesOk(s) && Allowed(s, target, ts) && Undisturbed(s, target, ts)
    ensures var e := RunAll(s, target, ts); ClaimsOk(e) && LocksOk(e) && FilesOk(e)
  {
    if ts != [] {
      var front, last := ts[..|ts| - 1], ts[|ts| - 1];
      ClaimsKept(s, target, front);
      AllRunsKeep(s, target, front);
      LocksStay(RunAll(s, target, front), target, last);
      ClaimsExactly(RunAll(s, target, front), target, last);
    }
  }

  /**
   * With fresh names, as both writers choose them, no two consumers ever act
   * on one name, and what a consumer moves out of the inbox is the file it resolved.
   */
  lemma ClaimTheorem(git: Git, now: real, target: string, ts: seq<Timed>, c: Id, e: Id)
    requires WellFormed(git) && Allowed(Start(git, now), target, ts) && Undisturbed(Start(git, now), target, ts)
    ensures var s := RunAll(Start(git, now), target, ts);
            && (Holding(PhaseOf(s, c)) ==> Current(s, PhaseOf(s, c)))
            && (c != e && Holding(PhaseOf(s, c)) && Holding(PhaseOf(s, e)) ==> PhaseOf(s, c).name != PhaseOf(s, e).name)
  {
    StartOk(git, now);
    ClaimsKept(Start(git, now), target, ts);
    var s := RunAll(Start(git, now), target, ts);
    if c != e && Holding(PhaseOf(s, c)) && Holding(PhaseOf(s, e)) { OneHolder(s, c, e); }
  }

  // ---- a replaced file is lost ----

  /** The file is in no inbox, and no consumer has it open. */
  ghost predicate Gone(s: Sys, file: nat) {
    && file < s.next
    && (forall name :: name in s.inbox ==> s.inbox[name] != file)
    && (forall c :: c in s.consumers && !s.consumers[c].Idle? ==> s.consumers[c].file != file)
  }

  /**
   * A decision renamed over the name of a file that a consumer has resolved but
   * not yet recorded leaves the inbox with it: no one has opened it, and no
   * request has changed.
   */
  lemma ReplacedIsLost(s: Sys, target: string, c: Id, d: Decision, now: real, later: real)
    requires FilesOk(s) && PhaseOf(s, c).Resolved? && s.clock <= now <= later
    ensures var deliver, record := Timed(Deliver(PhaseOf(s, c).name, d), now), Timed(RecordResolved(c), later);
            var s1 := Next(s, target, deliver); var s2 := Next(s1, target, record);
            && Enabled(s, target, deliver) && Enabled(s1, target, record)
            && s1.files[s.next] == d && s1.inbox[PhaseOf(s, c).name] == s.next
            && Gone(s2, s.next) && s2.broker == s.broker
  {
  }

  lemma GoneStep(s: Sys, target: string, t: Timed, file: nat)
    requires Gone(s, file)
    ensures Gone(Next(s, target, t), file)
  {
    hide Gone;
    var s' := Next(s, target, t);
    if Elsewhere(t) {
      ElsewhereSame(s, target, t);
      GoneFrame(s, s', file);
    } else if t.act.Deliver? {
      GoneDelivered(s, s', t.act.name, file);
    } else {
      var c := t.act.consumer;
      GoneKnown(s, c, file);
      if s'.consumers == s.consumers { GoneFrame(s, s', file); } else { GoneSet(s, s', c, file); }
    }
  }

  lemma GoneKnown(s: Sys, c: Id, file: nat)
    requires Gone(s, file)
    ensures forall name :: name in s.inbox ==> s.inbox[name] != file
    ensures !PhaseOf(s, c).Idle? ==> PhaseOf(s, c).file != file
  {
  }

  lemma GoneFrame(s: Sys, s': Sys, file: nat)
    requires Gone(s, file) && s'.consumers == s.consumers && s'.inbox == s.inbox && s'.next == s.next
    ensures Gone(s', file)
  {
  }

  lemma GoneDelivered(s: Sys, s': Sys, name: string, file: nat)
    requires Gone(s, file)
    requires s'.consumers == s.consumers && s'.next == s.next + 1 && s'.inbox == s.inbox[name := s.next]
    ensures Gone(s', file)
  {
  }

  lemma GoneSet(s: Sys, s': Sys, c: Id, file: nat)
    requires Gone(s, file) && s'.consumers == s.consumers[c := PhaseOf(s', c)] && s'.next == s.next
    requires forall name :: name in s'.inbox ==> name in s.inbox && s'.inbox[name] == s.inbox[name]
    requires !PhaseOf(s', c).Idle? ==> PhaseOf(s', c).file != file
    ensures Gone(s', file)
  {
  }

  /** And nobody ever opens it: the decision in it is never made. */
  lemma {:induction false} LostForever(s: Sys, target: string, ts: seq<Timed>, file: nat)
    requires Gone(s, file)
    ensures Gone(RunAll(s, target, ts), file)
  {
    if ts != [] {
      LostForever(s, target, ts[..|ts| - 1], file);
      GoneStep(RunAll(s, target, ts[..|ts| - 1]), target, ts[|ts| - 1], file);
    }
  }

  // ---- one decision, from the file to the broker ----

  /** A consumer with nothing in hand takes a new file by name and gets its lock. */
  lemma FileIsTaken(s: Sys, target: string, c: Id, name: string, d: Decision, t: real)
    requires FilesOk(s) && PhaseOf(s, c).Idle? && s.clock <= t
    ensures var deliver, open, lock := Timed(Deliver(name, d), t), Timed(Open(c, name), t), Timed(Lock(c), t);
            var s1 := Next(s, target, deliver); var s2 := Next(s1, target, open); var s3 := Next(s2, target, lock);
            && Enabled(s, target, deliver) && Enabled(s1, target, open) && Enabled(s2, target, lock)
            && PhaseOf(s3, c) == Locked(name, s.next) && s3.clock == t && s3.inbox == s.inbox[name := s.next]
            && s.next in s3.files && s3.files[s.next] == d
            && s3.broker == s.broker && s3.queue == s.queue && s3.git == s.git
  {
  }

  /** The second look lets the claim stand exactly while the name still stands for the locked file. */
  lemma SecondLook(s: Sys, target: string, c: Id, t: real)
    requires PhaseOf(s, c).Locked? && s.clock <= t
    ensures var p, s' := PhaseOf(s, c), Next(s, target, Timed(Recheck(c), t));
            && Enabled(s, target, Timed(Recheck(c), t))
            && (Holding(PhaseOf(s', c)) <==> p.name in s.inbox && s.inbox[p.name] == p.file)
            && (PhaseOf(s', c) == Claimed(p.name, p.file) || PhaseOf(s', c) == Idle)
            && s' == s.(clock := t, consumers := s'.consumers)
  {
  }

  /** A claimed file is decided once, then leaves the inbox; nothing else there changes. */
  lemma ClaimIsSettled(s: Sys, target: string, c: Id, t: real)
    requires PhaseOf(s, c).Claimed? && PhaseOf(s, c).file in s.files && s.clock <= t
    ensures var p, resolve, record := PhaseOf(s, c), Timed(ResolveClaimed(c), t), Timed(RecordResolved(c), t);
            var s1 := Next(s, target, resolve); var s2 := Next(s1, target, record);
            && Enabled(s, target, resolve) && Enabled(s1, target, record)
            && s2.broker == Resolve(s.broker, s.files[p.file], t)
            && s2.inbox == s.inbox - {p.name} && PhaseOf(s2, c).Idle? && s2.queue == s.queue && s2.git == s.git
  {
  }

  /** What one consumer does with a file that is not replaced meanwhile. */
  function Handling(c: Id, name: string, d: Decision, t: real): seq<Timed> {
    [Timed(Deliver(name, d), t), Timed(Open(c, name), t), Timed(Lock(c), t), Timed(Recheck(c), t),
     Timed(ResolveClaimed(c), t), Timed(RecordResolved(c), t)]
  }

  lemma OneStep(s: Sys, target: string, ts: seq<Timed>, n: nat)
    requires n < |ts|
    ensures RunAll(s, target, ts[..n + 1]) == Next(RunAll(s, target, ts[..n]), target, ts[n])
    ensures Allowed(s, target, ts[..n + 1]) <==>
            Allowed(s, target, ts[..n]) && Enabled(RunAll(s, target, ts[..n]), target, ts[n])
  {
    hide Next, Enabled;
    assert ts[..n + 1][..n] == ts[..n];
  }

  lemma SixSteps(s: Sys, target: string, ts: seq<Timed>)
    requires |ts| == 6
    ensures var s1 := Next(s, target, ts[0]); var s2 := Next(s1, target, ts[1]); var s3 := Next(s2, target, ts[2]);
            var s4 := Next(s3, target, ts[3]); var s5 := Next(s4, target, ts[4]); var s6 := Next(s5, target, ts[5]);
            && RunAll(s, target, ts) == s6
            && (Allowed(s, target, ts) <==>
                 && Enabled(s, target, ts[0]) && Enabled(s1, target, ts[1]) && Enabled(s2, target, ts[2])
                 && Enabled(s3, target, ts[3]) && Enabled(s4, target, ts[4]) && Enabled(s5, target, ts[5]))
  {
    hide Next, Enabled;
    OneStep(s, target, ts, 0);
    OneStep(s, target, ts, 1);
    OneStep(s, target, ts, 2);
    OneStep(s, target, ts, 3);
    OneStep(s, target, ts, 4);
    OneStep(s, target, ts, 5);
    assert ts[..6] == ts && ts[..0] == [];
  }

  /** A decision file, delivered and handled, decides in the broker what the decision decides, and is then gone. */
  lemma DecisionLands(s: Sys, target: string, c: Id, name: string, d: Decision, t: real)
    requires FilesOk(s) && PhaseOf(s, c).Idle? && s.clock <= t
    ensures Allowed(s, target, Handling(c, name, d, t))
    ensures var e := RunAll(s, target, Handling(c, name, d, t));
            && e.broker == Resolve(s.broker, d, t)
            && e.inbox == s.inbox - {name} && PhaseOf(e, c).Idle? && e.queue == s.queue && e.git == s.git
  {
    var ts := Handling(c, name, d, t);
    FileIsTaken(s, target, c, name, d, t);
    hide Next, Enabled, FilesOk, Resolve, PhaseOf, Allowed, RunAll;
    SixSteps(s, target, ts);
    var s3 := Next(Next(Next(s, target, ts[0]), target, ts[1]), target, ts[2]);
    var s4 := Next(s3, target, ts[3]);
    SecondLook(s3, target, c, t);
    LookedAgain(s3, s4, c);
    ClaimIsSettled(s4, target, c, t);
    assert s.inbox[name := s.next] - {name} == s.inbox - {name};
  }

  lemma LookedAgain(s: Sys, s': Sys, c: Id)
    requires PhaseOf(s, c).Locked? && PhaseOf(s, c).name in s.inbox && s.inbox[PhaseOf(s, c).name] == PhaseOf(s, c).file
    requires Holding(PhaseOf(s', c))
    requires PhaseOf(s', c) == Claimed(PhaseOf(s, c).name, PhaseOf(s, c).file) || PhaseOf(s', c) == Idle
    ensures PhaseOf(s', c) == Claimed(PhaseOf(s, c).name, PhaseOf(s, c).file)
  {
  }
}
