/** Choosing ready units that may run side by side (merge_queue/dispatch.py). */
module Dispatch {
  import opened Wrappers
  import opened ConflictGaps
  import opened Conflicts
  import opened Scope

  datatype PlanUnit = PlanUnit(id: string, files: seq<string>)

  datatype Deferral = NoWorker(id: string) | ScopeOverlap(id: string, conflicts: seq<string>)

  /** Ids of the other units whose scope overlaps the unit's. */
  function ConflictsWith(unit: PlanUnit, others: seq<PlanUnit>): (hits: seq<string>)
    ensures forall h :: h in hits <==> exists o :: o in others && o.id == h && Clashes(unit, o)
  {
    if others == [] then []
    else
      var front := ConflictsWith(unit, others[..|others| - 1]);
      var last := others[|others| - 1];
      assert others == others[..|others| - 1] + [last];
      if Clashes(unit, last) then front + [last.id] else front
  }

  predicate Clashes(a: PlanUnit, b: PlanUnit) {
    a.id != b.id && ScopesOverlap(a.files, b.files)
  }

  /** No chosen unit clashes with any unit of `all`. */
  ghost predicate Isolated(chosen: seq<PlanUnit>, all: seq<PlanUnit>) {
    forall u, o :: u in chosen && o in all ==> !Clashes(u, o) && !Clashes(o, u)
  }

  /** `xs` in order, each element sent left or right. */
  ghost predicate Splits(xs: seq<PlanUnit>, left: seq<string>, right: seq<Deferral>)
    decreases |xs|
  {
    if xs == [] then left == [] && right == []
    else
      var x := xs[|xs| - 1];
      || (left != [] && left[|left| - 1] == x.id && Splits(xs[..|xs| - 1], left[..|left| - 1], right))
      || (right != [] && right[|right| - 1].id == x.id && Splits(xs[..|xs| - 1], left, right[..|right| - 1]))
  }

  ghost function IdsOf(units: seq<PlanUnit>): seq<string> {
    seq(|units|, i requires 0 <= i < |units| => units[i].id)
  }

  /** A deferred unit really clashes with each unit it names, or every worker is taken. */
  ghost predicate Explained(d: Deferral, candidates: seq<PlanUnit>, selected: seq<PlanUnit>, full: bool) {
    match d
    case NoWorker(id) => full
    case ScopeOverlap(id, conflicts) =>
      && conflicts != []
      && exists u :: u in candidates && u.id == id && forall c :: c in conflicts ==> ClashesNamed(u, c, selected)
  }

  ghost predicate ClashesNamed(u: PlanUnit, id: string, selected: seq<PlanUnit>) {
    exists o :: o in selected && o.id == id && Clashes(u, o)
  }

  ghost predicate AllExplained(ds: seq<Deferral>, candidates: seq<PlanUnit>, selected: seq<PlanUnit>, full: bool) {
    forall d :: d in ds ==> Explained(d, candidates, selected, full)
  }

  lemma SelectionGrows(ds: seq<Deferral>, cs: seq<PlanUnit>, sel: seq<PlanUnit>, u: PlanUnit, full: bool, full': bool)
    requires AllExplained(ds, cs, sel, full) && (full ==> full')
    ensures AllExplained(ds, cs, sel + [u], full')
  {
    forall d | d in ds ensures Explained(d, cs, sel + [u], full') {
      if d.ScopeOverlap? {
        var v :| v in cs && v.id == d.id && forall c :: c in d.conflicts ==> ClashesNamed(v, c, sel);
        forall c | c in d.conflicts ensures ClashesNamed(v, c, sel + [u]) {
          var o :| o in sel && o.id == c && Clashes(v, o);
          assert o in sel + [u];
        }
      }
    }
  }

  lemma DeferralAdded(ds: seq<Deferral>, d: Deferral, cs: seq<PlanUnit>, sel: seq<PlanUnit>, full: bool)
    requires AllExplained(ds, cs, sel, full) && Explained(d, cs, sel, full)
    ensures AllExplained(ds + [d], cs, sel, full)
  {
  }

  lemma OverlapExplained(u: PlanUnit, cs: seq<PlanUnit>, sel: seq<PlanUnit>, full: bool)
    requires u in cs && ConflictsWith(u, sel) != []
    ensures Explained(ScopeOverlap(u.id, ConflictsWith(u, sel)), cs, sel, full)
  {
    assert forall c :: c in ConflictsWith(u, sel) ==> ClashesNamed(u, c, sel);
  }

  lemma SentLeft(xs: seq<PlanUnit>, i: nat, left: seq<string>, right: seq<Deferral>)
    requires i < |xs| && Splits(xs[..i], left, right)
    ensures Splits(xs[..i + 1], left + [xs[i].id], right)
  {
    assert xs[..i + 1][..i] == xs[..i] && (left + [xs[i].id])[..|left|] == left;
  }

  lemma SentRight(xs: seq<PlanUnit>, i: nat, left: seq<string>, right: seq<Deferral>, d: Deferral)
    requires i < |xs| && Splits(xs[..i], left, right) && d.id == xs[i].id
    ensures Splits(xs[..i + 1], left, right + [d])
  {
    assert xs[..i + 1][..i] == xs[..i] && (right + [d])[..|right|] == right;
  }

  lemma IsolatedWithOneMore(chosen: seq<PlanUnit>, all: seq<PlanUnit>, u: PlanUnit)
    requires Isolated(chosen, all) && (forall c :: c in chosen ==> c in all)
    requires ConflictsWith(u, all) == []
    ensures Isolated(chosen + [u], all + [u])
  {
    forall o | o in all + [u] ensures !Clashes(u, o) && !Clashes(o, u) {
      if o in all { assert o.id !in ConflictsWith(u, all); }
      ScopesOverlapSymmetric(u.files, o.files);
    }
    forall c, o | c in chosen + [u] && o in all + [u] ensures !Clashes(c, o) && !Clashes(o, c) {
      if c in chosen && o in all { assert !Clashes(c, o); }
      else if c in chosen { assert c in all + [u]; }
    }
  }

  /** Greedy, in order: no dispatched unit clashes with an active or dispatched one; every deferral is explained. */
  method PlanDispatch(candidates: seq<PlanUnit>, active: seq<PlanUnit>, limit: Option<nat>)
    returns (dispatch: seq<string>, deferred: seq<Deferral>, ghost chosen: seq<PlanUnit>)
    ensures dispatch == IdsOf(chosen) && forall u :: u in chosen ==> u in candidates
    ensures Isolated(chosen, active + chosen)
    ensures limit.Some? ==> |dispatch| <= limit.value
    ensures Splits(candidates, dispatch, deferred)
    ensures AllExplained(deferred, candidates, active + chosen, limit.Some? && |dispatch| == limit.value)
  {
    var selected := active;
    dispatch, deferred, chosen := [], [], [];
    var i := 0;
    while i < |candidates|
      invariant 0 <= i <= |candidates|
      invariant selected == active + chosen && Isolated(chosen, selected)
      invariant dispatch == IdsOf(chosen) && forall u :: u in chosen ==> u in candidates
      invariant limit.Some? ==> |dispatch| <= limit.value
      invariant Splits(candidates[..i], dispatch, deferred)
      invariant AllExplained(deferred, candidates, selected, limit.Some? && |dispatch| == limit.value)
    {
      var unit := candidates[i];
      ghost var full := limit.Some? && |dispatch| == limit.value;
      if limit.Some? && |dispatch| >= limit.value {
        SentRight(candidates, i, dispatch, deferred, NoWorker(unit.id));
        DeferralAdded(deferred, NoWorker(unit.id), candidates, selected, full);
        deferred := deferred + [NoWorker(unit.id)];
      } else {
        var hits := ConflictsWith(unit, selected);
        if hits != [] {
          SentRight(candidates, i, dispatch, deferred, ScopeOverlap(unit.id, hits));
          OverlapExplained(unit, candidates, selected, full);
          DeferralAdded(deferred, ScopeOverlap(unit.id, hits), candidates, selected, full);
          deferred := deferred + [ScopeOverlap(unit.id, hits)];
        } else {
          SentLeft(candidates, i, dispatch, deferred);
          IsolatedWithOneMore(chosen, selected, unit);
          SelectionGrows(deferred, candidates, selected, unit, full, limit.Some? && |dispatch| + 1 == limit.value);
          dispatch := dispatch + [unit.id];
          selected := selected + [unit];
          assert active + (chosen + [unit]) == (active + chosen) + [unit];
          chosen := chosen + [unit];
        }
      }
      i := i + 1;
    }
    assert candidates[..|candidates|] == candidates;
  }

  ghost predicate ShareAScopePath(a: seq<string>, b: seq<string>) {
    exists path :: Normal(path) && ScopeContains(path, a) && ScopeContains(path, b)
  }

  predicate SomeEntriesMeet(a: seq<string>, b: seq<string>) {
    exists i, j :: 0 <= i < |a| && 0 <= j < |b| && StringsMeet(a[i], b[j])
  }

  /** Units that may run together can touch a common path exactly when two of their entries meet as strings. */
  lemma TogetherExactly(a: PlanUnit, b: PlanUnit)
    requires a.id != b.id && !Clashes(a, b)
    ensures ShareAScopePath(a.files, b.files) <==> SomeEntriesMeet(a.files, b.files)
  {
    if ShareAScopePath(a.files, b.files) {
      var path :| Normal(path) && ScopeContains(path, a.files) && ScopeContains(path, b.files);
      SharedMeets(a.files, b.files, path);
    }
    if SomeEntriesMeet(a.files, b.files) {
      MeetingIsShared(a.files, b.files);
    }
  }

  lemma SharedMeets(a: seq<string>, b: seq<string>, path: string)
    requires a != [] && b != [] && Normal(path) && ScopeContains(path, a) && ScopeContains(path, b)
    ensures SomeEntriesMeet(a, b)
  {
    hide Covers, StringsMeet;
    var i :| 0 <= i < |a| && Covers(a[i], path);
    var j :| 0 <= j < |b| && Covers(b[j], path);
    SharingIsDecided(a[i], b[j]);
    assert StringsMeet(a[i], b[j]);
  }

  lemma MeetingIsShared(a: seq<string>, b: seq<string>)
    requires SomeEntriesMeet(a, b)
    ensures ShareAScopePath(a, b)
  {
    hide Covers, StringsMeet;
    var i, j :| 0 <= i < |a| && 0 <= j < |b| && StringsMeet(a[i], b[j]);
    SharingIsDecided(a[i], b[j]);
    var path :| Normal(path) && Covers(a[i], path) && Covers(b[j], path);
    assert ScopeContains(path, a) && ScopeContains(path, b);
  }

  predicate AllPlain(files: seq<string>) {
    forall i :: 0 <= i < |files| ==> Plain(files[i])
  }

  /** One entry is a literal, the other a glob that reaches it and slips through the test. */
  predicate SlippedPair(e: string, f: string) {
    || (!IsGlob(e) && IsGlob(f) && SlipsThrough(e, f) && GlobReaches(e, f))
    || (IsGlob(e) && !IsGlob(f) && SlipsThrough(f, e) && GlobReaches(f, e))
  }

  predicate SomeSlippedPair(a: seq<string>, b: seq<string>) {
    exists i, j :: 0 <= i < |a| && 0 <= j < |b| && SlippedPair(a[i], b[j])
  }

  /** Entries that both modules read alike, reported disjoint, meet only as a literal and a glob that slip through. */
  lemma PlainPair(e: string, f: string)
    requires Plain(e) && Plain(f) && !PatternsOverlap(e, f)
    ensures StringsMeet(e, f) <==> SlippedPair(e, f)
  {
    hide Plain, PatternsOverlap, StringsMeet, SlipsThrough, GlobReaches, ShareAPath, IsGlob;
    SharingIsDecided(e, f);
    if IsGlob(e) == IsGlob(f) {
      if ShareAPath(e, f) { SameKindShares(e, f); }
    } else if IsGlob(f) {
      MissedExactly(e, f);
    } else {
      ShareSymmetric(e, f);
      OverlapSymmetric(e, f);
      MissedExactly(f, e);
    }
  }

  lemma SameKindShares(e: string, f: string)
    requires Plain(e) && Plain(f) && (IsGlob(e) <==> IsGlob(f)) && ShareAPath(e, f)
    ensures PatternsOverlap(e, f)
  {
    var path :| Normal(path) && Covers(e, path) && Covers(f, path);
    SameKindSound(e, f, path);
  }

  /** For such entries it always takes a literal and a glob. */
  lemma PlainTogetherExactly(a: PlanUnit, b: PlanUnit)
    requires a.id != b.id && !Clashes(a, b) && AllPlain(a.files) && AllPlain(b.files)
    ensures ShareAScopePath(a.files, b.files) <==> SomeSlippedPair(a.files, b.files)
  {
    hide Plain, PatternsOverlap, StringsMeet, SlippedPair;
    TogetherExactly(a, b);
    forall i, j | 0 <= i < |a.files| && 0 <= j < |b.files|
      ensures StringsMeet(a.files[i], b.files[j]) <==> SlippedPair(a.files[i], b.files[j]) {
      PlainPair(a.files[i], b.files[j]);
    }
  }
}
