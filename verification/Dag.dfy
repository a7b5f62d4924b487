/** Plan structure: unique ids, known dependencies, cycles and layers (runs/dag.py). */
module Dag {
  import opened Wrappers
  import opened Ordering

  type Id = string

  /** Dependency lists by unit id. A listed dependency need not be a unit of the plan. */
  type Deps = map<Id, seq<Id>>

  // ---- graph vocabulary ----

  ghost predicate Edge(deps: Deps, a: Id, b: Id) {
    a in deps && b in deps && b in deps[a]
  }

  ghost predicate IsWalk(deps: Deps, p: seq<Id>) {
    && |p| > 0
    && (forall i :: 0 <= i < |p| ==> p[i] in deps)
    && (forall i :: 0 <= i < |p| - 1 ==> Edge(deps, p[i], p[i + 1]))
  }

  ghost predicate IsCycle(deps: Deps, p: seq<Id>) {
    IsWalk(deps, p) && |p| >= 2 && p[0] == p[|p| - 1]
  }

  ghost predicate Acyclic(deps: Deps) {
    forall p :: !IsCycle(deps, p)
  }

  /** Every known dependency of `order[i]` occurs before position `i`. */
  ghost predicate DepsFirst(order: seq<Id>, deps: Deps) {
    forall i, d :: 0 <= i < |order| && Edge(deps, order[i], d) ==> d in order[..i]
  }

  ghost predicate Known(deps: Deps) {
    forall u, d :: u in deps && d in deps[u] ==> d in deps
  }

  ghost predicate Lists(order: seq<Id>, deps: Deps) {
    Distinct(order) && forall u :: u in order <==> u in deps
  }

  ghost function IndexOf(x: Id, s: seq<Id>): (i: nat)
    requires x in s
    ensures i < |s| && s[i] == x
  {
    var i :| 0 <= i < |s| && s[i] == x; i
  }

  lemma WalkTail(deps: Deps, p: seq<Id>)
    requires IsWalk(deps, p) && |p| > 1
    ensures IsWalk(deps, p[1..])
  {
    forall k | 0 <= k < |p[1..]| - 1 ensures Edge(deps, p[1..][k], p[1..][k + 1]) {
      assert Edge(deps, p[k + 1], p[k + 2]);
    }
  }

  lemma WalkExtend(deps: Deps, u: Id, tail: seq<Id>)
    requires IsWalk(deps, tail) && Edge(deps, u, tail[0])
    ensures IsWalk(deps, [u] + tail)
  {
    var p := [u] + tail;
    forall k | 0 <= k < |p| - 1 ensures Edge(deps, p[k], p[k + 1]) {
      if k > 0 { assert Edge(deps, tail[k - 1], tail[k]); }
    }
  }

  lemma {:induction false} WalkDescends(order: seq<Id>, deps: Deps, p: seq<Id>)
    requires Lists(order, deps) && DepsFirst(order, deps) && IsWalk(deps, p)
    ensures IndexOf(p[|p| - 1], order) + |p| - 1 <= IndexOf(p[0], order)
  {
    if |p| > 1 {
      assert Edge(deps, p[0], p[1]);
      var i := IndexOf(p[0], order);
      assert p[1] in order[..i];
      var j :| 0 <= j < i && order[j] == p[1];
      assert IndexOf(p[1], order) == j;
      WalkTail(deps, p);
      WalkDescends(order, deps, p[1..]);
    }
  }

  lemma OrderedMeansAcyclic(order: seq<Id>, deps: Deps)
    requires Lists(order, deps) && DepsFirst(order, deps)
    ensures Acyclic(deps)
  {
    forall p ensures !IsCycle(deps, p) {
      if IsCycle(deps, p) { WalkDescends(order, deps, p); }
    }
  }

  // ---- every acyclic part has a bottom ----

  lemma {:induction false} Pigeonhole(p: seq<Id>, s: set<Id>)
    requires forall i :: 0 <= i < |p| ==> p[i] in s
    requires |p| > |s|
    ensures !Distinct(p)
  {
    if Distinct(p) {
      var x := p[0];
      assert Distinct(p[1..]) by {
        forall i, j | 0 <= i < j < |p[1..]| ensures p[1..][i] != p[1..][j] { assert p[i + 1] != p[j + 1]; }
      }
      forall i | 0 <= i < |p[1..]| ensures p[1..][i] in s - {x} { assert p[1..][i] == p[i + 1] && p[0] != p[i + 1]; }
      Pigeonhole(p[1..], s - {x});
    }
  }

  ghost predicate HasEdgeInto(deps: Deps, u: Id, s: set<Id>) {
    exists d :: d in s && Edge(deps, u, d)
  }

  lemma WalkSnoc(deps: Deps, p: seq<Id>, d: Id)
    requires IsWalk(deps, p) && Edge(deps, p[|p| - 1], d)
    ensures IsWalk(deps, p + [d])
  {
    var q := p + [d];
    forall k | 0 <= k < |q| - 1 ensures Edge(deps, q[k], q[k + 1]) {
      if k < |p| - 1 { assert Edge(deps, p[k], p[k + 1]); }
    }
  }

  lemma {:induction false} LongWalk(deps: Deps, s: set<Id>, n: nat) returns (p: seq<Id>)
    requires s != {} && s <= deps.Keys
    requires forall u :: u in s ==> HasEdgeInto(deps, u, s)
    ensures IsWalk(deps, p) && |p| == n + 1 && forall i :: 0 <= i < |p| ==> p[i] in s
  {
    if n == 0 {
      var u :| u in s;
      p := [u];
    } else {
      hide IsWalk, Edge;
      var q := LongWalk(deps, s, n - 1);
      assert q[n - 1] in s;
      var d :| d in s && Edge(deps, q[n - 1], d);
      WalkSnoc(deps, q, d);
      p := q + [d];
    }
  }

  lemma RepeatIsCycle(deps: Deps, p: seq<Id>, i: nat, j: nat)
    requires IsWalk(deps, p) && i < j < |p| && p[i] == p[j]
    ensures IsCycle(deps, p[i..j + 1])
  {
    var c := p[i..j + 1];
    forall k | 0 <= k < |c| - 1 ensures Edge(deps, c[k], c[k + 1]) { assert Edge(deps, p[i + k], p[i + k + 1]); }
  }

  lemma NoBottomIsCyclic(deps: Deps, s: set<Id>)
    requires s != {} && s <= deps.Keys && forall u :: u in s ==> HasEdgeInto(deps, u, s)
    ensures !Acyclic(deps)
  {
    hide IsWalk, IsCycle;
    var p := LongWalk(deps, s, |s|);
    Pigeonhole(p, s);
    var i, j :| 0 <= i < j < |p| && p[i] == p[j];
    RepeatIsCycle(deps, p, i, j);
  }

  /** In an acyclic graph every nonempty set of units has one with no dependency in the set. */
  lemma BottomExists(deps: Deps, s: set<Id>) returns (u: Id)
    requires Acyclic(deps) && s != {} && s <= deps.Keys
    ensures u in s && forall d :: d in deps[u] ==> d !in s
  {
    if forall u :: u in s ==> HasEdgeInto(deps, u, s) {
      u :| u in s;
      NoBottomIsCyclic(deps, s);
    } else {
      u :| u in s && !HasEdgeInto(deps, u, s);
      forall d | d in deps[u] ensures d !in s {
        if d in s { assert Edge(deps, u, d); }
      }
    }
  }

  // ---- cycle search ----

  datatype Color = White | Grey | Black

  ghost predicate SearchOk(deps: Deps, color: map<Id, Color>, stack: seq<Id>, finished: seq<Id>) {
    && color.Keys == deps.Keys
    && Distinct(stack)
    && (forall u :: u in stack <==> u in color && color[u] == Grey)
    && (stack != [] ==> IsWalk(deps, stack))
    && Distinct(finished)
    && (forall u :: u in finished <==> u in color && color[u] == Black)
    && DepsFirst(finished, deps)
  }

  ghost function Whites(color: map<Id, Color>): set<Id> {
    set u | u in color && color[u] == White
  }

  ghost function Blacks(color: map<Id, Color>): set<Id> {
    set u | u in color && color[u] == Black
  }

  lemma EnterOk(deps: Deps, color: map<Id, Color>, stack: seq<Id>, finished: seq<Id>, node: Id)
    requires SearchOk(deps, color, stack, finished)
    requires node in color && color[node] == White
    requires stack != [] ==> Edge(deps, stack[|stack| - 1], node)
    ensures SearchOk(deps, color[node := Grey], stack + [node], finished)
    ensures Whites(color[node := Grey]) < Whites(color)
    ensures Blacks(color[node := Grey]) == Blacks(color)
  {
    assert node in Whites(color) && node !in Whites(color[node := Grey]);
    var stack' := stack + [node];
    forall i | 0 <= i < |stack'| - 1 ensures Edge(deps, stack'[i], stack'[i + 1]) {
      if i < |stack| - 1 { assert Edge(deps, stack[i], stack[i + 1]); }
    }
  }

  lemma LeaveOk(deps: Deps, color: map<Id, Color>, stack: seq<Id>, finished: seq<Id>, node: Id)
    requires SearchOk(deps, color, stack + [node], finished)
    requires forall d :: d in deps[node] && d in deps ==> d in Blacks(color)
    requires node in deps
    ensures SearchOk(deps, color[node := Black], stack, finished + [node])
    ensures Whites(color[node := Black]) == Whites(color)
    ensures Blacks(color[node := Black]) == Blacks(color) + {node}
  {
    var before := stack + [node];
    assert before[|stack|] == node;
    assert color[node] == Grey by { assert node in before; }
    assert node !in stack by {
      forall i | 0 <= i < |stack| ensures stack[i] != node { assert before[i] != before[|stack|]; }
    }
    forall u ensures u in stack <==> u in color && color[node := Black][u] == Grey {
      assert u in before <==> u in stack || u == node;
    }
    if stack != [] {
      forall i | 0 <= i < |stack| - 1 ensures Edge(deps, stack[i], stack[i + 1]) {
        assert Edge(deps, before[i], before[i + 1]);
      }
    }
    assert Distinct(stack) by {
      forall i, j | 0 <= i < j < |stack| ensures stack[i] != stack[j] { assert before[i] != before[j]; }
    }
    FinishedGrows(deps, finished, node);
  }

  lemma FinishedGrows(deps: Deps, finished: seq<Id>, node: Id)
    requires DepsFirst(finished, deps) && forall d :: Edge(deps, node, d) ==> d in finished
    ensures DepsFirst(finished + [node], deps)
  {
    var finished' := finished + [node];
    forall i, d | 0 <= i < |finished'| && Edge(deps, finished'[i], d) ensures d in finished'[..i] {
      if i < |finished| {
        assert Edge(deps, finished[i], d);
        assert finished'[..i] == finished[..i];
      } else {
        assert finished'[..i] == finished;
      }
    }
  }

  lemma BackEdgeCloses(deps: Deps, stack: seq<Id>, start: nat)
    requires IsWalk(deps, stack) && start < |stack|
    requires Edge(deps, stack[|stack| - 1], stack[start])
    ensures IsCycle(deps, stack[start..] + [stack[start]])
  {
    var cycle := stack[start..] + [stack[start]];
    forall k | 0 <= k < |cycle| - 1 ensures Edge(deps, cycle[k], cycle[k + 1]) {
      if start + k < |stack| - 1 { assert Edge(deps, stack[start + k], stack[start + k + 1]); }
    }
  }

  lemma SearchFacts(deps: Deps, color: map<Id, Color>, stack: seq<Id>, finished: seq<Id>)
    requires SearchOk(deps, color, stack, finished)
    ensures color.Keys == deps.Keys && (forall u :: u in stack <==> u in color && color[u] == Grey)
    ensures stack != [] ==> IsWalk(deps, stack)
    ensures forall u :: u in color && color[u] == Black ==> u in Blacks(color)
  {
  }

  /** The listed dependencies that are units at all are finished. */
  ghost predicate Explored(deps: Deps, ds: seq<Id>, blacks: set<Id>) {
    forall d :: d in ds && d in deps ==> d in blacks
  }

  lemma ExploredOneMore(deps: Deps, ds: seq<Id>, i: nat, before: set<Id>, after: set<Id>)
    requires i < |ds| && Explored(deps, ds[..i], before) && before <= after && (ds[i] in deps ==> ds[i] in after)
    ensures Explored(deps, ds[..i + 1], after)
  {
    assert ds[..i + 1] == ds[..i] + [ds[i]];
  }

  lemma NothingExplored(deps: Deps, ds: seq<Id>, blacks: set<Id>)
    ensures Explored(deps, ds[..0], blacks)
  {
  }

  lemma AllExplored(deps: Deps, node: Id, ds: seq<Id>, blacks: set<Id>)
    requires node in deps && ds == SortIds(deps[node]) && Explored(deps, ds[..|ds|], blacks)
    ensures forall d :: d in deps[node] && d in deps ==> d in blacks
  {
    assert ds[..|ds|] == ds;
  }

  /** The mutable state of the three-colour search. */
  class Search {
    const deps: Deps
    var color: map<Id, Color>
    var stack: seq<Id>
    ghost var finished: seq<Id>

    constructor (deps: Deps)
      ensures this.deps == deps && SearchOk(deps, color, stack, finished)
      ensures stack == [] && forall u :: u in color ==> color[u] == White
    {
      this.deps := deps;
      color := map u | u in deps :: White;
      stack := [];
      finished := [];
    }

    /** Explores `node`; a result is a cycle, no result finishes `node`. */
    method Visit(node: Id) returns (found: Option<seq<Id>>)
      requires SearchOk(deps, color, stack, finished) && node in color && color[node] == White
      requires stack != [] ==> Edge(deps, stack[|stack| - 1], node)
      modifies this
      ensures found.Some? ==> IsCycle(deps, found.value)
      ensures found.None? ==> SearchOk(deps, color, stack, finished) && stack == old(stack) && node in Blacks(color)
      ensures found.None? ==> Whites(color) < old(Whites(color)) && old(Blacks(color)) <= Blacks(color)
      decreases Whites(color)
    {
      hide SearchOk, IsWalk, IsCycle, Whites, Blacks, Explored, SortIds;
      ghost var stack0, blacks0, whites0 := stack, Blacks(color), Whites(color);
      EnterOk(deps, color, stack, finished, node);
      color, stack := color[node := Grey], stack + [node];
      SearchFacts(deps, color, stack, finished);
      var ds := SortIds(deps[node]);
      var i := 0;
      NothingExplored(deps, ds, Blacks(color));
      while i < |ds|
        invariant 0 <= i <= |ds|
        invariant SearchOk(deps, color, stack, finished) && stack == stack0 + [node]
        invariant blacks0 <= Blacks(color) && Whites(color) < whites0
        invariant Explored(deps, ds[..i], Blacks(color))
      {
        var dep := ds[i];
        ghost var blacks := Blacks(color);
        SearchFacts(deps, color, stack, finished);
        if dep in color {
          assert Edge(deps, node, dep);
          if color[dep] == Grey {
            var start := StackIndex(dep);
            BackEdgeCloses(deps, stack, start);
            return Some(stack[start..] + [dep]);
          }
          if color[dep] == White {
            var inner := Visit(dep);
            if inner.Some? { return inner; }
          }
        }
        ExploredOneMore(deps, ds, i, blacks, Blacks(color));
        i := i + 1;
      }
      AllExplored(deps, node, ds, Blacks(color));
      LeaveOk(deps, color, stack0, finished, node);
      stack := stack[..|stack| - 1];
      color := color[node := Black];
      finished := finished + [node];
      return None;
    }

    /** `stack.index(dep)` */
    method StackIndex(dep: Id) returns (i: nat)
      requires dep in stack
      ensures i < |stack| && stack[i] == dep
      ensures dep !in stack[..i]
    {
      i := 0;
      while stack[i] != dep
        invariant i < |stack| && dep !in stack[..i]
        decreases |stack| - i
      {
        i := i + 1;
      }
    }
  }

  /** A cycle is reported exactly when there is one; otherwise some order puts dependencies first. */
  method FindCycle(ids: seq<Id>, deps: Deps) returns (r: Option<seq<Id>>)
    requires forall u :: u in ids <==> u in deps
    ensures r.Some? ==> IsCycle(deps, r.value)
    ensures r.None? ==> exists order :: Lists(order, deps) && DepsFirst(order, deps)
    ensures r.None? <==> Acyclic(deps)
  {
    var search := new Search(deps);
    hide SearchOk, IsCycle, Blacks;
    var sorted := SortIds(ids);
    var i := 0;
    while i < |sorted|
      invariant 0 <= i <= |sorted|
      invariant search.deps == deps && search.stack == []
      invariant SearchOk(deps, search.color, search.stack, search.finished)
      invariant Explored(deps, sorted[..i], Blacks(search.color))
    {
      ghost var blacks := Blacks(search.color);
      SearchFacts(deps, search.color, search.stack, search.finished);
      if search.color[sorted[i]] == White {
        var found := search.Visit(sorted[i]);
        if found.Some? { return found; }
      }
      ExploredOneMore(deps, sorted, i, blacks, Blacks(search.color));
      i := i + 1;
    }
    assert sorted[..i] == sorted;
    SearchDone(deps, search.color, search.finished, sorted);
    OrderedMeansAcyclic(search.finished, deps);
    return None;
  }

  lemma SearchDone(deps: Deps, color: map<Id, Color>, finished: seq<Id>, ids: seq<Id>)
    requires SearchOk(deps, color, [], finished) && (forall u :: u in deps ==> u in ids)
    requires Explored(deps, ids, Blacks(color))
    ensures Lists(finished, deps) && DepsFirst(finished, deps)
  {
    forall u | u in deps ensures u in finished { assert u in ids; }
  }

  // ---- plans ----

  datatype RawUnit = NotAnObject | Object(id: Option<string>, dependsOn: Option<seq<string>>)
  datatype RawPlan = NotAList | Units(units: seq<RawUnit>)

  datatype PlanError =
    | InvalidPlan
    | InvalidUnit(index: nat)
    | InvalidId(index: nat)
    | DuplicateId(id: Id)
    | InvalidDependsOn(id: Id)
    | MissingDependency(id: Id, dependency: Id)
    | DependencyCycle(cycle: seq<Id>)

  datatype Analysis = Analysis(errors: seq<PlanError>, cycle: Option<seq<Id>>,
                               layers: seq<seq<Id>>, order: seq<Id>)

  /** `list(dict.fromkeys(raw))` */
  function Dedup(s: seq<Id>): (r: seq<Id>)
    ensures forall x :: x in r <==> x in s
    ensures Distinct(r)
  {
    if s == [] then []
    else
      var front := Dedup(s[..|s| - 1]);
      assert s == s[..|s| - 1] + [s[|s| - 1]];
      if s[|s| - 1] in front then front else front + [s[|s| - 1]]
  }

  ghost predicate WellFormedUnit(u: RawUnit) {
    u.Object? && u.id.Some? && u.id.value != "" && u.dependsOn.Some?
  }

  ghost predicate WellFormedUnits(units: seq<RawUnit>) {
    && (forall i :: 0 <= i < |units| ==> WellFormedUnit(units[i]))
    && (forall i, j :: 0 <= i < j < |units| ==> units[i].id != units[j].id)
  }

  ghost function UnitIds(units: seq<RawUnit>): seq<Id>
    requires WellFormedUnits(units)
  {
    seq(|units|, i requires 0 <= i < |units| => units[i].id.value)
  }

  ghost function Graph(units: seq<RawUnit>): (deps: Deps)
    requires WellFormedUnits(units)
    ensures deps.Keys == set u | u in UnitIds(units)
  {
    if units == [] then map[]
    else
      var u := units[|units| - 1];
      var front := units[..|units| - 1];
      assert UnitIds(units) == UnitIds(front) + [u.id.value];
      Graph(front)[u.id.value := Dedup(u.dependsOn.value)]
  }

  /** What a plan must be to be accepted. */
  ghost predicate PlanOk(plan: RawPlan) {
    && plan.Units?
    && WellFormedUnits(plan.units)
    && Known(Graph(plan.units))
    && Acyclic(Graph(plan.units))
  }

  lemma FrontWellFormed(units: seq<RawUnit>, i: nat)
    requires i < |units| && WellFormedUnits(units[..i + 1])
    ensures WellFormedUnits(units[..i]) && WellFormedUnit(units[i])
    ensures units[i].id.value !in UnitIds(units[..i])
  {
    var after, before := units[..i + 1], units[..i];
    forall j | 0 <= j < i ensures WellFormedUnit(before[j]) { assert WellFormedUnit(after[j]); }
    assert WellFormedUnit(after[i]);
    forall j, k | 0 <= j < k < i ensures before[j].id != before[k].id { assert after[j].id != after[k].id; }
    forall j | 0 <= j < i ensures UnitIds(before)[j] != units[i].id.value { assert after[j].id != after[i].id; }
  }

  lemma AcceptedUnit(units: seq<RawUnit>, i: nat)
    requires i < |units| && WellFormedUnits(units[..i]) && WellFormedUnit(units[i])
    requires units[i].id.value !in UnitIds(units[..i])
    ensures WellFormedUnits(units[..i + 1])
    ensures UnitIds(units[..i + 1]) == UnitIds(units[..i]) + [units[i].id.value]
    ensures Graph(units[..i + 1]) == Graph(units[..i])[units[i].id.value := Dedup(units[i].dependsOn.value)]
  {
    var after, before := units[..i + 1], units[..i];
    forall j, k | 0 <= j < k <= i ensures after[j].id != after[k].id {
      if k == i { assert UnitIds(before)[j] == after[j].id.value; } else { assert before[j].id != before[k].id; }
    }
    assert after[..i] == before;
  }

  /** What collecting has come to after some units: no error means they are well formed and fully recorded. */
  ghost predicate Collected(units: seq<RawUnit>, errors: seq<PlanError>, ids: seq<Id>, deps: Deps) {
    && (errors == [] <==> WellFormedUnits(units))
    && (errors == [] ==> ids == UnitIds(units) && deps == Graph(units))
  }

  // ---- what is wrong with a plan ----

  ghost predicate NamedAs(u: RawUnit, id: Id) {
    u.Object? && u.id == Some(id) && id != ""
  }

  ghost predicate FirstAs(units: seq<RawUnit>, i: int, id: Id) {
    0 <= i < |units| && NamedAs(units[i], id) && forall j :: 0 <= j < i ==> !NamedAs(units[j], id)
  }

  /** The first unit of this name lists `d`. */
  ghost predicate ListsDep(units: seq<RawUnit>, i: int, id: Id, d: Id) {
    FirstAs(units, i, id) && units[i].dependsOn.Some? && d in units[i].dependsOn.value
  }

  ghost predicate IsNamed(units: seq<RawUnit>, id: Id) {
    exists i :: FirstAs(units, i, id)
  }

  /** A fault of the list itself, cycles aside. */
  ghost predicate Wrong(units: seq<RawUnit>, e: PlanError) {
    match e
    case InvalidPlan => false
    case InvalidUnit(i) => i < |units| && units[i].NotAnObject?
    case InvalidId(i) => i < |units| && units[i].Object? && (units[i].id == None || units[i].id == Some(""))
    case DuplicateId(id) => exists i, j :: 0 <= i < j < |units| && NamedAs(units[i], id) && NamedAs(units[j], id)
    case InvalidDependsOn(id) => exists i :: FirstAs(units, i, id) && units[i].dependsOn.None?
    case MissingDependency(id, d) => (exists i :: ListsDep(units, i, id, d)) && !IsNamed(units, d)
    case DependencyCycle(_) => false
  }

  ghost predicate OfUnits(e: PlanError) {
    e.InvalidUnit? || e.InvalidId? || e.DuplicateId? || e.InvalidDependsOn?
  }

  /** The graph that is searched: the first unit of each name, with what it lists. */
  ghost function Read(units: seq<RawUnit>): Deps {
    if units == [] then map[]
    else
      var front, u := Read(units[..|units| - 1]), units[|units| - 1];
      if u.Object? && u.id.Some? && u.id.value != "" && u.id.value !in front
      then front[u.id.value := Dedup(if u.dependsOn.Some? then u.dependsOn.value else [])]
      else front
  }

  lemma FirstEarlier(units: seq<RawUnit>, n: nat, i: int, id: Id)
    requires n <= |units|
    ensures FirstAs(units[..n], i, id) <==> i < n && FirstAs(units, i, id)
  {
    if 0 <= i < n { assert units[..n][i] == units[i]; }
    if i < n && FirstAs(units, i, id) {
      forall j | 0 <= j < i ensures !NamedAs(units[..n][j], id) { assert units[..n][j] == units[j]; }
    }
    if FirstAs(units[..n], i, id) {
      forall j | 0 <= j < i ensures !NamedAs(units[j], id) { assert units[..n][j] == units[j]; }
    }
  }

  /** Anything named has a first unit of its name. */
  lemma {:induction false} SomeFirst(units: seq<RawUnit>, i: nat, id: Id)
    requires i < |units| && NamedAs(units[i], id)
    ensures IsNamed(units, id)
    decreases i
  {
    if FirstAs(units, i, id) {
    } else {
      var j :| 0 <= j < i && NamedAs(units[j], id);
      SomeFirst(units, j, id);
    }
  }

  lemma {:induction false} ReadNames(units: seq<RawUnit>, id: Id)
    ensures id in Read(units) <==> IsNamed(units, id)
  {
    if units != [] {
      var n := |units| - 1;
      ReadNames(units[..n], id);
      forall i ensures FirstAs(units[..n], i, id) <==> i < n && FirstAs(units, i, id) { FirstEarlier(units, n, i, id); }
      if NamedAs(units[n], id) { SomeFirst(units, n, id); }
      if IsNamed(units, id) {
        var i :| FirstAs(units, i, id);
        if i < n { assert FirstAs(units[..n], i, id); }
      }
      if IsNamed(units[..n], id) {
        var i :| FirstAs(units[..n], i, id);
        assert FirstAs(units, i, id);
      }
    }
  }

  /** The graph lists exactly what the first unit of each name lists. */
  lemma {:induction false} ReadDeps(units: seq<RawUnit>, id: Id, d: Id)
    requires id in Read(units)
    ensures d in Read(units)[id] <==> exists i :: ListsDep(units, i, id, d)
  {
    var n := |units| - 1;
    var front := units[..n];
    forall i ensures FirstAs(front, i, id) <==> i < n && FirstAs(units, i, id) { FirstEarlier(units, n, i, id); }
    ReadNames(front, id);
    if id in Read(front) {
      ReadDeps(front, id, d);
      var k :| FirstAs(front, k, id);
      assert front[k] == units[k];
      forall i | FirstAs(units, i, id) ensures i == k && front[i] == units[i] {}
      assert ListsDep(front, k, id, d) <==> ListsDep(units, k, id, d);
    } else {
      ReadNames(units, id);
      var k :| FirstAs(units, k, id);
      assert k == n;
      assert ListsDep(units, n, id, d) <==> d in Read(units)[id];
      forall i | FirstAs(units, i, id) ensures i == n {}
    }
  }

  /** What one more unit adds to the faults. */
  ghost predicate WrongAt(units: seq<RawUnit>, n: nat, e: PlanError)
    requires n < |units|
  {
    match e
    case InvalidUnit(i) => i == n && units[n].NotAnObject?
    case InvalidId(i) => i == n && units[n].Object? && (units[n].id == None || units[n].id == Some(""))
    case DuplicateId(id) => NamedAs(units[n], id) && id in Read(units[..n])
    case InvalidDependsOn(id) => NamedAs(units[n], id) && id !in Read(units[..n]) && units[n].dependsOn.None?
    case _ => false
  }

  lemma WrongGrows(units: seq<RawUnit>, n: nat, e: PlanError)
    requires n < |units| && OfUnits(e)
    ensures Wrong(units[..n + 1], e) <==> Wrong(units[..n], e) || WrongAt(units, n, e)
  {
    var after, before := units[..n + 1], units[..n];
    match e
    case DuplicateId(id) => DuplicatesGrow(units, n, id);
    case InvalidDependsOn(id) => BadDepsGrow(units, n, id);
    case _ =>
  }

  lemma DuplicatesGrow(units: seq<RawUnit>, n: nat, id: Id)
    requires n < |units|
    ensures Wrong(units[..n + 1], DuplicateId(id)) <==>
            Wrong(units[..n], DuplicateId(id)) || WrongAt(units, n, DuplicateId(id))
  {
    var after, before := units[..n + 1], units[..n];
    ReadNames(before, id);
    if Wrong(after, DuplicateId(id)) {
      var i, j :| 0 <= i < j < |after| && NamedAs(after[i], id) && NamedAs(after[j], id);
      assert before[i] == after[i];
      if j < n { assert before[j] == after[j]; } else { SomeFirst(before, i, id); }
    }
    if Wrong(before, DuplicateId(id)) {
      var i, j :| 0 <= i < j < |before| && NamedAs(before[i], id) && NamedAs(before[j], id);
      assert NamedAs(after[i], id) && NamedAs(after[j], id);
    }
    if WrongAt(units, n, DuplicateId(id)) {
      var i :| FirstAs(before, i, id);
      assert NamedAs(after[i], id) && NamedAs(after[n], id);
    }
  }

  lemma BadDepsGrow(units: seq<RawUnit>, n: nat, id: Id)
    requires n < |units|
    ensures Wrong(units[..n + 1], InvalidDependsOn(id)) <==>
            Wrong(units[..n], InvalidDependsOn(id)) || WrongAt(units, n, InvalidDependsOn(id))
  {
    var after, before := units[..n + 1], units[..n];
    assert after[..n] == before;
    ReadNames(before, id);
    forall i ensures FirstAs(before, i, id) <==> i < n && FirstAs(after, i, id) { FirstEarlier(after, n, i, id); }
    if Wrong(before, InvalidDependsOn(id)) {
      var i :| FirstAs(before, i, id) && before[i].dependsOn.None?;
      assert FirstAs(after, i, id) && after[i] == before[i];
    }
    if Wrong(after, InvalidDependsOn(id)) {
      var i :| FirstAs(after, i, id) && after[i].dependsOn.None?;
      if i < n { assert FirstAs(before, i, id) && after[i] == before[i]; }
    }
    if WrongAt(units, n, InvalidDependsOn(id)) {
      forall j | 0 <= j < n ensures !NamedAs(after[j], id) {
        if NamedAs(before[j], id) { SomeFirst(before, j, id); }
      }
      assert FirstAs(after, n, id);
    }
  }

  /** The faults and the graph found so far are exactly those of the units read so far. */
  ghost predicate Found(units: seq<RawUnit>, errors: seq<PlanError>, deps: Deps) {
    deps == Read(units) && forall e :: e in errors <==> OfUnits(e) && Wrong(units, e)
  }

  lemma FoundMore(units: seq<RawUnit>, n: nat, errors: seq<PlanError>, deps: Deps, more: seq<PlanError>, deps': Deps)
    requires n < |units| && Found(units[..n], errors, deps) && deps' == Read(units[..n + 1])
    requires forall e :: e in more <==> OfUnits(e) && WrongAt(units, n, e)
    ensures Found(units[..n + 1], errors + more, deps')
  {
    forall e | OfUnits(e) ensures Wrong(units[..n + 1], e) <==> Wrong(units[..n], e) || WrongAt(units, n, e) {
      WrongGrows(units, n, e);
    }
  }

  lemma ReadMore(units: seq<RawUnit>, n: nat)
    requires n < |units|
    ensures Read(units[..n + 1]) ==
            var front, u := Read(units[..n]), units[n];
            if u.Object? && u.id.Some? && u.id.value != "" && u.id.value !in front
            then front[u.id.value := Dedup(if u.dependsOn.Some? then u.dependsOn.value else [])]
            else front
  {
    assert units[..n + 1][..n] == units[..n];
  }

  /** A plan without faults is read as its graph. */
  lemma {:induction false} ReadWellFormed(units: seq<RawUnit>)
    requires WellFormedUnits(units)
    ensures Read(units) == Graph(units)
  {
    if units != [] {
      var n := |units| - 1;
      assert units[..n + 1] == units;
      FrontWellFormed(units, n);
      ReadWellFormed(units[..n]);
      AcceptedUnit(units, n);
    }
  }

  lemma UnitRefused(units: seq<RawUnit>, i: nat, errors: seq<PlanError>, error: PlanError, ids: seq<Id>, deps: Deps,
                    ids': seq<Id>, deps': Deps)
    requires i < |units| && Collected(units[..i], errors, ids, deps)
    requires !WellFormedUnit(units[i]) || (errors == [] ==> units[i].id.value in ids)
    ensures Collected(units[..i + 1], errors + [error], ids', deps')
  {
    if WellFormedUnits(units[..i + 1]) { FrontWellFormed(units, i); }
  }

  lemma UnitKept(units: seq<RawUnit>, i: nat, errors: seq<PlanError>, ids: seq<Id>, deps: Deps)
    requires i < |units| && Collected(units[..i], errors, ids, deps)
    requires WellFormedUnit(units[i]) && units[i].id.value !in ids
    ensures Collected(units[..i + 1], errors, ids + [units[i].id.value],
                      deps[units[i].id.value := Dedup(units[i].dependsOn.value)])
  {
    if WellFormedUnits(units[..i + 1]) { FrontWellFormed(units, i); }
    if errors == [] { AcceptedUnit(units, i); }
  }

  lemma NothingFound(units: seq<RawUnit>)
    ensures Found(units[..0], [], map[])
  {
  }

  /** The faults one unit adds when it is collected, case by case. */
  function NewErrors(u: RawUnit, n: nat, deps: Deps): seq<PlanError> {
    if u.NotAnObject? then [InvalidUnit(n)]
    else if u.id.None? || u.id.value == "" then [InvalidId(n)]
    else if u.id.value in deps then [DuplicateId(u.id.value)]
    else if u.dependsOn.None? then [InvalidDependsOn(u.id.value)]
    else []
  }

  function NewDeps(u: RawUnit, deps: Deps): Deps {
    if u.NotAnObject? || u.id.None? || u.id.value == "" || u.id.value in deps then deps
    else deps[u.id.value := Dedup(if u.dependsOn.Some? then u.dependsOn.value else [])]
  }

  lemma UnitFound(units: seq<RawUnit>, n: nat, errors: seq<PlanError>, deps: Deps)
    requires n < |units| && Found(units[..n], errors, deps)
    ensures Found(units[..n + 1], errors + NewErrors(units[n], n, deps), NewDeps(units[n], deps))
  {
    ReadMore(units, n);
    FoundMore(units, n, errors, deps, NewErrors(units[n], n, deps), NewDeps(units[n], deps));
  }

  method Collect(units: seq<RawUnit>) returns (errors: seq<PlanError>, ids: seq<Id>, deps: Deps)
    ensures errors == [] <==> WellFormedUnits(units)
    ensures errors == [] ==> ids == UnitIds(units) && deps == Graph(units)
    ensures Distinct(ids) && forall u :: u in ids <==> u in deps
    ensures Found(units, errors, deps)
  {
    hide Found, Wrong, WrongAt, Read;
    errors, ids, deps := [], [], map[];
    NothingFound(units);
    var index := 0;
    while index < |units|
      invariant 0 <= index <= |units|
      invariant Distinct(ids) && forall u :: u in ids <==> u in deps
      invariant Collected(units[..index], errors, ids, deps)
      invariant Found(units[..index], errors, deps)
    {
      var unit := units[index];
      UnitFound(units, index, errors, deps);
      if unit.NotAnObject? {
        UnitRefused(units, index, errors, InvalidUnit(index), ids, deps, ids, deps);
        errors := errors + [InvalidUnit(index)];
      } else if unit.id.None? || unit.id.value == "" {
        UnitRefused(units, index, errors, InvalidId(index), ids, deps, ids, deps);
        errors := errors + [InvalidId(index)];
      } else if unit.id.value in deps {
        UnitRefused(units, index, errors, DuplicateId(unit.id.value), ids, deps, ids, deps);
        errors := errors + [DuplicateId(unit.id.value)];
      } else {
        var uid := unit.id.value;
        var raw := if unit.dependsOn.Some? then unit.dependsOn.value else [];
        if unit.dependsOn.None? {
          UnitRefused(units, index, errors, InvalidDependsOn(uid), ids, deps, ids + [uid], deps[uid := Dedup(raw)]);
          errors := errors + [InvalidDependsOn(uid)];
        } else {
          UnitKept(units, index, errors, ids, deps);
          assert errors + [] == errors;
        }
        ids, deps := ids + [uid], deps[uid := Dedup(raw)];
      }
      index := index + 1;
    }
    assert units[..|units|] == units;
  }

  /** A listed dependency that is no unit, among the first `n` units. */
  ghost predicate Misses(ids: seq<Id>, n: nat, deps: Deps, e: PlanError)
    requires n <= |ids| && forall u :: u in ids <==> u in deps
  {
    e.MissingDependency? && e.id in ids[..n] && e.dependency in deps[e.id] && e.dependency !in deps
  }

  method MissingDependencies(ids: seq<Id>, deps: Deps) returns (errors: seq<PlanError>)
    requires forall u :: u in ids <==> u in deps
    ensures errors == [] <==> Known(deps)
    ensures forall e :: e in errors <==> Misses(ids, |ids|, deps, e)
  {
    errors := [];
    for i := 0 to |ids|
      invariant errors == [] <==> forall k, d :: 0 <= k < i && d in deps[ids[k]] ==> d in deps
      invariant forall e :: e in errors <==> Misses(ids, i, deps, e)
    {
      var ds := deps[ids[i]];
      assert ids[..i + 1] == ids[..i] + [ids[i]];
      for j := 0 to |ds|
        invariant errors == [] <==>
                  (forall k, d :: 0 <= k < i && d in deps[ids[k]] ==> d in deps)
                  && forall k :: 0 <= k < j ==> ds[k] in deps
        invariant forall e :: e in errors <==>
                    || Misses(ids, i, deps, e)
                    || (e.MissingDependency? && e.id == ids[i] && e.dependency in ds[..j] && e.dependency !in deps)
      {
        assert ds[..j + 1] == ds[..j] + [ds[j]];
        if ds[j] !in deps { errors := errors + [MissingDependency(ids[i], ds[j])]; }
      }
      assert ds[..|ds|] == ds;
    }
    assert ids[..|ids|] == ids;
  }

  // ---- layers ----

  /** `level` puts every unit one above its highest dependency. */
  ghost predicate Levels(deps: Deps, level: map<Id, nat>) {
    && level.Keys <= deps.Keys
    && (forall u :: u in level ==> LevelOk(deps, level, u))
  }

  ghost predicate LevelOk(deps: Deps, level: map<Id, nat>, u: Id)
    requires u in level && u in deps
  {
    && (forall d :: d in deps[u] ==> d in level && level[d] < level[u])
    && (level[u] > 0 ==> exists d :: d in deps[u] && d in level && level[d] == level[u] - 1)
  }

  ghost predicate LongestChain(deps: Deps, u: Id, k: nat) {
    && (exists p :: IsWalk(deps, p) && p[0] == u && |p| == k + 1)
    && (forall p :: IsWalk(deps, p) && p[0] == u ==> |p| <= k + 1)
  }

  lemma {:induction false} ChainBound(deps: Deps, level: map<Id, nat>, p: seq<Id>)
    requires Levels(deps, level) && IsWalk(deps, p) && p[0] in level
    ensures |p| <= level[p[0]] + 1
  {
    if |p| > 1 {
      assert Edge(deps, p[0], p[1]);
      assert LevelOk(deps, level, p[0]);
      WalkTail(deps, p);
      ChainBound(deps, level, p[1..]);
    }
  }

  lemma {:induction false} ChainExists(deps: Deps, level: map<Id, nat>, u: Id) returns (p: seq<Id>)
    requires Levels(deps, level) && u in level
    ensures IsWalk(deps, p) && p[0] == u && |p| == level[u] + 1
    decreases level[u]
  {
    if level[u] == 0 {
      p := [u];
    } else {
      assert LevelOk(deps, level, u);
      var d :| d in deps[u] && d in level && level[d] == level[u] - 1;
      var tail := ChainExists(deps, level, d);
      WalkExtend(deps, u, tail);
      p := [u] + tail;
    }
  }

  lemma LevelIsLongestChain(deps: Deps, level: map<Id, nat>, u: Id)
    requires Levels(deps, level) && u in level
    ensures LongestChain(deps, u, level[u])
  {
    var p := ChainExists(deps, level, u);
    forall q | IsWalk(deps, q) && q[0] == u ensures |q| <= level[u] + 1 { ChainBound(deps, level, q); }
  }

  function Flatten(layers: seq<seq<Id>>): seq<Id> {
    if layers == [] then [] else Flatten(layers[..|layers| - 1]) + layers[|layers| - 1]
  }

  /** The ids whose remaining dependencies are all done, sorted. */
  function ReadyLayer(ids: seq<Id>, remaining: map<Id, set<Id>>, done: set<Id>): (layer: seq<Id>)
    requires Distinct(ids)
    ensures Distinct(layer)
    ensures forall u :: u in layer <==> u in ids && u in remaining && remaining[u] <= done
  {
    SortIds(SelectReady(ids, remaining, done))
  }

  lemma LayerSorted(ids: seq<Id>, remaining: map<Id, set<Id>>, done: set<Id>)
    requires Distinct(ids)
    ensures SortedBy(ReadyLayer(ids, remaining, done), LexLe)
  {
    hide SortedBy, Sort;
    SortIdsSorted(SelectReady(ids, remaining, done));
  }

  function SelectReady(ids: seq<Id>, remaining: map<Id, set<Id>>, done: set<Id>): (r: seq<Id>)
    requires Distinct(ids)
    ensures Distinct(r)
    ensures forall u :: u in r <==> u in ids && u in remaining && remaining[u] <= done
  {
    if ids == [] then []
    else
      var n := |ids| - 1;
      var front := SelectReady(ids[..n], remaining, done);
      assert ids == ids[..n] + [ids[n]];
      assert ids[n] !in ids[..n];
      if ids[n] in remaining && remaining[ids[n]] <= done then front + [ids[n]] else front
  }

  lemma SomeUnitReady(order: seq<Id>, deps: Deps, done: set<Id>) returns (u: Id)
    requires Lists(order, deps) && DepsFirst(order, deps) && Known(deps)
    requires exists x :: x in deps && x !in done
    ensures u in deps && u !in done && forall d :: d in deps[u] ==> d in done
  {
    var x :| x in deps && x !in done;
    var k := IndexOf(x, order);
    var i := 0;
    while order[i] in done
      invariant 0 <= i <= k && forall j :: 0 <= j < i ==> order[j] in done
      decreases k - i
    {
      i := i + 1;
    }
    u := order[i];
    forall d | d in deps[u] ensures d in done {
      assert Edge(deps, u, d);
      assert d in order[..i];
    }
  }

  /** What the layering loop keeps: `done` is laid out in `order`, one level per layer. */
  ghost predicate LayerState(deps: Deps, remaining: map<Id, set<Id>>, done: set<Id>, order: seq<Id>,
                             layers: seq<seq<Id>>, level: map<Id, nat>) {
    && level.Keys == done
    && Split(deps, remaining, done)
    && Laid(deps, done, order)
    && order == Flatten(layers)
    && Levels(deps, level)
    && Ranked(layers, level)
    && AllWait(deps, remaining.Keys, level, |layers|)
  }

  ghost predicate Split(deps: Deps, remaining: map<Id, set<Id>>, done: set<Id>) {
    && remaining.Keys !! done && remaining.Keys + done == deps.Keys
    && (forall u :: u in remaining ==> remaining[u] == set d | d in deps[u])
  }

  ghost predicate Laid(deps: Deps, done: set<Id>, order: seq<Id>) {
    Distinct(order) && (forall u :: u in order <==> u in done) && DepsFirst(order, deps)
  }

  ghost predicate Ranked(layers: seq<seq<Id>>, level: map<Id, nat>) {
    && (forall k, u :: 0 <= k < |layers| && u in layers[k] ==> u in level && level[u] == k)
    && (forall u :: u in level ==> level[u] < |layers|)
    && (forall k :: 0 <= k < |layers| ==> layers[k] != [])
  }

  ghost predicate AllWait(deps: Deps, us: set<Id>, level: map<Id, nat>, n: nat) {
    us <= deps.Keys && forall u :: u in us ==> Waits(deps, u, level, n)
  }

  /** Some dependency of `u` is not done, or was done only in the last of `n` layers. */
  ghost predicate Waits(deps: Deps, u: Id, level: map<Id, nat>, n: nat)
    requires u in deps
  {
    n > 0 ==> exists d :: d in deps[u] && (d !in level || level[d] == n - 1)
  }

  ghost function Raise(level: map<Id, nat>, layer: seq<Id>, n: nat): (r: map<Id, nat>)
    ensures forall u :: u in r <==> u in level || u in layer
    ensures forall u :: u in layer ==> r[u] == n
    ensures forall u :: u in level && u !in layer ==> r[u] == level[u]
  {
    level + map u | u in layer :: n
  }

  ghost predicate IsReadyLayer(layer: seq<Id>, remaining: map<Id, set<Id>>, done: set<Id>) {
    && Distinct(layer)
    && forall u :: u in layer <==> u in remaining && remaining[u] <= done
  }

  function Without(remaining: map<Id, set<Id>>, layer: seq<Id>): (r: map<Id, set<Id>>)
    ensures forall u :: u in r <==> u in remaining && u !in layer
    ensures forall u :: u in r ==> r[u] == remaining[u]
  {
    map u | u in remaining && u !in layer :: remaining[u]
  }

  lemma SplitAdvances(deps: Deps, remaining: map<Id, set<Id>>, done: set<Id>, layer: seq<Id>)
    requires Split(deps, remaining, done) && IsReadyLayer(layer, remaining, done)
    ensures Split(deps, Without(remaining, layer), done + (set u | u in layer))
    ensures forall u :: u in layer ==> u in deps && u !in done && forall d :: d in deps[u] ==> d in done
  {
    forall u | u in layer ensures u in deps && u !in done && forall d :: d in deps[u] ==> d in done {
      assert u in remaining.Keys && u in remaining.Keys + done;
      forall d | d in deps[u] ensures d in done { assert d in remaining[u]; }
    }
    var left := Without(remaining, layer).Keys;
    var done' := done + (set u | u in layer);
    assert left + done' == remaining.Keys + done;
  }

  lemma RankedAdvances(layers: seq<seq<Id>>, level: map<Id, nat>, layer: seq<Id>)
    requires Ranked(layers, level) && layer != []
    requires forall u :: u in layer ==> u !in level
    ensures Ranked(layers + [layer], Raise(level, layer, |layers|))
  {
    var next := layers + [layer];
    var level' := Raise(level, layer, |layers|);
    forall k, u | 0 <= k < |next| && u in next[k] ensures u in level' && level'[u] == k {
      if k < |layers| {
        assert u in layers[k];
        assert u in level;
      }
    }
  }

  lemma WaitsAdvance(deps: Deps, remaining: map<Id, set<Id>>, done: set<Id>, level: map<Id, nat>,
                     layer: seq<Id>, n: nat)
    requires Split(deps, remaining, done) && level.Keys == done && IsReadyLayer(layer, remaining, done)
    ensures AllWait(deps, Without(remaining, layer).Keys, Raise(level, layer, n), n + 1)
  {
    var left := Without(remaining, layer);
    assert left.Keys <= deps.Keys by {
      forall u | u in left.Keys ensures u in deps.Keys { assert u in remaining.Keys + done; }
    }
    forall u | u in left.Keys ensures Waits(deps, u, Raise(level, layer, n), n + 1) {
      assert u in remaining && u !in layer && !(remaining[u] <= done);
      var d :| d in remaining[u] && d !in done;
      assert d in deps[u] && (d !in Raise(level, layer, n) || Raise(level, layer, n)[d] == n);
    }
  }

  lemma LaidAdvances(deps: Deps, done: set<Id>, order: seq<Id>, layer: seq<Id>)
    requires Laid(deps, done, order) && Distinct(layer)
    requires forall u :: u in layer ==> u in deps && u !in done && forall d :: d in deps[u] ==> d in done
    ensures Laid(deps, done + (set u | u in layer), order + layer)
  {
    hide DepsFirst, Distinct;
    OrderGrows(order, deps, layer, done);
  }

  lemma LevelsAdvance(deps: Deps, remaining: map<Id, set<Id>>, layers: seq<seq<Id>>, level: map<Id, nat>,
                      layer: seq<Id>)
    requires Levels(deps, level) && Ranked(layers, level) && AllWait(deps, remaining.Keys, level, |layers|)
    requires forall u :: u in layer ==> u in remaining.Keys && u in deps && u !in level
    requires forall u :: u in layer ==> forall d :: d in deps[u] ==> d in level
    ensures Levels(deps, Raise(level, layer, |layers|))
  {
    hide Levels, Waits;
    LevelsGrow(deps, level, layer, |layers|);
  }

  lemma FlattenMore(layers: seq<seq<Id>>, layer: seq<Id>)
    ensures Flatten(layers + [layer]) == Flatten(layers) + layer
  {
    assert (layers + [layer])[..|layers|] == layers;
  }

  lemma LayerAdvances(deps: Deps, remaining: map<Id, set<Id>>, done: set<Id>, order: seq<Id>,
                      layers: seq<seq<Id>>, level: map<Id, nat>, layer: seq<Id>)
    requires LayerState(deps, remaining, done, order, layers, level)
    requires IsReadyLayer(layer, remaining, done) && layer != []
    ensures LayerState(deps, Without(remaining, layer), done + (set u | u in layer), order + layer,
                       layers + [layer], Raise(level, layer, |layers|))
  {
    SplitAdvances(deps, remaining, done, layer);
    hide AllWait, Ranked, Levels, Laid, Split, Flatten, Distinct;
    WaitsAdvance(deps, remaining, done, level, layer, |layers|);
    RankedAdvances(layers, level, layer);
    LaidAdvances(deps, done, order, layer);
    FlattenMore(layers, layer);
    LevelsAdvance(deps, remaining, layers, level, layer);
  }

  lemma LayeringStarts(deps: Deps)
    ensures LayerState(deps, map u | u in deps :: set d | d in deps[u], {}, [], [], map[])
  {
    assert Split(deps, map u | u in deps :: set d | d in deps[u], {}) && Laid(deps, {}, []);
  }

  lemma NextLayerReady(ids: seq<Id>, deps: Deps, remaining: map<Id, set<Id>>, done: set<Id>, order: seq<Id>,
                       layers: seq<seq<Id>>, level: map<Id, nat>, topo: seq<Id>)
    requires Distinct(ids) && (forall u :: u in ids <==> u in deps) && Known(deps)
    requires Lists(topo, deps) && DepsFirst(topo, deps)
    requires LayerState(deps, remaining, done, order, layers, level) && |remaining| > 0
    ensures var layer := ReadyLayer(ids, remaining, done);
            && layer != [] && IsReadyLayer(layer, remaining, done) && (forall u :: u in layer ==> u in remaining)
            && |Without(remaining, layer)| < |remaining|
  {
    LayerIsReady(ids, deps, remaining, done, topo);
    LayerShrinks(remaining, ReadyLayer(ids, remaining, done));
  }

  /** Repeatedly takes every unit whose dependencies are done. The empty-layer exit is dead code. */
  method Layer(ids: seq<Id>, deps: Deps, ghost topo: seq<Id>) returns (layers: seq<seq<Id>>, order: seq<Id>)
    requires Distinct(ids) && (forall u :: u in ids <==> u in deps) && Known(deps)
    requires Lists(topo, deps) && DepsFirst(topo, deps)
    ensures Lists(order, deps) && DepsFirst(order, deps)
    ensures order == Flatten(layers)
    ensures forall k, u :: 0 <= k < |layers| && u in layers[k] ==> LongestChain(deps, u, k)
    ensures forall k :: 0 <= k < |layers| ==> layers[k] != [] && SortedBy(layers[k], LexLe)
  {
    hide LayerState, Lists, SortedBy, DepsFirst, Known, LongestChain, Flatten, ReadyLayer, IsReadyLayer;
    hide Distinct, Without;
    layers, order := [], [];
    var remaining := map u | u in deps :: set d | d in deps[u];
    var done: set<Id> := {};
    ghost var level: map<Id, nat> := map[];
    LayeringStarts(deps);
    while |remaining| > 0
      invariant LayerState(deps, remaining, done, order, layers, level)
      invariant forall k :: 0 <= k < |layers| ==> SortedBy(layers[k], LexLe)
      decreases |remaining|
    {
      var layer := ReadyLayer(ids, remaining, done);
      LayerSorted(ids, remaining, done);
      NextLayerReady(ids, deps, remaining, done, order, layers, level, topo);
      if layer == [] {
        assert false;
        break;
      }
      LayerAdvances(deps, remaining, done, order, layers, level, layer);
      level := Raise(level, layer, |layers|);
      layers, order := layers + [layer], order + layer;
      done := done + (set u | u in layer);
      remaining := Without(remaining, layer);
    }
    LayersExplained(deps, remaining, done, order, layers, level);
  }

  lemma LayerIsReady(ids: seq<Id>, deps: Deps, remaining: map<Id, set<Id>>, done: set<Id>, topo: seq<Id>)
    requires Distinct(ids) && (forall u :: u in ids <==> u in deps) && Known(deps)
    requires Lists(topo, deps) && DepsFirst(topo, deps)
    requires Split(deps, remaining, done) && |remaining| > 0
    ensures ReadyLayer(ids, remaining, done) != []
    ensures IsReadyLayer(ReadyLayer(ids, remaining, done), remaining, done)
  {
    forall u | u in remaining ensures u in ids { assert u in remaining.Keys + done; }
    var next := SomeReady(remaining, deps, done, topo);
    assert next in ReadyLayer(ids, remaining, done);
  }

  lemma LayerShrinks(remaining: map<Id, set<Id>>, layer: seq<Id>)
    requires layer != [] && forall u :: u in layer ==> u in remaining
    ensures |Without(remaining, layer)| < |remaining|
  {
    assert layer[0] in remaining.Keys && layer[0] !in Without(remaining, layer).Keys;
    CardinalityShrinks(Without(remaining, layer).Keys, remaining.Keys);
  }

  lemma AllLaid(deps: Deps, remaining: map<Id, set<Id>>, done: set<Id>, order: seq<Id>)
    requires Split(deps, remaining, done) && |remaining| == 0 && Laid(deps, done, order)
    ensures Lists(order, deps) && DepsFirst(order, deps)
  {
    assert remaining.Keys == {} && done == deps.Keys;
  }

  lemma RanksExplained(deps: Deps, layers: seq<seq<Id>>, level: map<Id, nat>)
    requires Levels(deps, level) && Ranked(layers, level)
    ensures forall k, u :: 0 <= k < |layers| && u in layers[k] ==> LongestChain(deps, u, k)
  {
    forall k, u | 0 <= k < |layers| && u in layers[k] ensures LongestChain(deps, u, k) {
      assert u in level && level[u] == k;
      LevelIsLongestChain(deps, level, u);
    }
  }

  lemma LayersExplained(deps: Deps, remaining: map<Id, set<Id>>, done: set<Id>, order: seq<Id>,
                        layers: seq<seq<Id>>, level: map<Id, nat>)
    requires LayerState(deps, remaining, done, order, layers, level) && |remaining| == 0
    ensures Lists(order, deps) && DepsFirst(order, deps) && order == Flatten(layers)
    ensures forall k, u :: 0 <= k < |layers| && u in layers[k] ==> LongestChain(deps, u, k)
    ensures forall k :: 0 <= k < |layers| ==> layers[k] != []
  {
    AllLaid(deps, remaining, done, order);
    RanksExplained(deps, layers, level);
  }

  lemma CardinalityShrinks(a: set<Id>, b: set<Id>)
    requires a < b
    ensures |a| < |b|
  {
    assert |b - a| + |a| == |b| by { assert (b - a) + a == b; }
    var x :| x in b - a;
  }

  lemma SomeReady(remaining: map<Id, set<Id>>, deps: Deps, done: set<Id>, topo: seq<Id>) returns (u: Id)
    requires Lists(topo, deps) && DepsFirst(topo, deps) && Known(deps)
    requires remaining.Keys !! done && remaining.Keys + done == deps.Keys && |remaining| > 0
    requires forall u :: u in remaining ==> remaining[u] == set d | d in deps[u]
    ensures u in remaining && remaining[u] <= done
  {
    assert remaining.Keys != {};
    var x :| x in remaining.Keys;
    assert x in deps && x !in done;
    u := SomeUnitReady(topo, deps, done);
    assert u in remaining.Keys + done;
  }

  lemma LevelsGrow(deps: Deps, level: map<Id, nat>, layer: seq<Id>, n: nat)
    requires Levels(deps, level)
    requires forall u :: u in layer ==> u in deps && u !in level && forall d :: d in deps[u] ==> d in level
    requires forall u :: u in level ==> level[u] < n
    requires forall u :: u in layer ==> Waits(deps, u, level, n)
    ensures Levels(deps, Raise(level, layer, n))
  {
    var level' := Raise(level, layer, n);
    assert forall u :: u in level ==> u !in layer && level'[u] == level[u];
    forall u | u in level' ensures LevelOk(deps, level', u) {
      if u in layer {
        assert Waits(deps, u, level, n);
        if n > 0 {
          var d :| d in deps[u] && (d !in level || level[d] == n - 1);
          assert level'[d] == level'[u] - 1;
        }
      } else {
        assert LevelOk(deps, level, u);
        if level[u] > 0 {
          var d :| d in deps[u] && d in level && level[d] == level[u] - 1;
          assert level'[d] == level'[u] - 1;
        }
      }
    }
  }

  lemma OrderGrows(order: seq<Id>, deps: Deps, layer: seq<Id>, done: set<Id>)
    requires Distinct(order) && Distinct(layer) && DepsFirst(order, deps)
    requires forall u :: u in order <==> u in done
    requires forall u :: u in layer ==> u !in done && u in deps && forall d :: d in deps[u] ==> d in done
    ensures Distinct(order + layer) && DepsFirst(order + layer, deps)
  {
    var all := order + layer;
    forall i, j | 0 <= i < j < |all| ensures all[i] != all[j] {
      if i < |order| && |order| <= j { assert all[i] in order && all[j] in layer; }
    }
    forall i, d | 0 <= i < |all| && Edge(deps, all[i], d) ensures d in all[..i] {
      if i < |order| {
        assert all[..i] == order[..i];
        assert Edge(deps, order[i], d);
      } else {
        assert all[i] in layer && d in order;
        assert all[..i] == order + layer[..i - |order|];
      }
    }
  }

  lemma MissingFound(units: seq<RawUnit>, ids: seq<Id>, deps: Deps, e: PlanError)
    requires e.MissingDependency? && deps == Read(units) && forall u :: u in ids <==> u in deps
    ensures Misses(ids, |ids|, deps, e) <==> Wrong(units, e)
  {
    assert ids[..|ids|] == ids;
    ReadNames(units, e.id);
    ReadNames(units, e.dependency);
    if e.id in deps {
      ReadDeps(units, e.id, e.dependency);
    } else {
      forall i ensures !ListsDep(units, i, e.id, e.dependency) {}
    }
  }

  lemma FoundReads(units: seq<RawUnit>, errors: seq<PlanError>, deps: Deps)
    requires Found(units, errors, deps)
    ensures deps == Read(units)
  {
  }

  /** Every fault is reported and every report is a fault. */
  lemma FaultsAreThese(units: seq<RawUnit>, ids: seq<Id>, deps: Deps, errors: seq<PlanError>, missing: seq<PlanError>)
    requires Found(units, errors, deps) && forall u :: u in ids <==> u in deps
    requires forall e :: e in missing <==> Misses(ids, |ids|, deps, e)
    ensures forall e :: e in errors + missing <==> Wrong(units, e)
  {
    forall e ensures e in errors + missing <==> Wrong(units, e) {
      assert e in errors <==> OfUnits(e) && Wrong(units, e);
      if e.MissingDependency? { MissingFound(units, ids, deps, e); }
    }
  }

  method AnalyzePlan(plan: RawPlan) returns (a: Analysis)
    ensures a.errors == [] <==> PlanOk(plan)
    ensures plan.NotAList? ==> a.errors == [InvalidPlan]
    ensures plan.Units? ==> forall e :: e in a.errors <==>
              Wrong(plan.units, e) || (a.cycle.Some? && e == DependencyCycle(a.cycle.value))
    ensures plan.Units? ==>
              && (a.cycle.None? <==> Acyclic(Read(plan.units)))
              && (a.cycle.Some? ==> IsCycle(Read(plan.units), a.cycle.value))
    ensures a.cycle.Some? ==>
              && a.errors != [] && |a.cycle.value| >= 2
              && a.cycle.value[0] == a.cycle.value[|a.cycle.value| - 1]
    ensures plan.Units? && WellFormedUnits(plan.units) ==> (a.cycle.None? <==> Acyclic(Graph(plan.units)))
    ensures PlanOk(plan) ==>
              && Lists(a.order, Graph(plan.units)) && DepsFirst(a.order, Graph(plan.units))
              && a.order == Flatten(a.layers)
              && (forall k :: 0 <= k < |a.layers| ==> SortedBy(a.layers[k], LexLe))
              && forall k, u :: 0 <= k < |a.layers| && u in a.layers[k] ==> LongestChain(Graph(plan.units), u, k)
    ensures !PlanOk(plan) ==> a.layers == [] && a.order == []
  {
    if plan.NotAList? { return Analysis([InvalidPlan], None, [], []); }
    hide Found, Wrong, Misses, Read;
    var errors, ids, deps := Collect(plan.units);
    assert deps == Read(plan.units) by { FoundReads(plan.units, errors, deps); }
    var missing := MissingDependencies(ids, deps);
    FaultsAreThese(plan.units, ids, deps, errors, missing);
    errors := errors + missing;
    var cycle := FindCycle(ids, deps);
    if cycle.Some? { errors := errors + [DependencyCycle(cycle.value)]; }
    var layers, order := [], [];
    if errors == [] {
      ghost var topo :| Lists(topo, deps) && DepsFirst(topo, deps);
      layers, order := Layer(ids, deps, topo);
    }
    return Analysis(errors, cycle, layers, order);
  }
}
