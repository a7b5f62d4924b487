/** An abstract commit graph with branches: what the queue sees of a repository. */
module CommitGraph {
  import opened Wrappers

  type Oid = string

  /** `ancestors[c]` are all commits reachable from `c`, itself included; `refs` are branch tips. */
  datatype Git = Git(ancestors: map<Oid, set<Oid>>, refs: map<string, Oid>)

  ghost predicate WellFormed(g: Git) {
    && (forall c :: c in g.ancestors ==> c in g.ancestors[c])
    && (forall c, x :: c in g.ancestors && x in g.ancestors[c] ==> x in g.ancestors && g.ancestors[x] <= g.ancestors[c])
    && (forall b :: b in g.refs ==> g.refs[b] in g.ancestors)
  }

  predicate Reaches(g: Git, c: Oid, x: Oid) {
    c in g.ancestors && x in g.ancestors[c]
  }

  function Tip(g: Git, branch: string): Option<Oid> {
    if branch in g.refs then Some(g.refs[branch]) else None
  }

  /** Objects are immutable: anyone may add commits and move branches, nobody rewrites a commit. */
  ghost predicate Continues(g: Git, g': Git) {
    WellFormed(g') && forall c :: c in g.ancestors ==> c in g'.ancestors && g'.ancestors[c] == g.ancestors[c]
  }

  /** Merging `head` into a checkout of `target`: already there, fast-forward, or a new commit. */
  function MergeResult(g: Git, target: Oid, head: Oid, newId: Oid): Oid {
    if Reaches(g, target, head) then target
    else if Reaches(g, head, target) then head
    else newId
  }

  /** The objects after that merge; no branch moves. */
  function WithMerge(g: Git, target: Oid, head: Oid, newId: Oid): Git
    requires target in g.ancestors && head in g.ancestors
  {
    if MergeResult(g, target, head, newId) == newId && newId !in g.ancestors
    then g.(ancestors := g.ancestors[newId := {newId} + g.ancestors[target] + g.ancestors[head]])
    else g
  }

  lemma MergeHasBoth(g: Git, target: Oid, head: Oid, newId: Oid)
    requires WellFormed(g) && target in g.ancestors && head in g.ancestors && newId !in g.ancestors
    ensures Continues(g, WithMerge(g, target, head, newId))
    ensures var m := MergeResult(g, target, head, newId);
            && Reaches(WithMerge(g, target, head, newId), m, target)
            && Reaches(WithMerge(g, target, head, newId), m, head)
  {
    var g' := WithMerge(g, target, head, newId);
    forall c, x | c in g'.ancestors && x in g'.ancestors[c]
      ensures x in g'.ancestors && g'.ancestors[x] <= g'.ancestors[c]
    {
      if c == newId && x != newId {
        assert x in g.ancestors[target] || x in g.ancestors[head];
      }
    }
  }

  lemma ReachesTransitive(g: Git, a: Oid, b: Oid, c: Oid)
    requires WellFormed(g) && Reaches(g, a, b) && Reaches(g, b, c)
    ensures Reaches(g, a, c)
  {
  }
}
