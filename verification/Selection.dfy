/** Runner selection, reviewer selection and review acceptance (routing/selection.py). */
module Selection {
  import opened Wrappers
  import opened Ordering

  datatype Role = Author | Review | Coordination | Fallback

  /** What the registry knows of a runner; classes are named by their tier. */
  datatype Profile = Profile(
    provider: string, roles: set<Role>,
    classes: set<int>, reviewClasses: set<int>, coordinationClasses: set<int>,
    highRiskOk: bool, largeContextOnly: bool)

  /** The policy's part in selection, with its defaults filled in. */
  datatype Policy = Policy(
    allowed: set<string>, authorProviders: Option<set<string>>,
    namedModels: map<string, set<int>>, persona: bool)

  /** Everything fixed at one moment: registry, policy, breaker, catalog and prices. */
  datatype World = World(
    profiles: map<string, Profile>, retired: set<string>, policy: Policy, open: set<string>,
    resolve: (string, int) -> Option<string>, cost: (string, string, int) -> Option<real>,
    family: (string, string) -> string)

  /** The empty name is no runner. */
  predicate ValidWorld(w: World) {
    "" !in w.profiles
  }

  datatype Query = Query(
    tier: int, role: Role, highRisk: bool, largeContext: bool,
    providers: set<string>, runners: set<string>, families: set<string>)

  datatype Entry = Entry(runner: string, family: string, model: string, cost: Option<real>, fallback: bool)

  datatype Reason =
    | Retired | Unknown | NotAllowed | Excluded | BreakerOpen | NotAuthorProvider | RoleDenied
    | ClassNotServed | HighRiskDenied | NeedsLargeContext | NoModel | SameFamily

  datatype Verdict = Candidate(entry: Entry) | Rejected(runner: string, reason: Reason)

  // ---- one runner ----

  function OnlyFallback(p: Profile, role: Role): bool {
    role == Author && Author !in p.roles && Fallback in p.roles
  }

  predicate Permitted(p: Profile, role: Role) {
    role in p.roles || OnlyFallback(p, role)
  }

  function RoleClasses(p: Profile, role: Role): set<int> {
    match role
    case Review => p.reviewClasses
    case Coordination => p.coordinationClasses
    case _ => p.classes
  }

  /** A persona team's policy may name a model for a class the runner does not otherwise serve. */
  predicate Serves(w: World, name: string, p: Profile, q: Query) {
    || q.tier in RoleClasses(p, q.role)
    || (w.policy.persona && name in w.policy.namedModels && q.tier in w.policy.namedModels[name])
  }

  /** Rules that no exclusion changes. */
  function Barred(w: World, q: Query, name: string, p: Profile): Option<Reason> {
    if q.role == Author && w.policy.authorProviders.Some? && p.provider !in w.policy.authorProviders.value
    then Some(NotAuthorProvider)
    else if !Permitted(p, q.role) then Some(RoleDenied)
    else if !Serves(w, name, p, q) then Some(ClassNotServed)
    else if q.highRisk && !p.highRiskOk then Some(HighRiskDenied)
    else if p.largeContextOnly && !q.largeContext && q.role != Review then Some(NeedsLargeContext)
    else None
  }

  /** The eligibility rules in the order they are applied; the first that fails is the reason. */
  function Judge(w: World, q: Query, name: string): Verdict {
    if name in w.retired then Rejected(name, Retired)
    else if name !in w.profiles then Rejected(name, Unknown)
    else
      var p := w.profiles[name];
      if p.provider !in w.policy.allowed then Rejected(name, NotAllowed)
      else if p.provider in q.providers || name in q.runners then Rejected(name, Excluded)
      else if p.provider in w.open then Rejected(name, BreakerOpen)
      else if Barred(w, q, name, p).Some? then Rejected(name, Barred(w, q, name, p).value)
      else
        var model := w.resolve(name, q.tier);
        if model.None? then Rejected(name, NoModel)
        else
          var family := w.family(name, model.value);
          if family in q.families then Rejected(name, SameFamily)
          else Candidate(Entry(name, family, model.value, w.cost(name, model.value, q.tier), OnlyFallback(p, q.role)))
  }

  // ---- all runners ----

  /** Known costs before unknown ones, then by cost, runner and model. */
  predicate CheaperOrEqual(a: Entry, b: Entry) {
    if a.cost.None? || b.cost.None? then b.cost.None? && (a.cost.Some? || NameLe(a, b))
    else a.cost.value < b.cost.value || (a.cost.value == b.cost.value && NameLe(a, b))
  }

  predicate NameLe(a: Entry, b: Entry) {
    if a.runner != b.runner then LexLe(a.runner, b.runner) else LexLe(a.model, b.model)
  }

  /** The certified runners that qualify, as authors of first choice or as fallbacks. */
  function Qualified(w: World, q: Query, names: seq<string>, fallback: bool): seq<Entry> {
    if names == [] then []
    else
      var front, v := Qualified(w, q, names[..|names| - 1], fallback), Judge(w, q, names[|names| - 1]);
      if v.Candidate? && v.entry.fallback == fallback then front + [v.entry] else front
  }

  function Refused(w: World, q: Query, names: seq<string>): seq<Verdict> {
    if names == [] then []
    else
      var front, v := Refused(w, q, names[..|names| - 1]), Judge(w, q, names[|names| - 1]);
      if v.Rejected? then front + [v] else front
  }

  datatype Selection = Selection(best: Option<Entry>, tier: Option<int>, candidates: seq<Entry>, refused: seq<Verdict>)

  predicate ValidQuery(q: Query) {
    0 <= q.tier <= 2 && q.role != Fallback
  }

  function Ranked(w: World, q: Query, names: seq<string>): seq<Entry> {
    Sort(Qualified(w, q, names, false), CheaperOrEqual) + Sort(Qualified(w, q, names, true), CheaperOrEqual)
  }

  function Select(w: World, q: Query, names: seq<string>): Selection {
    if !ValidQuery(q) then Selection(None, None, [], [])
    else
      var ranked := Ranked(w, q, names);
      Selection(if ranked == [] then None else Some(ranked[0]), Some(q.tier), ranked, Refused(w, q, names))
  }

  /** Selection as it runs: one loop that sorts runners into two lists and the rejected. */
  method SelectRunner(w: World, q: Query, names: seq<string>) returns (r: Selection)
    ensures r == Select(w, q, names)
  {
    if !ValidQuery(q) { return Selection(None, None, [], []); }
    var primary, fallback, refused := [], [], [];
    var i := 0;
    while i < |names|
      invariant 0 <= i <= |names|
      invariant primary == Qualified(w, q, names[..i], false)
      invariant fallback == Qualified(w, q, names[..i], true)
      invariant refused == Refused(w, q, names[..i])
    {
      assert names[..i + 1][..i] == names[..i];
      var v := Judge(w, q, names[i]);
      if v.Rejected? {
        refused := refused + [v];
      } else if v.entry.fallback {
        fallback := fallback + [v.entry];
      } else {
        primary := primary + [v.entry];
      }
      i := i + 1;
    }
    assert names[..i] == names;
    primary, fallback := Sort(primary, CheaperOrEqual), Sort(fallback, CheaperOrEqual);
    var pool := if primary != [] then primary else fallback;
    return Selection(if pool == [] then None else Some(pool[0]), Some(q.tier), primary + fallback, refused);
  }

  // ---- what selection returns ----

  lemma CheapestPreorder()
    ensures TotalPreorder(CheaperOrEqual)
  {
    forall a, b ensures CheaperOrEqual(a, b) || CheaperOrEqual(b, a) {
      LexTotal(a.runner, b.runner);
      LexTotal(a.model, b.model);
    }
    forall a, b, c | CheaperOrEqual(a, b) && CheaperOrEqual(b, c) ensures CheaperOrEqual(a, c) {
      if NameLe(a, b) && NameLe(b, c) { NameTransitive(a, b, c); }
    }
  }

  lemma NameTransitive(a: Entry, b: Entry, c: Entry)
    requires NameLe(a, b) && NameLe(b, c)
    ensures NameLe(a, c)
  {
    if a.runner == b.runner == c.runner {
      LexTransitive(a.model, b.model, c.model);
    } else if a.runner != b.runner && b.runner != c.runner {
      LexTransitive(a.runner, b.runner, c.runner);
      if a.runner == c.runner { LexAntisymmetric(a.runner, b.runner); }
    }
  }

  lemma {:induction false} QualifiedExactly(w: World, q: Query, names: seq<string>, fallback: bool, e: Entry)
    ensures e in Qualified(w, q, names, fallback) <==>
              e.runner in names && Judge(w, q, e.runner) == Candidate(e) && e.fallback == fallback
  {
    if names != [] {
      var last := names[|names| - 1];
      QualifiedExactly(w, q, names[..|names| - 1], fallback, e);
      assert e.runner in names <==> e.runner in names[..|names| - 1] || e.runner == last;
    }
  }

  /** The candidates are exactly the certified runners that pass every rule. */
  lemma CandidatesExactly(w: World, q: Query, names: seq<string>, e: Entry)
    requires ValidQuery(q)
    ensures e in Select(w, q, names).candidates <==> e.runner in names && Judge(w, q, e.runner) == Candidate(e)
  {
    QualifiedExactly(w, q, names, false, e);
    QualifiedExactly(w, q, names, true, e);
    SortMembers(Qualified(w, q, names, false), CheaperOrEqual);
    SortMembers(Qualified(w, q, names, true), CheaperOrEqual);
  }

  lemma SortedHead(s: seq<Entry>, e: Entry)
    requires e in s
    ensures CheaperOrEqual(Sort(s, CheaperOrEqual)[0], e)
  {
    CheapestPreorder();
    SortSorted(s, CheaperOrEqual);
    SortMembers(s, CheaperOrEqual);
    var sorted := Sort(s, CheaperOrEqual);
    var i :| 0 <= i < |sorted| && sorted[i] == e;
    assert CheaperOrEqual(e, e);
  }

  /**
   * Someone is chosen exactly when someone is eligible, and the choice is the
   * cheapest; a fallback is chosen only when nobody else is eligible.
   */
  lemma ChoiceIsCheapest(w: World, q: Query, names: seq<string>, e: Entry)
    requires ValidQuery(q) && e.runner in names && Judge(w, q, e.runner) == Candidate(e)
    ensures var r := Select(w, q, names);
            && r.best.Some? && r.best.value.runner in names
            && Judge(w, q, r.best.value.runner) == Candidate(r.best.value)
            && (r.best.value.fallback ==> e.fallback)
            && (r.best.value.fallback == e.fallback ==> CheaperOrEqual(r.best.value, e))
  {
    var primary, spare := Qualified(w, q, names, false), Qualified(w, q, names, true);
    var r := Select(w, q, names);
    CandidatesExactly(w, q, names, e);
    assert r.best.value in r.candidates;
    CandidatesExactly(w, q, names, r.best.value);
    QualifiedExactly(w, q, names, e.fallback, e);
    SortMembers(primary, CheaperOrEqual);
    SortMembers(spare, CheaperOrEqual);
    if primary != [] {
      assert r.best.value == Sort(primary, CheaperOrEqual)[0];
      QualifiedExactly(w, q, names, false, r.best.value);
      if !e.fallback { SortedHead(primary, e); }
    } else {
      assert r.best.value == Sort(spare, CheaperOrEqual)[0];
      QualifiedExactly(w, q, names, true, r.best.value);
      SortedHead(spare, e);
    }
  }

  /** Every certified runner is accounted for: it is a candidate or rejected, once. */
  lemma {:induction false} EveryoneJudged(w: World, q: Query, names: seq<string>)
    ensures |Qualified(w, q, names, false)| + |Qualified(w, q, names, true)| + |Refused(w, q, names)| == |names|
    ensures forall v :: v in Refused(w, q, names) ==> v.Rejected? && v.runner in names && Judge(w, q, v.runner) == v
  {
    if names != [] {
      EveryoneJudged(w, q, names[..|names| - 1]);
      assert names[|names| - 1] in names;
    }
  }

  /** The same request with no more exclusions. */
  predicate Laxer(q: Query, other: Query) {
    && other.tier == q.tier && other.role == q.role
    && other.highRisk == q.highRisk && other.largeContext == q.largeContext
    && other.providers <= q.providers && other.runners <= q.runners && other.families <= q.families
  }

  lemma JudgeLaxer(w: World, q: Query, other: Query, name: string)
    requires Laxer(q, other) && Judge(w, q, name).Candidate?
    ensures Judge(w, other, name) == Judge(w, q, name)
  {
  }

  /** Lifting exclusions never loses a candidate. */
  lemma {:induction false} CandidatesGrow(w: World, q: Query, other: Query, names: seq<string>, fallback: bool)
    requires Laxer(q, other)
    ensures multiset(Qualified(w, q, names, fallback)) <= multiset(Qualified(w, other, names, fallback))
  {
    if names != [] {
      var last := names[|names| - 1];
      CandidatesGrow(w, q, other, names[..|names| - 1], fallback);
      if Judge(w, q, last).Candidate? { JudgeLaxer(w, q, other, last); }
    }
  }

  // ---- reviewers ----

  /** Who wrote the work; the family may be recorded or follow from runner and model. */
  datatype Work = Work(runner: string, family: Option<string>, model: string, tier: Option<int>)

  datatype Class = Class(valid: bool, reviewTier: Option<int>, highRisk: bool, independent: bool)

  datatype Reviewed = Reviewed(runner: string, model: string, tier: Option<int>)

  function FamilyOf(w: World, runner: string, model: string): Option<string> {
    if runner == "" || runner !in w.profiles || runner in w.retired then None else Some(w.family(runner, model))
  }

  function AuthorFamily(w: World, author: Work): Option<string> {
    if author.family.Some? then author.family else FamilyOf(w, author.runner, author.model)
  }

  function RequiredTier(author: Work, cls: Class): int {
    if author.tier == Some(2) || cls.reviewTier.None? then 2 else cls.reviewTier.value
  }

  predicate Strict(author: Work, cls: Class) {
    RequiredTier(author, cls) == 2 || cls.highRisk
  }

  function Just(x: Option<string>): set<string> {
    if x.Some? then {x.value} else {}
  }

  function ReviewQuery(tier: int, cls: Class, runners: set<string>, families: set<string>): Query {
    Query(tier, Review, cls.highRisk, false, {}, runners, families)
  }

  datatype Choice = Choice(selection: Selection, independentFamily: bool, blocking: bool)

  /** The author is kept out where independence is required; another family is tried first. */
  function SelectReviewer(w: World, author: Work, cls: Class, names: seq<string>): Choice {
    var tier, strict := RequiredTier(author, cls), Strict(author, cls);
    if !cls.valid then Choice(Selection(None, None, [], []), false, true)
    else if w.policy.persona then
      var s := Select(w, ReviewQuery(tier, cls, {}, {}), names);
      Choice(s, false, s.best.None? && strict)
    else
      var runners := if cls.independent || strict then {author.runner} else {};
      var s := Select(w, ReviewQuery(tier, cls, runners, Just(AuthorFamily(w, author))), names);
      if s.best.Some? then Choice(s, true, false)
      else if strict then Choice(s, false, true)
      else Choice(Select(w, ReviewQuery(tier, cls, runners, {}), names), false, false)
  }

  /** Whether a reviewer differs from the author as far as the review requires it. */
  predicate IndependentEnough(w: World, author: Work, cls: Class, runner: string, family: Option<string>) {
    || w.policy.persona
    || (&& (Strict(author, cls) || cls.independent ==> author.runner == "" || runner != author.runner)
        && (Strict(author, cls) ==> AuthorFamily(w, author).Some? && family.Some? && family != AuthorFamily(w, author)))
  }

  function AcceptanceQuery(w: World, author: Work, cls: Class, tier: int): Query {
    var independent := (Strict(author, cls) || cls.independent) && !w.policy.persona;
    ReviewQuery(tier, cls,
                if independent && author.runner != "" then {author.runner} else {},
                if independent && Strict(author, cls) then Just(AuthorFamily(w, author)) else {})
  }

  predicate NamedIn(runner: string, entries: seq<Entry>) {
    exists i :: 0 <= i < |entries| && entries[i].runner == runner
  }

  /** The second procedure: whether a recorded review is good enough. */
  predicate ReviewSatisfies(w: World, review: Option<Reviewed>, author: Work, cls: Class,
                            certified: Option<seq<string>>) {
    && cls.valid && review.Some?
    && review.value.runner != "" && review.value.tier.Some? && review.value.tier.value >= RequiredTier(author, cls)
    && IndependentEnough(w, author, cls, review.value.runner, FamilyOf(w, review.value.runner, review.value.model))
    && (certified.Some? ==>
          NamedIn(review.value.runner,
                  Select(w, AcceptanceQuery(w, author, cls, review.value.tier.value), certified.value).candidates))
  }

  function ReviewBy(e: Entry, tier: int): Option<Reviewed> {
    Some(Reviewed(e.runner, e.model, Some(tier)))
  }

  predicate IndependenceCanBeShown(w: World, author: Work, cls: Class) {
    !Strict(author, cls) || w.policy.persona || AuthorFamily(w, author).Some?
  }

  // ---- the two procedures agree ----

  /** What the request behind a chosen reviewer kept out. */
  lemma ChosenQuery(w: World, author: Work, cls: Class, names: seq<string>) returns (q: Query)
    requires SelectReviewer(w, author, cls, names).selection.best.Some?
    ensures cls.valid && ValidQuery(q)
    ensures SelectReviewer(w, author, cls, names).selection == Select(w, q, names)
    ensures Laxer(q, AcceptanceQuery(w, author, cls, RequiredTier(author, cls)))
    ensures !w.policy.persona && (Strict(author, cls) || cls.independent) ==> author.runner in q.runners
    ensures !w.policy.persona && Strict(author, cls) ==> q.families == Just(AuthorFamily(w, author))
  {
    var tier, strict := RequiredTier(author, cls), Strict(author, cls);
    var runners := if cls.independent || strict then {author.runner} else {};
    q := ReviewQuery(tier, cls, runners, Just(AuthorFamily(w, author)));
    if w.policy.persona {
      q := ReviewQuery(tier, cls, {}, {});
    } else if Select(w, q, names).best.None? {
      q := ReviewQuery(tier, cls, runners, {});
    }
  }

  lemma CandidateFacts(w: World, q: Query, names: seq<string>, e: Entry)
    requires ValidWorld(w) && ValidQuery(q) && e in Select(w, q, names).candidates
    ensures e.runner in names && Judge(w, q, e.runner) == Candidate(e)
    ensures e.runner != "" && e.runner !in q.runners && e.family !in q.families
    ensures FamilyOf(w, e.runner, e.model) == Some(e.family)
  {
    CandidatesExactly(w, q, names, e);
  }

  /**
   * A review by the chosen reviewer, at the chosen tier, is accepted exactly
   * when independence can be shown at all: the review is not strict, or
   * personas make it independent, or the author's family is known.
   */
  lemma ChosenReviewerAccepted(w: World, author: Work, cls: Class, names: seq<string>, certified: Option<seq<string>>)
    requires ValidWorld(w) && SelectReviewer(w, author, cls, names).selection.best.Some?
    requires certified == None || certified == Some(names)
    ensures var s := SelectReviewer(w, author, cls, names).selection;
            && s.tier == Some(RequiredTier(author, cls))
            && (ReviewSatisfies(w, ReviewBy(s.best.value, s.tier.value), author, cls, certified)
                <==> IndependenceCanBeShown(w, author, cls))
  {
    var q := ChosenQuery(w, author, cls, names);
    var e, accept := Select(w, q, names).best.value, AcceptanceQuery(w, author, cls, RequiredTier(author, cls));
    assert e in Select(w, q, names).candidates;
    CandidateFacts(w, q, names, e);
    JudgeLaxer(w, q, accept, e.runner);
    CandidatesExactly(w, accept, names, e);
  }

  /** The last request made for a reviewer before giving up. */
  function LastQuery(w: World, author: Work, cls: Class): Query {
    var independent := (Strict(author, cls) || cls.independent) && !w.policy.persona;
    ReviewQuery(RequiredTier(author, cls), cls,
                if independent then {author.runner} else {},
                if independent && Strict(author, cls) then Just(AuthorFamily(w, author)) else {})
  }

  lemma LastQueryDecides(w: World, author: Work, cls: Class, names: seq<string>)
    requires cls.valid && Select(w, LastQuery(w, author, cls), names).best.Some?
    ensures SelectReviewer(w, author, cls, names).selection.best.Some?
  {
  }

  /** The last request and the acceptance rule allow the same runners. */
  lemma SameRunners(w: World, author: Work, cls: Class, name: string)
    requires ValidWorld(w) && ValidQuery(LastQuery(w, author, cls))
    ensures var accept := AcceptanceQuery(w, author, cls, RequiredTier(author, cls));
            Judge(w, accept, name).Candidate? ==> Judge(w, LastQuery(w, author, cls), name) == Judge(w, accept, name)
  {
    var accept, q := AcceptanceQuery(w, author, cls, RequiredTier(author, cls)), LastQuery(w, author, cls);
    if Judge(w, accept, name).Candidate? {
      assert name != "" && name !in q.runners;
      JudgeSame(w, accept, q, name);
    }
  }

  lemma JudgeSame(w: World, q: Query, other: Query, name: string)
    requires Judge(w, q, name).Candidate? && name !in other.runners && other == q.(runners := other.runners)
    ensures Judge(w, other, name) == Judge(w, q, name)
  {
  }

  /** A reviewer is chosen whenever some review at the required tier would be accepted. */
  lemma AcceptedReviewMeansChoice(w: World, author: Work, cls: Class, names: seq<string>, review: Reviewed)
    requires ValidWorld(w) && review.tier == Some(RequiredTier(author, cls))
    requires ReviewSatisfies(w, Some(review), author, cls, Some(names))
    ensures SelectReviewer(w, author, cls, names).selection.best.Some? && IndependenceCanBeShown(w, author, cls)
  {
    var accept := AcceptanceQuery(w, author, cls, RequiredTier(author, cls));
    var found := Select(w, accept, names).candidates;
    var i :| 0 <= i < |found| && found[i].runner == review.runner;
    CandidateFacts(w, accept, names, found[i]);
    SameRunners(w, author, cls, review.runner);
    ChoiceIsCheapest(w, LastQuery(w, author, cls), names, found[i]);
    LastQueryDecides(w, author, cls, names);
  }

  /**
   * The agreement of the two procedures: a reviewer is chosen, and independence
   * can be shown, exactly when some review at the required tier is acceptable.
   */
  lemma ReviewerAgreement(w: World, author: Work, cls: Class, names: seq<string>)
    requires ValidWorld(w)
    ensures SelectReviewer(w, author, cls, names).selection.best.Some? && IndependenceCanBeShown(w, author, cls)
       <==> exists review: Reviewed :: review.tier == Some(RequiredTier(author, cls))
                                       && ReviewSatisfies(w, Some(review), author, cls, Some(names))
  {
    if SelectReviewer(w, author, cls, names).selection.best.Some? && IndependenceCanBeShown(w, author, cls) {
      ChosenReviewerAccepted(w, author, cls, names, Some(names));
      var s := SelectReviewer(w, author, cls, names).selection;
      assert ReviewSatisfies(w, Some(ReviewBy(s.best.value, s.tier.value).value), author, cls, Some(names));
    }
    forall review: Reviewed | review.tier == Some(RequiredTier(author, cls))
                              && ReviewSatisfies(w, Some(review), author, cls, Some(names))
      ensures SelectReviewer(w, author, cls, names).selection.best.Some? && IndependenceCanBeShown(w, author, cls)
    {
      AcceptedReviewMeansChoice(w, author, cls, names, review);
    }
  }

  /** Work is blocked for want of a reviewer only if strict (or unclassified), and then always. */
  lemma BlockedExactly(w: World, author: Work, cls: Class, names: seq<string>)
    ensures var c := SelectReviewer(w, author, cls, names);
            c.blocking <==> c.selection.best.None? && (!cls.valid || Strict(author, cls))
  {
  }

  lemma JudgeFamily(w: World, q: Query, e: Entry)
    requires Judge(w, q.(families := {}), e.runner) == Candidate(e) && e.family !in q.families
    ensures Judge(w, q, e.runner) == Candidate(e)
  {
  }

  /** A reviewer of another family is chosen whenever one is eligible, and the cheapest of them. */
  lemma OtherFamilyPreferred(w: World, author: Work, cls: Class, names: seq<string>, e: Entry)
    requires ValidWorld(w) && cls.valid && !w.policy.persona && 0 <= RequiredTier(author, cls) <= 2
    requires var q := ReviewQuery(RequiredTier(author, cls), cls,
                                  if cls.independent || Strict(author, cls) then {author.runner} else {}, {});
             e.runner in names && Judge(w, q, e.runner) == Candidate(e)
    requires Some(e.family) != AuthorFamily(w, author)
    ensures var c := SelectReviewer(w, author, cls, names);
            && c.selection.best.Some? && c.independentFamily
            && Some(c.selection.best.value.family) != AuthorFamily(w, author)
            && CheaperOrEqual(c.selection.best.value, e)
  {
    var q := ReviewQuery(RequiredTier(author, cls), cls,
                         if cls.independent || Strict(author, cls) then {author.runner} else {},
                         Just(AuthorFamily(w, author)));
    JudgeFamily(w, q, e);
    FirstRequestDecides(w, author, cls, names);
    BestOutside(w, q, names, e);
  }

  lemma BestOutside(w: World, q: Query, names: seq<string>, e: Entry)
    requires ValidWorld(w) && ValidQuery(q) && q.role == Review
    requires e.runner in names && Judge(w, q, e.runner) == Candidate(e)
    ensures var best := Select(w, q, names).best;
            best.Some? && best.value.family !in q.families && CheaperOrEqual(best.value, e)
  {
    ChoiceIsCheapest(w, q, names, e);
    var best := Select(w, q, names).best.value;
    ReviewFacts(w, q, e);
    ReviewFacts(w, q, best);
  }

  lemma ReviewFacts(w: World, q: Query, e: Entry)
    requires q.role == Review && Judge(w, q, e.runner) == Candidate(e)
    ensures !e.fallback && e.family !in q.families
  {
  }

  /** The first request is answered by whom it selects, if anyone. */
  lemma FirstRequestDecides(w: World, author: Work, cls: Class, names: seq<string>)
    requires cls.valid && !w.policy.persona
    ensures var q := ReviewQuery(RequiredTier(author, cls), cls,
                                 if cls.independent || Strict(author, cls) then {author.runner} else {},
                                 Just(AuthorFamily(w, author)));
            Select(w, q, names).best.Some? ==>
              SelectReviewer(w, author, cls, names) == Choice(Select(w, q, names), true, false)
  {
  }
}
