/** Each rule of runner selection by itself, and what it means for who is chosen (routing/selection.py). */
module SelectionRules {
  import opened Wrappers
  import opened Ordering
  import opened Selection

  // ---- the rules ----

  function ClassesFor(p: Profile, role: Role): set<int> {
    match role
    case Review => p.reviewClasses
    case Coordination => p.coordinationClasses
    case Author => p.classes
    case Fallback => p.classes
  }

  /** The rule named `r` speaks against the runner. */
  predicate Against(w: World, q: Query, name: string, r: Reason) {
    if r == Retired then name in w.retired
    else if r == Unknown then name !in w.profiles
    else
      name in w.profiles
      && var p := w.profiles[name];
         match r
         case NotAllowed => p.provider !in w.policy.allowed
         case Excluded => p.provider in q.providers || name in q.runners
         case BreakerOpen => p.provider in w.open
         case NotAuthorProvider =>
           q.role == Author && w.policy.authorProviders.Some? && p.provider !in w.policy.authorProviders.value
         case RoleDenied => q.role !in p.roles && !(q.role == Author && Fallback in p.roles)
         case ClassNotServed =>
           && q.tier !in ClassesFor(p, q.role)
           && !(w.policy.persona && name in w.policy.namedModels && q.tier in w.policy.namedModels[name])
         case HighRiskDenied => q.highRisk && !p.highRiskOk
         case NeedsLargeContext => p.largeContextOnly && !q.largeContext && q.role != Review
         case NoModel => w.resolve(name, q.tier) == None
         case SameFamily =>
           w.resolve(name, q.tier).Some? && w.family(name, w.resolve(name, q.tier).value) in q.families
         case _ => false
  }

  /** The order in which the rules are applied. */
  function Rank(r: Reason): nat {
    match r
    case Retired => 0
    case Unknown => 1
    case NotAllowed => 2
    case Excluded => 3
    case BreakerOpen => 4
    case NotAuthorProvider => 5
    case RoleDenied => 6
    case ClassNotServed => 7
    case HighRiskDenied => 8
    case NeedsLargeContext => 9
    case NoModel => 10
    case SameFamily => 11
  }

  ghost predicate Eligible(w: World, q: Query, name: string) {
    forall r :: !Against(w, q, name, r)
  }

  /** How an eligible runner is listed: with the resolved model, its family and price, as fallback if no author. */
  ghost predicate ListedAs(w: World, q: Query, e: Entry) {
    && e.runner in w.profiles && w.resolve(e.runner, q.tier) == Some(e.model)
    && e.family == w.family(e.runner, e.model) && e.cost == w.cost(e.runner, e.model, q.tier)
    && (e.fallback <==> q.role == Author && Author !in w.profiles[e.runner].roles)
  }

  /** The first rule against a runner is the one it is rejected for. */
  ghost predicate FirstAgainst(w: World, q: Query, name: string, r: Reason) {
    Against(w, q, name, r) && forall other :: Rank(other) < Rank(r) ==> !Against(w, q, name, other)
  }

  lemma JudgeIs(w: World, q: Query, name: string)
    requires q.role != Fallback
    ensures match Judge(w, q, name)
            case Candidate(e) => e.runner == name && Eligible(w, q, name) && ListedAs(w, q, e)
            case Rejected(n, r) => n == name && FirstAgainst(w, q, name, r)
  {
  }

  /** A certified runner is a candidate exactly when no rule speaks against it, and is listed with what was resolved. */
  lemma EligibleExactly(w: World, q: Query, names: seq<string>, e: Entry)
    requires ValidQuery(q)
    ensures e in Select(w, q, names).candidates <==>
              e.runner in names && Eligible(w, q, e.runner) && ListedAs(w, q, e)
  {
    CandidatesExactly(w, q, names, e);
    JudgeIs(w, q, e.runner);
  }

  lemma {:induction false} RefusedExactly(w: World, q: Query, names: seq<string>, name: string, r: Reason)
    requires q.role != Fallback
    ensures Rejected(name, r) in Refused(w, q, names) <==> name in names && FirstAgainst(w, q, name, r)
  {
    if names != [] {
      var front, last := names[..|names| - 1], names[|names| - 1];
      assert names == front + [last];
      RefusedExactly(w, q, front, name, r);
      JudgeIs(w, q, last);
      JudgeIs(w, q, name);
      OneFirst(w, q, name, r);
    }
  }

  lemma OneFirst(w: World, q: Query, name: string, r: Reason)
    requires q.role != Fallback
    ensures FirstAgainst(w, q, name, r) ==> Judge(w, q, name) == Rejected(name, r)
  {
    JudgeIs(w, q, name);
  }

  // ---- the choice ----

  /** Known prices come first, the lowest of them, then the runner's name, then the model's. */
  ghost predicate NoDearer(a: Entry, b: Entry) {
    && (a.cost == None ==> b.cost == None)
    && (a.cost.Some? && b.cost.Some? ==> a.cost.value <= b.cost.value)
    && (a.cost == b.cost ==> LexLe(a.runner, b.runner) && (a.runner == b.runner ==> LexLe(a.model, b.model)))
  }

  lemma NoDearerIs(a: Entry, b: Entry)
    requires CheaperOrEqual(a, b)
    ensures NoDearer(a, b)
  {
    LexTotal(a.runner, a.runner);
  }

  /** Someone is chosen exactly when someone is eligible; nobody eligible of the same standing comes before. */
  lemma ChosenExactly(w: World, q: Query, names: seq<string>)
    requires ValidQuery(q)
    ensures var best := Select(w, q, names).best;
            && (best.Some? <==> exists name :: name in names && Eligible(w, q, name))
            && (best.Some? ==>
                  && best.value.runner in names && Eligible(w, q, best.value.runner) && ListedAs(w, q, best.value)
                  && forall e: Entry :: e.runner in names && Eligible(w, q, e.runner) && ListedAs(w, q, e) ==>
                       && (best.value.fallback ==> e.fallback)
                       && (best.value.fallback == e.fallback ==> NoDearer(best.value, e)))
  {
    var s := Select(w, q, names);
    hide Judge, Eligible, ListedAs, NoDearer;
    if s.best.Some? {
      assert s.best.value in s.candidates;
      EligibleExactly(w, q, names, s.best.value);
    }
    forall name | name in names && Eligible(w, q, name) ensures s.best.Some? {
      var e := EntryOf(w, q, name);
      BeforeAll(w, q, names, e);
    }
    forall e: Entry | e.runner in names && Eligible(w, q, e.runner) && ListedAs(w, q, e)
      ensures s.best.Some? && (s.best.value.fallback ==> e.fallback)
      ensures s.best.value.fallback == e.fallback ==> NoDearer(s.best.value, e)
    {
      BeforeAll(w, q, names, e);
    }
  }

  lemma EntryOf(w: World, q: Query, name: string) returns (e: Entry)
    requires q.role != Fallback && Eligible(w, q, name)
    ensures e.runner == name && ListedAs(w, q, e)
  {
    JudgeIs(w, q, name);
    e := Judge(w, q, name).entry;
  }

  lemma BeforeAll(w: World, q: Query, names: seq<string>, e: Entry)
    requires ValidQuery(q) && e.runner in names && Eligible(w, q, e.runner) && ListedAs(w, q, e)
    ensures var best := Select(w, q, names).best;
            && best.Some? && (best.value.fallback ==> e.fallback)
            && (best.value.fallback == e.fallback ==> NoDearer(best.value, e))
  {
    EligibleExactly(w, q, names, e);
    CandidatesExactly(w, q, names, e);
    hide Judge, Eligible, ListedAs, NoDearer, CheaperOrEqual;
    ChoiceIsCheapest(w, q, names, e);
    var best := Select(w, q, names).best.value;
    if best.fallback == e.fallback { NoDearerIs(best, e); }
  }

  // ---- reviewers ----

  /** The classified review tier, or 2 if there is none or the author worked at tier 2. */
  function TierOfReview(author: Work, cls: Class): int {
    if author.tier == Some(2) then 2 else if cls.reviewTier.Some? then cls.reviewTier.value else 2
  }

  /** Tier 2 and high-risk reviews need another runner and, where it is known, another model family. */
  predicate MustDiffer(author: Work, cls: Class) {
    TierOfReview(author, cls) == 2 || cls.highRisk
  }

  /** The author's model family: the recorded one, else that of a runner still registered and not retired. */
  ghost function KnownFamily(w: World, author: Work): Option<string> {
    if author.family != None then author.family
    else if author.runner in w.profiles && author.runner !in w.retired
    then Some(w.family(author.runner, author.model))
    else None
  }

  lemma FamilyIs(w: World, author: Work)
    requires ValidWorld(w)
    ensures AuthorFamily(w, author) == KnownFamily(w, author)
  {
  }

  /** Whoever is chosen to review may do so: no rule of reviewing speaks against it, at the tier the review needs. */
  lemma ReviewerEligible(w: World, author: Work, cls: Class, names: seq<string>)
    requires ValidWorld(w) && SelectReviewer(w, author, cls, names).selection.best.Some?
    ensures var s := SelectReviewer(w, author, cls, names).selection; var e := s.best.value;
            && cls.valid && s.tier == Some(TierOfReview(author, cls)) && e.runner in names
            && e.runner !in w.retired && e.runner in w.profiles
            && var p := w.profiles[e.runner];
               && p.provider in w.policy.allowed && p.provider !in w.open && Review in p.roles
               && (TierOfReview(author, cls) in p.reviewClasses
                   || (w.policy.persona && e.runner in w.policy.namedModels
                       && TierOfReview(author, cls) in w.policy.namedModels[e.runner]))
               && (cls.highRisk ==> p.highRiskOk)
               && w.resolve(e.runner, TierOfReview(author, cls)) == Some(e.model)
    ensures var e := SelectReviewer(w, author, cls, names).selection.best.value;
            !w.policy.persona && (MustDiffer(author, cls) || cls.independent) ==> e.runner != author.runner
    ensures var e := SelectReviewer(w, author, cls, names).selection.best.value;
            !w.policy.persona && MustDiffer(author, cls) && KnownFamily(w, author).Some? ==>
              e.family == w.family(e.runner, e.model) && e.family != KnownFamily(w, author).value
  {
    var q := ReviewerQuery(w, author, cls, names);
    var e := SelectReviewer(w, author, cls, names).selection.best.value;
    hide SelectReviewer, Judge;
    assert e in Select(w, q, names).candidates;
    EligibleExactly(w, q, names, e);
    hide Select, Eligible, ListedAs, MustDiffer, TierOfReview, KnownFamily;
    ReviewingRules(w, q, e);
  }

  /** What the rules of reviewing say of an eligible runner. */
  lemma ReviewingRules(w: World, q: Query, e: Entry)
    requires q.role == Review && Eligible(w, q, e.runner) && ListedAs(w, q, e)
    ensures e.runner !in w.retired && e.runner !in q.runners && e.family !in q.families
    ensures e.family == w.family(e.runner, e.model)
    ensures var p := w.profiles[e.runner];
            && p.provider in w.policy.allowed && p.provider !in w.open && Review in p.roles
            && (q.tier in p.reviewClasses
                || (w.policy.persona && e.runner in w.policy.namedModels && q.tier in w.policy.namedModels[e.runner]))
            && (q.highRisk ==> p.highRiskOk) && w.resolve(e.runner, q.tier) == Some(e.model)
  {
    assert !Against(w, q, e.runner, Retired) && !Against(w, q, e.runner, NotAllowed);
    assert !Against(w, q, e.runner, Excluded);
    assert !Against(w, q, e.runner, BreakerOpen) && !Against(w, q, e.runner, RoleDenied);
    assert !Against(w, q, e.runner, ClassNotServed) && !Against(w, q, e.runner, HighRiskDenied);
    assert !Against(w, q, e.runner, SameFamily);
  }

  /** The request that found the reviewer. */
  lemma ReviewerQuery(w: World, author: Work, cls: Class, names: seq<string>) returns (q: Query)
    requires ValidWorld(w) && SelectReviewer(w, author, cls, names).selection.best.Some?
    ensures cls.valid && ValidQuery(q) && q.role == Review && q.tier == TierOfReview(author, cls)
    ensures q.highRisk == cls.highRisk
    ensures SelectReviewer(w, author, cls, names).selection == Select(w, q, names)
    ensures !w.policy.persona && (MustDiffer(author, cls) || cls.independent) ==> author.runner in q.runners
    ensures !w.policy.persona && MustDiffer(author, cls) && KnownFamily(w, author).Some? ==>
              KnownFamily(w, author).value in q.families
  {
    FamilyIs(w, author);
    q := ChosenQuery(w, author, cls, names);
    hide Select;
  }

  /** The best entry is one the judgement accepts. */
  lemma BestAccepted(w: World, q: Query, names: seq<string>)
    requires Select(w, q, names).best.Some?
    ensures var e := Select(w, q, names).best.value;
            ValidQuery(q) && e.runner in names && Judge(w, q, e.runner) == Candidate(e)
  {
    var e := Select(w, q, names).best.value;
    assert e in Select(w, q, names).candidates;
    CandidatesExactly(w, q, names, e);
  }

  lemma JudgedWithout(w: World, q: Query, e: Entry)
    requires Judge(w, q, e.runner) == Candidate(e)
    ensures e.family !in q.families && Judge(w, q.(families := {}), e.runner) == Candidate(e)
  {
  }

  /** A second request that no longer asks for another family finds only the author's. */
  lemma FallbackSharesFamily(w: World, q: Query, names: seq<string>)
    requires ValidWorld(w) && q.role == Review && Select(w, q, names).best.None?
    requires Select(w, q.(families := {}), names).best.Some?
    ensures Select(w, q.(families := {}), names).best.value.family in q.families
  {
    var all := q.(families := {});
    BestAccepted(w, all, names);
    var e := Select(w, all, names).best.value;
    hide Select, Judge;
    if e.family !in q.families {
      JudgeFamily(w, q, e);
      BestOutside(w, q, names, e);
      assert false;
    }
  }

  /** The choice is marked as of an independent family exactly when its family is not known to be the author's. */
  lemma IndependentExactly(w: World, author: Work, cls: Class, names: seq<string>)
    requires ValidWorld(w)
    ensures var c := SelectReviewer(w, author, cls, names);
            c.independentFamily <==>
              && !w.policy.persona && c.selection.best.Some?
              && KnownFamily(w, author) != Some(c.selection.best.value.family)
  {
    FamilyIs(w, author);
    if cls.valid && !w.policy.persona {
      var tier, strict := RequiredTier(author, cls), Strict(author, cls);
      var runners := if cls.independent || strict then {author.runner} else {};
      var q := ReviewQuery(tier, cls, runners, Just(AuthorFamily(w, author)));
      var s := Select(w, q, names);
      assert q.(families := {}) == ReviewQuery(tier, cls, runners, {});
      hide Select, Judge, KnownFamily;
      if s.best.Some? {
        BestAccepted(w, q, names);
        JudgedWithout(w, q, s.best.value);
      } else if !strict && Select(w, q.(families := {}), names).best.Some? {
        FallbackSharesFamily(w, q, names);
      }
    }
  }

  /** A recorded review counts only from a tier no lower than the one needed, by a runner that may give it. */
  lemma AcceptedReview(w: World, review: Reviewed, author: Work, cls: Class, names: seq<string>)
    requires ValidWorld(w) && ReviewSatisfies(w, Some(review), author, cls, Some(names))
    ensures cls.valid && review.runner in names && review.tier.Some?
    ensures TierOfReview(author, cls) <= review.tier.value <= 2
    ensures review.runner in w.profiles && Review in w.profiles[review.runner].roles
    ensures cls.highRisk ==> w.profiles[review.runner].highRiskOk
    ensures !w.policy.persona && (MustDiffer(author, cls) || cls.independent) && author.runner != "" ==>
              review.runner != author.runner
    ensures !w.policy.persona && MustDiffer(author, cls) ==>
              KnownFamily(w, author).Some? && w.family(review.runner, review.model) != KnownFamily(w, author).value
  {
    FamilyIs(w, author);
    var q := AcceptanceQuery(w, author, cls, review.tier.value);
    var found := Select(w, q, names).candidates;
    var i :| 0 <= i < |found| && found[i].runner == review.runner;
    assert ValidQuery(q);
    EligibleExactly(w, q, names, found[i]);
    hide Select, Judge;
    assert !Against(w, q, review.runner, Unknown) && !Against(w, q, review.runner, RoleDenied);
    assert !Against(w, q, review.runner, HighRiskDenied);
  }
}
