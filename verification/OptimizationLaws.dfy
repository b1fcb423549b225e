/** What every successful optimization satisfies, whatever order its inputs came in. */
module OptimizationLaws {
  import opened Outcomes
  import opened Ordering
  import opened CartPlans
  import opened CartFulfillment
  import opened CartOptimization

  // ----- The partition

  lemma {:induction false} BucketsPartition(request: Request)
    requires forall p :: p in request.plans ==> p.feasibility != INVALID
    ensures Permuted(Bucket(request, FEASIBLE) + Bucket(request, UNRESOLVED) + Bucket(request, INFEASIBLE), request.plans)
  {
    hide Fulfillment, Filter, Requested;
    var requested := Requested(request.cart);
    var f, u, i := Bucket(request, FEASIBLE), Bucket(request, UNRESOLVED), Bucket(request, INFEASIBLE);
    forall p ensures multiset(f + u + i)[p] == multiset(request.plans)[p] {
      FilterCount(Having(requested, FEASIBLE), request.plans, p);
      FilterCount(Having(requested, UNRESOLVED), request.plans, p);
      FilterCount(Having(requested, INFEASIBLE), request.plans, p);
      assert multiset(f + u + i)[p] == multiset(f)[p] + multiset(u)[p] + multiset(i)[p];
      assert p in request.plans <==> multiset(request.plans)[p] > 0;
    }
  }

  /** The rejected ids are those of the infeasible plans, in order. */
  lemma {:induction false} RejectedInOrder(request: Request, json: Candidate -> string)
    ensures var rejected := ResultOf(request, json).rejectedIds;
      && (forall i, j :: 0 <= i < j < |rejected| ==> TextLeq(rejected[i], rejected[j]))
      && forall id :: id in rejected <==>
           exists p :: p in request.plans && p.id == id && EffectiveFeasibility(Requested(request.cart), p) == INFEASIBLE
  {
    hide KeyLeq, TextLeq, EffectiveFeasibility, Requested, Sort, Bucket, OptimizationId, OutcomeOf, Ranked;
    var bucket := Bucket(request, INFEASIBLE);
    var plans, rejected := Sort(bucket, ById), ResultOf(request, json).rejectedIds;
    SortPermutes(bucket, ById);
    SortSorts(bucket, ById);
    PermutedBasics(plans, bucket);
    forall i, j | 0 <= i < j < |rejected| ensures TextLeq(rejected[i], rejected[j]) {
      assert KeyLeq(ById(plans[i]), ById(plans[j]));
      TextKeyMeans(plans[i].id, plans[j].id);
    }
    forall p ensures p in plans <==> p in request.plans && EffectiveFeasibility(Requested(request.cart), p) == INFEASIBLE {
      InBucket(request, INFEASIBLE, p);
    }
    forall id ensures id in rejected <==> exists p :: p in plans && p.id == id {
      if id in rejected {
        var i :| 0 <= i < |rejected| && rejected[i] == id;
        assert plans[i] in plans;
      }
      if p :| p in plans && p.id == id {
        var i :| 0 <= i < |plans| && plans[i] == p;
        assert rejected[i] == id;
      }
    }
  }

  /** Ranked, unresolved and rejected ids list every candidate plan exactly once between them. */
  lemma {:induction false} IdsPartition(request: Request, supported: seq<string>, json: Candidate -> string)
    requires Acceptable(request, supported)
    ensures var result := ResultOf(request, json);
      var ids := result.rankedIds + Map(PlanId, Bucket(request, UNRESOLVED)) + result.rejectedIds;
      Distinct(ids) && Permuted(ids, Map(PlanId, request.plans))
  {
    hide Fulfillment, EffectiveFeasibility, Sort, Map, PlanAccepted, OneCurrency, OptimizationId, Bucket;
    var f, u, i := Bucket(request, FEASIBLE), Bucket(request, UNRESOLVED), Bucket(request, INFEASIBLE);
    BucketsPartition(request);
    var ranked, rejected := Ranked(request), Sort(i, ById);
    SortPermutes(f, RankBy(Indexed(request.evaluations)));
    SortPermutes(i, ById);
    assert multiset(ranked + u + rejected) == multiset(f + u + i);
    MapPermuted(PlanId, ranked + u + rejected, request.plans);
    MapAppend(PlanId, ranked + u, rejected);
    MapAppend(PlanId, ranked, u);
    DistinctPermuted(Map(PlanId, request.plans), Map(PlanId, ranked + u + rejected));
  }

  lemma {:induction false} InBucket(request: Request, f: Feasibility, p: Plan)
    ensures p in Bucket(request, f) <==> p in request.plans && EffectiveFeasibility(Requested(request.cart), p) == f
  {
    hide EffectiveFeasibility, Requested;
    FilterCount(Having(Requested(request.cart), f), request.plans, p);
    assert p in Bucket(request, f) <==> multiset(Bucket(request, f))[p] > 0;
    assert p in request.plans <==> multiset(request.plans)[p] > 0;
  }

  lemma {:induction false} InRanked(request: Request, p: Plan)
    ensures p in Ranked(request) <==> p in request.plans && EffectiveFeasibility(Requested(request.cart), p) == FEASIBLE
  {
    hide EffectiveFeasibility, Requested, Sort, Bucket;
    InBucket(request, FEASIBLE, p);
    var ranked := Ranked(request);
    SortPermutes(Bucket(request, FEASIBLE), RankBy(Indexed(request.evaluations)));
    PermutedBasics(ranked, Bucket(request, FEASIBLE));
  }

  /**
   * A ranked plan was declared feasible, delivers the cart exactly, carries no
   * unresolved or unsupported quantity and has a known cost.
   */
  lemma {:induction false} RankedAreSound(request: Request, supported: seq<string>, p: Plan)
    requires Acceptable(request, supported) && p in Ranked(request)
    ensures p.feasibility == FEASIBLE && Fulfillment(Requested(request.cart), p) == Ok(true)
    ensures !HasStatus(p, UNRESOLVED_QUANTITY) && !HasStatus(p, UNSUPPORTED)
    ensures p.evaluationId in Indexed(request.evaluations) && KnownCost(Indexed(request.evaluations)[p.evaluationId])
  {
    hide Fulfillment, OneCurrency, Requested, Indexed, Ranked, HasStatus;
    InRanked(request, p);
    assert PlanAccepted(Requested(request.cart), Indexed(request.evaluations), p);
  }

  // ----- The ranking

  /** `p` is at least as good as `q`: cheaper, else fewer checkouts, less inconvenience, more preferred, smaller id. */
  ghost predicate AtLeastAsGood(evaluations: map<string, Evaluation>, p: Plan, q: Plan) {
    if Cost(evaluations, p) != Cost(evaluations, q) then Cost(evaluations, p) < Cost(evaluations, q)
    else if |p.groups| != |q.groups| then |p.groups| < |q.groups|
    else if p.inconvenience != q.inconvenience then p.inconvenience < q.inconvenience
    else if p.priority != q.priority then p.priority > q.priority
    else TextLeq(p.id, q.id)
  }

  lemma {:induction false} RankingMeans(evaluations: map<string, Evaluation>, p: Plan, q: Plan)
    ensures KeyLeq(RankBy(evaluations)(p), RankBy(evaluations)(q)) <==> AtLeastAsGood(evaluations, p, q)
  {
    hide TextLeq, Cost;
    var a, b := RankBy(evaluations)(p), RankBy(evaluations)(q);
    TextReflexive(p.id);
    assert |a| == |b| == 5;
    LexicographicStep(a, b);
    LexicographicStep(a[1..], b[1..]);
    LexicographicStep(a[2..], b[2..]);
    LexicographicStep(a[3..], b[3..]);
    LexicographicStep(a[4..], b[4..]);
    assert a[5..] == [] && b[5..] == [];
  }

  /** The recommended plan is effectively feasible and none of the others that are ranks before it. */
  lemma {:induction false} ChosenIsBest(request: Request, p: Plan)
    requires Chosen(request).Some?
    ensures var best := Chosen(request).value;
      && best in request.plans && EffectiveFeasibility(Requested(request.cart), best) == FEASIBLE
      && (p in request.plans && EffectiveFeasibility(Requested(request.cart), p) == FEASIBLE ==>
            AtLeastAsGood(Indexed(request.evaluations), best, p))
  {
    hide EffectiveFeasibility, Requested, Indexed, Sort, Bucket, Classify, AtLeastAsGood, KeyLeq;
    var ranked := Ranked(request);
    var key := RankBy(Indexed(request.evaluations));
    InRanked(request, ranked[0]);
    InRanked(request, p);
    if p in ranked {
      SortSorts(Bucket(request, FEASIBLE), key);
      var i :| 0 <= i < |ranked| && ranked[i] == p;
      KeyTotal(key(p), key(p));
      assert KeyLeq(key(ranked[0]), key(p));
      RankingMeans(Indexed(request.evaluations), ranked[0], p);
    }
  }

  /** A plan is recommended exactly when coverage is complete, nothing is unresolved and something is feasible. */
  lemma {:induction false} SelectedIff(request: Request)
    ensures OutcomeOf(request).Selected? <==>
      && request.coverageComplete
      && (forall p :: p in request.plans ==> EffectiveFeasibility(Requested(request.cart), p) != UNRESOLVED)
      && (exists p :: p in request.plans && EffectiveFeasibility(Requested(request.cart), p) == FEASIBLE)
    ensures OutcomeOf(request).Selected? <==> Chosen(request).Some?
  {
    hide EffectiveFeasibility, Requested, Sort, Bucket, Ranked;
    var unresolved, ranked := Bucket(request, UNRESOLVED), Ranked(request);
    forall p ensures p in unresolved <==> p in request.plans && EffectiveFeasibility(Requested(request.cart), p) == UNRESOLVED {
      InBucket(request, UNRESOLVED, p);
    }
    forall p ensures p in ranked <==> p in request.plans && EffectiveFeasibility(Requested(request.cart), p) == FEASIBLE {
      InRanked(request, p);
    }
    if unresolved != [] {
      assert unresolved[0] in unresolved;
    }
    if ranked != [] {
      assert ranked[0] in ranked;
    }
  }

  /**
   * There is no feasible plan exactly if coverage is complete, no plan is unresolved or
   * feasible, and some plan is infeasible unless there is none at all. All else that is
   * not selected stays undecided.
   */
  lemma {:induction false} NoFeasiblePlanIff(request: Request)
    ensures OutcomeOf(request).NoFeasiblePlan? <==>
      && request.coverageComplete
      && (forall p :: p in request.plans ==> EffectiveFeasibility(Requested(request.cart), p) !in {UNRESOLVED, FEASIBLE})
      && (request.plans == [] || exists p :: p in request.plans && EffectiveFeasibility(Requested(request.cart), p) == INFEASIBLE)
    ensures OutcomeOf(request).Undecided? <==> !OutcomeOf(request).Selected? && !OutcomeOf(request).NoFeasiblePlan?
  {
    hide EffectiveFeasibility, Requested, Sort, Bucket, Ranked;
    var unresolved, ranked, infeasible := Bucket(request, UNRESOLVED), Ranked(request), Bucket(request, INFEASIBLE);
    forall p ensures p in unresolved <==> p in request.plans && EffectiveFeasibility(Requested(request.cart), p) == UNRESOLVED {
      InBucket(request, UNRESOLVED, p);
    }
    forall p ensures p in infeasible <==> p in request.plans && EffectiveFeasibility(Requested(request.cart), p) == INFEASIBLE {
      InBucket(request, INFEASIBLE, p);
    }
    forall p ensures p in ranked <==> p in request.plans && EffectiveFeasibility(Requested(request.cart), p) == FEASIBLE {
      InRanked(request, p);
    }
    assert unresolved != [] ==> unresolved[0] in unresolved;
    assert infeasible != [] ==> infeasible[0] in infeasible;
    assert ranked != [] ==> ranked[0] in ranked;
  }

  // ----- Permuted inputs

  ghost predicate Reordered(a: Request, b: Request) {
    && a.requestId == b.requestId && a.policy == b.policy && a.coverageComplete == b.coverageComplete
    && Permuted(a.cart, b.cart) && Permuted(a.plans, b.plans)
    && Permuted(a.evaluations, b.evaluations) && Permuted(a.constraints, b.constraints)
  }

  lemma {:induction false} SameTables(a: Request, b: Request, supported: seq<string>)
    requires Reordered(a, b) && Acceptable(a, supported)
    ensures Requested(a.cart) == Requested(b.cart) && Indexed(a.evaluations) == Indexed(b.evaluations)
    ensures Distinct(Map(ItemKeyOf, b.cart)) && Distinct(Map(EvaluationId, b.evaluations))
    ensures Distinct(Map(PlanId, b.plans)) && (forall p :: p in a.plans <==> p in b.plans)
  {
    hide Map, Dict, Fulfillment, EffectiveFeasibility, Distinct, PlanAccepted, OneCurrency;
    DictPermuted(ItemKeyOf, a.cart, b.cart);
    DictPermuted(EvaluationId, a.evaluations, b.evaluations);
    MapPermuted(PlanId, a.plans, b.plans);
    DistinctPermuted(Map(PlanId, a.plans), Map(PlanId, b.plans));
    PermutedBasics(a.plans, b.plans);
  }

  lemma {:induction false} ReorderedAcceptable(a: Request, b: Request, supported: seq<string>)
    requires Reordered(a, b) && Acceptable(a, supported)
    ensures Acceptable(b, supported)
  {
    hide Map, Requested, Indexed, Fulfillment, EffectiveFeasibility, Distinct, PlanAccepted;
    SameTables(a, b, supported);
  }

  lemma {:induction false} IdTells(plans: seq<Plan>)
    requires Distinct(Map(PlanId, plans))
    ensures forall p, q :: p in plans && q in plans && p.id == q.id ==> p == q
  {
    hide Map;
    forall p, q | p in plans && q in plans && p.id == q.id ensures p == q {
      var i :| 0 <= i < |plans| && plans[i] == p;
      var j :| 0 <= j < |plans| && plans[j] == q;
      assert Map(PlanId, plans)[i] == Map(PlanId, plans)[j];
    }
  }

  /** Where ids are distinct, every sort whose key shows the id is independent of the incoming order. */
  lemma {:induction false} SortedBuckets(a: Request, b: Request, supported: seq<string>, f: Feasibility, key: Plan -> Key)
    requires Reordered(a, b) && Acceptable(a, supported)
    requires forall p, q :: key(p) == key(q) ==> p.id == q.id
    ensures |Bucket(a, f)| == |Bucket(b, f)|
    ensures Sort(Bucket(a, f), key) == Sort(Bucket(b, f), key)
  {
    hide Map, Requested, Indexed, Fulfillment, EffectiveFeasibility, Distinct, PlanAccepted, OneCurrency, Sort, Filter;
    SameTables(a, b, supported);
    var having := Having(Requested(a.cart), f);
    FilterPermuted(having, a.plans, b.plans);
    PermutedBasics(Bucket(a, f), Bucket(b, f));
    IdTells(a.plans);
    forall p, q | p in Bucket(a, f) && q in Bucket(a, f) && key(p) == key(q) ensures p == q {
      InBucket(a, f, p);
      InBucket(a, f, q);
    }
    SortInvariant(Bucket(a, f), Bucket(b, f), key);
  }

  lemma {:induction false} RankShowsId(evaluations: map<string, Evaluation>, p: Plan, q: Plan)
    ensures RankBy(evaluations)(p) == RankBy(evaluations)(q) ==> p.id == q.id
    ensures ById(p) == ById(q) ==> p.id == q.id
  {
    assert RankBy(evaluations)(p)[4] == Text(p.id) && RankBy(evaluations)(q)[4] == Text(q.id);
    assert ById(p)[0] == Text(p.id) && ById(q)[0] == Text(q.id);
  }

  /**
   * Permuting candidate plans, cart items, evaluations or constraints changes
   * neither whether the optimization succeeds nor anything in its result: outcome,
   * chosen plan, ranking, alternatives, rejections and optimization id.
   */
  lemma {:induction false} OrderIsIrrelevant(a: Request, b: Request, supported: seq<string>, json: Candidate -> string)
    requires Reordered(a, b)
    ensures Acceptable(a, supported) <==> Acceptable(b, supported)
    ensures Acceptable(a, supported) ==> ResultOf(a, json) == ResultOf(b, json)
  {
    hide Acceptable, Sort, Bucket, OptimizationId, Map, Filter, Indexed;
    if Acceptable(a, supported) {
      ReorderedAcceptable(a, b, supported);
      SameTables(a, b, supported);
      forall p, q ensures RankBy(Indexed(a.evaluations))(p) == RankBy(Indexed(a.evaluations))(q) ==> p.id == q.id
        ensures ById(p) == ById(q) ==> p.id == q.id
      {
        RankShowsId(Indexed(a.evaluations), p, q);
      }
      SortedBuckets(a, b, supported, FEASIBLE, RankBy(Indexed(a.evaluations)));
      SortedBuckets(a, b, supported, INFEASIBLE, ById);
      SortedBuckets(a, b, supported, UNRESOLVED, ById);
      PermutedBasics(a.plans, b.plans);
      IdentityReordered(a, b, supported, json);
    }
    if Acceptable(b, supported) {
      ReorderedAcceptable(b, a, supported);
    }
  }

  // ----- The optimization identity

  ghost predicate SamePlan(json: Candidate -> string, p: Plan, q: Plan) {
    && p.id == q.id && p.inconvenience == q.inconvenience && p.priority == q.priority
    && p.evaluationId == q.evaluationId
    && Permuted(p.retailers, q.retailers) && Permuted(p.items, q.items) && Permuted(p.groups, q.groups)
    && Permuted(p.constraintIds, q.constraintIds)
    && Permuted(Map(json, p.candidates), Map(json, q.candidates))
  }

  /** With injective JSON, sharing an identity means sharing the provenance-carrying allocations too. */
  lemma {:induction false} SamePlanIff(json: Candidate -> string, p: Plan, q: Plan)
    requires forall c, d :: json(c) == json(d) ==> c == d
    ensures BuildIdentity(json)(p) == BuildIdentity(json)(q) <==>
      && p.id == q.id && p.inconvenience == q.inconvenience && p.priority == q.priority
      && p.evaluationId == q.evaluationId
      && Permuted(p.retailers, q.retailers) && Permuted(p.items, q.items) && Permuted(p.groups, q.groups)
      && Permuted(p.constraintIds, q.constraintIds) && Permuted(p.candidates, q.candidates)
  {
    hide BuildIdentity, Permuted, Map;
    PlanIdentityIff(json, p, q);
    MapReflects(json, p.candidates, q.candidates);
  }

  lemma {:induction false} KeysTell(p: Plan, json: Candidate -> string)
    ensures KeyTells(p.retailers, ByRetailer) && KeyTells(p.items, ByAllocation)
    ensures KeyTells(p.groups, ByGroup) && KeyTells(p.constraintIds, ByText)
    ensures KeyTells(Map(json, p.candidates), ByText)
  {
    forall x, y | ByRetailer(x) == ByRetailer(y) ensures x == y {
      assert ByRetailer(x)[0] == ByRetailer(y)[0] && ByRetailer(x)[1] == ByRetailer(y)[1];
    }
    forall x, y | ByGroup(x) == ByGroup(y) ensures x == y {
      assert ByGroup(x)[0] == ByGroup(y)[0] && ByGroup(x)[1] == ByGroup(y)[1] && ByGroup(x)[2] == ByGroup(y)[2];
    }
    forall x, y | ByText(x) == ByText(y) ensures x == y {
      assert ByText(x)[0] == ByText(y)[0];
    }
    forall x, y | ByAllocation(x) == ByAllocation(y) ensures x == y {
      AllocationShows(x, y);
    }
  }

  lemma {:induction false} AllocationShows(x: Allocation, y: Allocation)
    requires ByAllocation(x) == ByAllocation(y)
    ensures x == y
  {
    hide Decimal;
    assert forall i :: 0 <= i < 5 ==> ByAllocation(x)[i] == ByAllocation(y)[i];
    assert ByAllocation(x)[0] == ByAllocation(y)[0] && ByAllocation(x)[1] == ByAllocation(y)[1];
    assert ByAllocation(x)[2] == ByAllocation(y)[2] && ByAllocation(x)[3] == ByAllocation(y)[3];
    assert ByAllocation(x)[4] == ByAllocation(y)[4];
    DecimalInjective(x.quantity, y.quantity);
  }

  /** A plan's identity payload shows its content up to the order of its allocations, groups and constraints. */
  lemma {:induction false} PlanIdentityIff(json: Candidate -> string, p: Plan, q: Plan)
    ensures BuildIdentity(json)(p) == BuildIdentity(json)(q) <==> SamePlan(json, p, q)
  {
    hide Sort, Map, Decimal, KeyTells, Permuted;
    KeysTell(p, json);
    SortCanonical(p.retailers, q.retailers, ByRetailer);
    SortCanonical(p.items, q.items, ByAllocation);
    SortCanonical(p.groups, q.groups, ByGroup);
    SortCanonical(p.constraintIds, q.constraintIds, ByText);
    SortCanonical(Map(json, p.candidates), Map(json, q.candidates), ByText);
  }

  lemma {:induction false} IdentitiesTell(plans: seq<Plan>, json: Candidate -> string)
    requires Distinct(Map(PlanId, plans))
    ensures KeyTells(Map(BuildIdentity(json), plans), ByIdentity)
  {
    hide Sort, Distinct;
    var ids := Map(BuildIdentity(json), plans);
    IdTells(plans);
    forall x, y | x in ids && y in ids && ByIdentity(x) == ByIdentity(y) ensures x == y {
      assert ByIdentity(x)[0] == ByIdentity(y)[0];
      var i :| 0 <= i < |ids| && ids[i] == x;
      var j :| 0 <= j < |ids| && ids[j] == y;
      assert plans[i].id == plans[j].id;
      assert plans[i] in plans && plans[j] in plans;
    }
  }

  lemma {:induction false} ItemsTell(cart: seq<CartItem>)
    ensures KeyTells(cart, ByItem)
  {
    forall x, y | ByItem(x) == ByItem(y) ensures x == y {
      assert ByItem(x)[0] == ByItem(y)[0] && ByItem(x)[1] == ByItem(y)[1] && ByItem(x)[2] == ByItem(y)[2];
    }
  }

  lemma {:induction false} TextsTell(texts: seq<string>)
    ensures KeyTells(texts, ByText)
  {
    forall x, y | ByText(x) == ByText(y) ensures x == y {
      assert ByText(x)[0] == ByText(y)[0];
    }
  }

  /**
   * Two requests with distinct plan ids get one optimization id exactly when they
   * agree, up to order, on cart items, policy, constraints and plan identities.
   */
  lemma {:induction false} OptimizationIdIff(a: Request, b: Request, json: Candidate -> string)
    requires Distinct(Map(PlanId, a.plans))
    ensures OptimizationId(a, json) == OptimizationId(b, json) <==>
      && Permuted(a.cart, b.cart) && a.policy == b.policy && Permuted(a.constraints, b.constraints)
      && Permuted(Map(BuildIdentity(json), a.plans), Map(BuildIdentity(json), b.plans))
  {
    hide Sort, Map, Decimal, KeyTells, Permuted, BuildIdentity, Distinct;
    ItemsTell(a.cart);
    TextsTell(a.constraints);
    IdentitiesTell(a.plans, json);
    SortCanonical(a.cart, b.cart, ByItem);
    SortCanonical(a.constraints, b.constraints, ByText);
    SortCanonical(Map(BuildIdentity(json), a.plans), Map(BuildIdentity(json), b.plans), ByIdentity);
  }

  lemma {:induction false} IdentityReordered(a: Request, b: Request, supported: seq<string>, json: Candidate -> string)
    requires Reordered(a, b) && Acceptable(a, supported)
    ensures OptimizationId(a, json) == OptimizationId(b, json)
  {
    hide OptimizationId, Map, BuildIdentity;
    OptimizationIdIff(a, b, json);
    MapPermuted(BuildIdentity(json), a.plans, b.plans);
  }

  /** Reordering the allocations, groups and constraint references inside any plan leaves the optimization id alone. */
  lemma {:induction false} IdentityIgnoresInnerOrder(a: Request, b: Request, json: Candidate -> string)
    requires a.cart == b.cart && a.policy == b.policy && a.constraints == b.constraints
    requires |a.plans| == |b.plans| && forall i :: 0 <= i < |a.plans| ==> SamePlan(json, a.plans[i], b.plans[i])
    ensures OptimizationId(a, json) == OptimizationId(b, json)
  {
    hide Sort, SamePlan;
    var x, y := Map(BuildIdentity(json), a.plans), Map(BuildIdentity(json), b.plans);
    forall i | 0 <= i < |x| ensures x[i] == y[i] {
      PlanIdentityIff(json, a.plans[i], b.plans[i]);
    }
    assert x == y;
  }

  /** The alternatives are the ranking without the chosen plan. */
  lemma {:induction false} AlternativesAreTheRest(request: Request, supported: seq<string>, json: Candidate -> string)
    requires Acceptable(request, supported) && Chosen(request).Some?
    ensures [Chosen(request).value] + ResultOf(request, json).alternatives == Ranked(request)
  {
    hide Acceptable, Ranked, OutcomeOf, OptimizationId, Bucket, Sort, Filter, Map;
    RankedDistinct(request, supported);
    TailKept(Ranked(request));
  }

  lemma {:induction false} TailKept(ranked: seq<Plan>)
    requires ranked != [] && forall i, j :: 0 <= i < j < |ranked| ==> Map(PlanId, ranked)[i] != Map(PlanId, ranked)[j]
    ensures [ranked[0]] + Filter(Besides(Some(ranked[0])), ranked) == ranked
  {
    hide Map;
    forall i | 1 <= i < |ranked| ensures ranked[i].id != ranked[0].id {
      assert Map(PlanId, ranked)[0] != Map(PlanId, ranked)[i];
    }
    FilterKeepsAll(Besides(Some(ranked[0])), ranked[1..]);
    assert ranked == [ranked[0]] + ranked[1..];
  }

  lemma {:induction false} RankedDistinct(request: Request, supported: seq<string>)
    requires Acceptable(request, supported)
    ensures forall i, j :: 0 <= i < j < |Ranked(request)| ==>
      Map(PlanId, Ranked(request))[i] != Map(PlanId, Ranked(request))[j]
  {
    hide Fulfillment, EffectiveFeasibility, Requested, Indexed, Sort, Bucket, Classify, OptimizationId, Acceptable, Map;
    var json := (c: Candidate) => "";
    IdsPartition(request, supported, json);
    var ids := ResultOf(request, json).rankedIds + Map(PlanId, Bucket(request, UNRESOLVED)) + ResultOf(request, json).rejectedIds;
    forall i, j | 0 <= i < j < |Ranked(request)|
      ensures Map(PlanId, Ranked(request))[i] != Map(PlanId, Ranked(request))[j]
    {
      assert ids[i] != ids[j];
    }
  }

  lemma {:induction false} FilterKeepsAll<T>(p: T -> bool, xs: seq<T>)
    requires forall i :: 0 <= i < |xs| ==> p(xs[i])
    ensures Filter(p, xs) == xs
  {
    if xs != [] {
      FilterKeepsAll(p, xs[1..]);
    }
  }
}
