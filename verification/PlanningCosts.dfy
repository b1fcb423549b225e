/**
 * Automatic planning over checkouts: what each plan's checkout must show for planning
 * to be READY, and what the recommended plan then costs.
 */
module PlanningCosts {
  import opened Outcomes
  import opened Ordering
  import opened CartPlans
  import opened CartFulfillment
  import opened CartOptimization
  import opened OptimizationLaws
  import opened CartEnumeration
  import opened AutomaticPlanning
  import opened AutomaticPlanningLaws
  import opened Texts
  import EffectiveCost

  type Checkouts = string -> EffectiveCost.Checkout

  /** Whatever evaluation a plan id has is that of its checkout. */
  ghost predicate Observes(providers: Providers, checkouts: Checkouts) {
    forall id :: providers.evidence(id).Evaluated? ==>
      EffectiveCost.EvaluatedFrom(providers.evidence(id).evaluation, checkouts(id))
  }

  /** The plan built from the `k`th combination. */
  function PlanAt(items: seq<CanonicalItem>, providers: Providers, k: nat): Plan
    requires k < |Combined(items, providers)|
  {
    PlanOf(providers, k, Combined(items, providers)[k])
  }

  function EvaluationAt(items: seq<CanonicalItem>, providers: Providers, k: nat): Evaluation
    requires k < |Combined(items, providers)|
  {
    EvaluationOf(providers, k, Combined(items, providers)[k])
  }

  // ----- A request for the built plans

  function Uniques(evaluations: seq<Evaluation>): (r: seq<Evaluation>)
    ensures forall e :: e in r <==> e in evaluations
  {
    if evaluations == [] then []
    else if evaluations[0] in evaluations[1..] then Uniques(evaluations[1..])
    else [evaluations[0]] + Uniques(evaluations[1..])
  }

  lemma {:induction false} UniquesDistinct(evaluations: seq<Evaluation>)
    requires Agreeing(evaluations)
    ensures Distinct(Map(EvaluationId, Uniques(evaluations)))
  {
    hide Map;
    if evaluations != [] {
      var rest := evaluations[1..];
      assert forall i :: 0 <= i < |rest| ==> rest[i] == evaluations[i + 1];
      UniquesDistinct(rest);
      var r := Uniques(rest);
      if evaluations[0] !in rest {
        assert Map(EvaluationId, [evaluations[0]] + r) == [evaluations[0].id] + Map(EvaluationId, r);
        forall i | 0 <= i < |r| ensures Map(EvaluationId, r)[i] != evaluations[0].id {
          assert r[i] in rest;
          var j :| 0 <= j < |rest| && rest[j] == r[i];
          assert evaluations[j + 1] == r[i];
        }
      }
    }
  }

  lemma {:induction false} AttachableHasRequest(cartId: string, policyVersion: string, items: seq<CanonicalItem>, providers: Providers)
    returns (request: Request)
    requires Attachable(items, providers)
    ensures AutomaticRequest(cartId, policyVersion, items, providers, request)
  {
    hide Map, Sort, Combined, PlansOf, EvaluationsOf, Buildable, Distinct, SortedBy, Uniques;
    var supplied := EvaluationsOf(providers, Combined(items, providers));
    var values := Uniques(supplied);
    UniquesDistinct(supplied);
    var sorted := Sort(values, ByEvaluationId);
    SortPermutes(values, ByEvaluationId);
    SortSorts(values, ByEvaluationId);
    PermutedBasics(sorted, values);
    MapPermuted(EvaluationId, values, sorted);
    DistinctPermuted(Map(EvaluationId, values), Map(EvaluationId, sorted));
    request := Request(cartId, policyVersion, Map(AsCartItem, items),
      Sort(PlansOf(providers, Combined(items, providers)), ById), true, [], sorted);
  }

  // ----- The plans of a request and their evaluations

  lemma {:induction false} PlanListed(
    cartId: string, policyVersion: string, items: seq<CanonicalItem>, providers: Providers, request: Request, p: Plan)
    requires AutomaticRequest(cartId, policyVersion, items, providers, request)
    ensures p in request.plans <==> exists k: nat :: k < |Combined(items, providers)| && p == PlanAt(items, providers, k)
  {
    hide Combined, PlanOf, Sort;
    PlansListed(items, providers, p);
    if p in request.plans {
      var k :| 0 <= k < |Combined(items, providers)| && p == PlanOf(providers, k, Combined(items, providers)[k]);
      assert p == PlanAt(items, providers, k);
    }
  }

  lemma {:induction false} LinkedEvaluation(
    cartId: string, policyVersion: string, items: seq<CanonicalItem>, providers: Providers, request: Request, k: nat)
    requires AutomaticRequest(cartId, policyVersion, items, providers, request) && k < |Combined(items, providers)|
    ensures var p := PlanAt(items, providers, k); var table := Indexed(request.evaluations);
      p.evaluationId in table && table[p.evaluationId] == EvaluationAt(items, providers, k)
  {
    hide Combined, Map, Sort, SortedBy, Dict, PlansOf, RetailersOf;
    var e := EvaluationAt(items, providers, k);
    assert EvaluationsOf(providers, Combined(items, providers))[k] == e;
    assert e in request.evaluations;
    var i :| 0 <= i < |request.evaluations| && request.evaluations[i] == e;
    DictHolds(EvaluationId, request.evaluations);
    assert EvaluationId(request.evaluations[i]) == e.id;
  }

  lemma {:induction false} BuiltFrom(items: seq<CanonicalItem>, providers: Providers, checkouts: Checkouts, k: nat)
    requires Buildable(items, providers) && Observes(providers, checkouts) && k < |Combined(items, providers)|
    ensures var p := PlanAt(items, providers, k);
      && EffectiveCost.EvaluatedFrom(EvaluationAt(items, providers, k), checkouts(p.id))
      && !Blank(p.id) && p.feasibility != INVALID
  {
    hide Combined, Map, RetailersOf, EffectiveCost.EvaluatedFrom;
    assert CanBuild(providers, k, Combined(items, providers)[k]);
  }

  lemma {:induction false} ItemsPositive(items: seq<CanonicalItem>, providers: Providers)
    requires Buildable(items, providers)
    ensures forall i :: 0 <= i < |items| ==> items[i].quantity > 0
  {
    hide Combined, CanBuild;
    forall i | 0 <= i < |items| ensures items[i].quantity > 0 {
      var discovered := providers.listings(items[i]);
      assert !NothingReady(discovered);
      var j :| 0 <= j < |discovered| && discovered[j].ready;
      assert CanEnrich(providers, items[i], discovered[j]);
    }
  }

  /** A built plan passes fulfilment and keeps the feasibility its policy declared. */
  lemma {:induction false} BuiltPlanFulfils(items: seq<CanonicalItem>, providers: Providers, k: nat)
    requires Attachable(items, providers) && k < |Combined(items, providers)|
    ensures var p := PlanAt(items, providers, k);
      Fulfillment(Requested(CartOf(items)), p).Ok? && EffectiveFeasibility(Requested(CartOf(items)), p) == p.feasibility
  {
    hide PlanOf, Fulfillment, EffectiveFeasibility, Product, ChoiceAt, Position, Pick, Choice, FactorsFor, Requested, Combined, Map;
    ItemsPositive(items, providers);
    CombinedIsProduct(items, providers);
    var factors := FactorsFor(items, providers);
    EachChoiceOnce(factors, k, []);
    EveryBuiltPlanFulfils(items, providers, k, ChoiceAt(factors, k));
  }

  /** A built plan stops the optimization exactly if it is declared feasible and its checkout is not settled. */
  lemma {:induction false} AcceptedIffSettled(
    cartId: string, policyVersion: string, items: seq<CanonicalItem>, providers: Providers, checkouts: Checkouts, request: Request, k: nat)
    requires AutomaticRequest(cartId, policyVersion, items, providers, request)
    requires Attachable(items, providers) && Observes(providers, checkouts) && k < |Combined(items, providers)|
    ensures var p := PlanAt(items, providers, k);
      PlanAccepted(Requested(request.cart), Indexed(request.evaluations), p) <==>
        (p.feasibility == FEASIBLE ==> EffectiveCost.CostSettled(checkouts(p.id)))
  {
    hide AutomaticRequest, Fulfillment, EffectiveFeasibility, PlanAt, EvaluationAt, Combined, Requested, Indexed, KnownCost,
      EffectiveCost.EvaluatedFrom, EffectiveCost.CostSettled;
    CartOfRequest(cartId, policyVersion, items, providers, request);
    LinkedEvaluation(cartId, policyVersion, items, providers, request, k);
    BuiltPlanFulfils(items, providers, k);
    BuiltFrom(items, providers, checkouts, k);
    EffectiveCost.BacksIffSettled(EvaluationAt(items, providers, k), checkouts(PlanAt(items, providers, k).id));
  }

  // ----- When planning is READY

  /** The known costs of all checkouts are in one currency. */
  ghost predicate SharedCurrency(items: seq<CanonicalItem>, providers: Providers, checkouts: Checkouts) {
    forall j: nat, k: nat, x, y | j < |Combined(items, providers)| && k < |Combined(items, providers)| ::
      CostAt(items, providers, checkouts, j, x) && CostAt(items, providers, checkouts, k, y) ==> x.currency == y.currency
  }

  /** The checkout of the `k`th plan costs `m`. */
  ghost predicate CostAt(items: seq<CanonicalItem>, providers: Providers, checkouts: Checkouts, k: nat, m: Money)
    requires k < |Combined(items, providers)|
  {
    EffectiveCost.CostIsKnown(checkouts(PlanAt(items, providers, k).id), m)
  }

  function LinkedCost(evaluations: map<string, Evaluation>, p: Plan): Option<Money> {
    if p.evaluationId in evaluations then evaluations[p.evaluationId].cost else None
  }

  lemma {:induction false} OneCurrencyMeans(evaluations: map<string, Evaluation>, plans: seq<Plan>)
    ensures OneCurrency(evaluations, plans) <==> forall p, q, x, y | p in plans && q in plans ::
      LinkedCost(evaluations, p) == Some(x) && LinkedCost(evaluations, q) == Some(y) ==> x.currency == y.currency
  {
    if !OneCurrency(evaluations, plans) {
      var p, q :| p in plans && q in plans && Priced(evaluations, p) && Priced(evaluations, q)
        && evaluations[p.evaluationId].cost.value.currency != evaluations[q.evaluationId].cost.value.currency;
      assert LinkedCost(evaluations, p) == Some(evaluations[p.evaluationId].cost.value);
      assert LinkedCost(evaluations, q) == Some(evaluations[q.evaluationId].cost.value);
    }
  }

  lemma {:induction false} CostIsLinked(
    cartId: string, policyVersion: string, items: seq<CanonicalItem>, providers: Providers, checkouts: Checkouts, request: Request, k: nat)
    requires AutomaticRequest(cartId, policyVersion, items, providers, request)
    requires Buildable(items, providers) && Observes(providers, checkouts) && k < |Combined(items, providers)|
    ensures var p := PlanAt(items, providers, k); var table := Indexed(request.evaluations);
      && (forall m :: CostAt(items, providers, checkouts, k, m) <==> LinkedCost(table, p) == Some(m))
      && (forall m :: CostAt(items, providers, checkouts, k, m) ==> Cost(table, p) == m.minorUnits)
  {
    hide AutomaticRequest, PlanAt, EvaluationAt, Combined, Indexed, EffectiveCost.CostIsKnown;
    LinkedEvaluation(cartId, policyVersion, items, providers, request, k);
    BuiltFrom(items, providers, checkouts, k);
    var p := PlanAt(items, providers, k);
    forall m | CostAt(items, providers, checkouts, k, m) ensures LinkedCost(Indexed(request.evaluations), p) == Some(m) {
      EffectiveCost.CostIsUnique(checkouts(p.id), m, Indexed(request.evaluations)[p.evaluationId].cost.value);
    }
  }

  lemma {:induction false} CurrencyIff(
    cartId: string, policyVersion: string, items: seq<CanonicalItem>, providers: Providers, checkouts: Checkouts, request: Request)
    requires AutomaticRequest(cartId, policyVersion, items, providers, request)
    requires Buildable(items, providers) && Observes(providers, checkouts)
    ensures OneCurrency(Indexed(request.evaluations), request.plans) <==> SharedCurrency(items, providers, checkouts)
  {
    hide AutomaticRequest, PlanAt, Combined, Indexed, OneCurrency, CostAt, Buildable, Observes, LinkedCost;
    var table := Indexed(request.evaluations);
    OneCurrencyMeans(table, request.plans);
    forall k: nat | k < |Combined(items, providers)|
      ensures PlanAt(items, providers, k) in request.plans
      ensures forall m :: CostAt(items, providers, checkouts, k, m) <==> LinkedCost(table, PlanAt(items, providers, k)) == Some(m)
    {
      PlanListed(cartId, policyVersion, items, providers, request, PlanAt(items, providers, k));
      CostIsLinked(cartId, policyVersion, items, providers, checkouts, request, k);
    }
    if SharedCurrency(items, providers, checkouts) {
      forall p, q, x, y | p in request.plans && q in request.plans && LinkedCost(table, p) == Some(x) && LinkedCost(table, q) == Some(y)
        ensures x.currency == y.currency
      {
        PlanListed(cartId, policyVersion, items, providers, request, p);
        PlanListed(cartId, policyVersion, items, providers, request, q);
        var j: nat :| j < |Combined(items, providers)| && p == PlanAt(items, providers, j);
        var k: nat :| k < |Combined(items, providers)| && q == PlanAt(items, providers, k);
        assert CostAt(items, providers, checkouts, j, x) && CostAt(items, providers, checkouts, k, y);
      }
    } else {
      var j: nat, k: nat, x, y :| j < |Combined(items, providers)| && k < |Combined(items, providers)|
        && CostAt(items, providers, checkouts, j, x) && CostAt(items, providers, checkouts, k, y) && x.currency != y.currency;
      assert LinkedCost(table, PlanAt(items, providers, j)) == Some(x);
      assert LinkedCost(table, PlanAt(items, providers, k)) == Some(y);
    }
  }

  lemma {:induction false} PlansAreValid(
    cartId: string, policyVersion: string, items: seq<CanonicalItem>, providers: Providers, checkouts: Checkouts, request: Request)
    requires AutomaticRequest(cartId, policyVersion, items, providers, request)
    requires Attachable(items, providers) && Observes(providers, checkouts)
    ensures ValidPlans(request.plans) && Distinct(Map(ItemKeyOf, request.cart)) && Distinct(Map(EvaluationId, request.evaluations))
  {
    hide PlanAt, Combined, Map, Sort, Distinct, SortedBy, Buildable, PlansOf, EvaluationsOf, Agreeing;
    forall p | p in request.plans ensures !Blank(p.id) && p.feasibility != INVALID {
      PlanListed(cartId, policyVersion, items, providers, request, p);
      var k: nat :| k < |Combined(items, providers)| && p == PlanAt(items, providers, k);
      BuiltFrom(items, providers, checkouts, k);
    }
    var plans := PlansOf(providers, Combined(items, providers));
    SortPermutes(plans, ById);
    MapPermuted(PlanId, request.plans, plans);
    PermutedSymmetric(Map(PlanId, request.plans), Map(PlanId, plans));
    DistinctPermuted(Map(PlanId, plans), Map(PlanId, request.plans));
  }

  lemma {:induction false} PermutedSymmetric<T>(a: seq<T>, b: seq<T>)
    requires Permuted(a, b)
    ensures Permuted(b, a)
  {
  }

  /** What a cart, its providers and its checkouts must be like for planning to be READY. */
  ghost predicate Sufficient(
    cartId: string, policyVersion: string, supported: seq<string>, items: seq<CanonicalItem>, providers: Providers, checkouts: Checkouts)
  {
    && Attachable(items, providers) && !Blank(cartId) && policyVersion in supported
    && SharedCurrency(items, providers, checkouts)
    && (forall k: nat | k < |Combined(items, providers)| :: var p := PlanAt(items, providers, k);
          p.feasibility != UNRESOLVED && (p.feasibility == FEASIBLE ==> EffectiveCost.CostSettled(checkouts(p.id))))
    && (exists k: nat :: k < |Combined(items, providers)| && PlanAt(items, providers, k).feasibility == FEASIBLE)
  }

  lemma {:induction false} AcceptableIff(
    cartId: string, policyVersion: string, supported: seq<string>, items: seq<CanonicalItem>, providers: Providers, checkouts: Checkouts,
    request: Request)
    requires AutomaticRequest(cartId, policyVersion, items, providers, request)
    requires Attachable(items, providers) && Observes(providers, checkouts)
    ensures Acceptable(request, supported) <==>
      && !Blank(cartId) && policyVersion in supported && SharedCurrency(items, providers, checkouts)
      && (forall k: nat | k < |Combined(items, providers)| :: var p := PlanAt(items, providers, k);
            p.feasibility == FEASIBLE ==> EffectiveCost.CostSettled(checkouts(p.id)))
  {
    hide PlanAt, Combined, Indexed, Requested, OneCurrency, PlanAccepted, ValidPlans, Distinct, Map, EffectiveCost.CostSettled,
      Buildable, SharedCurrency, Attachable, Observes, AutomaticRequest;
    PlansAreValid(cartId, policyVersion, items, providers, checkouts, request);
    AttachableIsBuildable(items, providers);
    CurrencyIff(cartId, policyVersion, items, providers, checkouts, request);
    RequestNames(cartId, policyVersion, items, providers, request);
    forall k: nat | k < |Combined(items, providers)|
      ensures var p := PlanAt(items, providers, k);
        && p in request.plans
        && (PlanAccepted(Requested(request.cart), Indexed(request.evaluations), p) <==>
              (p.feasibility == FEASIBLE ==> EffectiveCost.CostSettled(checkouts(p.id))))
    {
      PlanListed(cartId, policyVersion, items, providers, request, PlanAt(items, providers, k));
      AcceptedIffSettled(cartId, policyVersion, items, providers, checkouts, request, k);
    }
    forall p | p in request.plans ensures exists k: nat :: k < |Combined(items, providers)| && p == PlanAt(items, providers, k) {
      PlanListed(cartId, policyVersion, items, providers, request, p);
    }
  }

  lemma {:induction false} AttachableIsBuildable(items: seq<CanonicalItem>, providers: Providers)
    requires Attachable(items, providers)
    ensures Buildable(items, providers)
  {
  }

  lemma {:induction false} RequestNames(
    cartId: string, policyVersion: string, items: seq<CanonicalItem>, providers: Providers, request: Request)
    requires AutomaticRequest(cartId, policyVersion, items, providers, request)
    ensures request.requestId == cartId && request.policy == policyVersion && request.coverageComplete
    ensures request.cart == CartOf(items)
  {
  }

  lemma {:induction false} SelectedIffDeclared(
    cartId: string, policyVersion: string, items: seq<CanonicalItem>, providers: Providers, request: Request)
    requires AutomaticRequest(cartId, policyVersion, items, providers, request) && Attachable(items, providers)
    ensures OutcomeOf(request).Selected? <==>
      && (forall k: nat | k < |Combined(items, providers)| :: PlanAt(items, providers, k).feasibility != UNRESOLVED)
      && (exists k: nat :: k < |Combined(items, providers)| && PlanAt(items, providers, k).feasibility == FEASIBLE)
  {
    hide PlanAt, Combined, Requested, EffectiveFeasibility, Fulfillment, Attachable, AutomaticRequest, OutcomeOf, Chosen;
    SelectedIff(request);
    RequestNames(cartId, policyVersion, items, providers, request);
    forall k: nat | k < |Combined(items, providers)|
      ensures var p := PlanAt(items, providers, k);
        p in request.plans && EffectiveFeasibility(Requested(request.cart), p) == p.feasibility
    {
      PlanListed(cartId, policyVersion, items, providers, request, PlanAt(items, providers, k));
      BuiltPlanFulfils(items, providers, k);
    }
    forall p | p in request.plans ensures exists k: nat :: k < |Combined(items, providers)| && p == PlanAt(items, providers, k) {
      PlanListed(cartId, policyVersion, items, providers, request, p);
    }
  }

  /**
   * Planning is READY exactly if the plans can be built and put together, every plan
   * declared feasible has a checkout whose cost and deferred values are all known, the
   * known costs share a currency, no plan is unresolved and one is feasible. One
   * unknown cashback on one feasible plan is enough to have no recommendation at all.
   */
  lemma {:induction false} ReadyIff(
    cartId: string, policyVersion: string, supported: seq<string>, items: seq<CanonicalItem>, providers: Providers, checkouts: Checkouts)
    requires Observes(providers, checkouts)
    ensures ReadyFor(cartId, policyVersion, supported, items, providers) <==>
      Sufficient(cartId, policyVersion, supported, items, providers, checkouts)
  {
    hide PlanAt, Combined, SharedCurrency, Attachable, Observes, AutomaticRequest, OutcomeOf, Acceptable, EffectiveCost.CostSettled;
    if Attachable(items, providers) {
      var request := AttachableHasRequest(cartId, policyVersion, items, providers);
      AcceptableIff(cartId, policyVersion, supported, items, providers, checkouts, request);
      SelectedIffDeclared(cartId, policyVersion, items, providers, request);
      OnlyAnswer(cartId, policyVersion, supported, items, providers, request);
    }
  }

  lemma {:induction false} OnlyAnswer(
    cartId: string, policyVersion: string, supported: seq<string>, items: seq<CanonicalItem>, providers: Providers, request: Request)
    requires AutomaticRequest(cartId, policyVersion, items, providers, request) && Attachable(items, providers)
    ensures ReadyFor(cartId, policyVersion, supported, items, providers) <==>
      Acceptable(request, supported) && OutcomeOf(request).Selected?
    ensures Answerable(cartId, policyVersion, supported, items, providers) <==> Acceptable(request, supported)
  {
    hide AutomaticRequest, Attachable, Acceptable, OutcomeOf, Chosen, Ranked, Combined;
    forall other | AutomaticRequest(cartId, policyVersion, items, providers, other) ensures other == request {
      RequestUnique(cartId, policyVersion, items, providers, other, request);
    }
    if Acceptable(request, supported) && OutcomeOf(request).Selected? {
      assert Answers(cartId, policyVersion, supported, items, providers, ResultOf(request, providers.json));
      assert ResultOf(request, providers.json).outcome.Selected?;
    }
  }

  /** One feasible plan whose checkout is not settled, and the optimizer gives no answer about any plan. */
  lemma {:induction false} OneUnsettledStopsAll(
    cartId: string, policyVersion: string, supported: seq<string>, items: seq<CanonicalItem>, providers: Providers, checkouts: Checkouts,
    k: nat)
    requires Observes(providers, checkouts) && k < |Combined(items, providers)|
    requires PlanAt(items, providers, k).feasibility == FEASIBLE
    requires !EffectiveCost.CostSettled(checkouts(PlanAt(items, providers, k).id))
    ensures !Answerable(cartId, policyVersion, supported, items, providers)
  {
    hide PlanAt, Combined, SharedCurrency, Attachable, Observes, AutomaticRequest, Acceptable, EffectiveCost.CostSettled;
    if Attachable(items, providers) {
      var request := AttachableHasRequest(cartId, policyVersion, items, providers);
      AcceptableIff(cartId, policyVersion, supported, items, providers, checkouts, request);
      OnlyAnswer(cartId, policyVersion, supported, items, providers, request);
    }
  }

  // ----- What the recommendation costs

  lemma {:induction false} BetterIsCheaper(evaluations: map<string, Evaluation>, p: Plan, q: Plan)
    requires AtLeastAsGood(evaluations, p, q)
    ensures Cost(evaluations, p) <= Cost(evaluations, q)
  {
  }

  /** The `k`th plan's checkout has a known cost, and `cost` is no more. */
  ghost predicate CostsAtLeast(items: seq<CanonicalItem>, providers: Providers, checkouts: Checkouts, k: nat, cost: Money)
    requires k < |Combined(items, providers)|
  {
    exists other :: CostAt(items, providers, checkouts, k, other) && cost.currency == other.currency && cost.minorUnits <= other.minorUnits
  }

  /** The chosen plan of the one acceptable request costs no more than the `k`th, if that is feasible. */
  lemma {:induction false} NoneIsCheaper(
    cartId: string, policyVersion: string, supported: seq<string>, items: seq<CanonicalItem>, providers: Providers, checkouts: Checkouts,
    request: Request, b: nat, k: nat, cost: Money)
    requires AutomaticRequest(cartId, policyVersion, items, providers, request) && Acceptable(request, supported)
    requires Attachable(items, providers) && Observes(providers, checkouts)
    requires b < |Combined(items, providers)| && k < |Combined(items, providers)|
    requires Chosen(request) == Some(PlanAt(items, providers, b)) && CostAt(items, providers, checkouts, b, cost)
    requires PlanAt(items, providers, k).feasibility == FEASIBLE
    ensures CostsAtLeast(items, providers, checkouts, k, cost)
  {
    hide PlanAt, Combined, SharedCurrency, Attachable, Observes, AutomaticRequest, Acceptable, CostAt, OutcomeOf,
      Requested, Indexed, EffectiveFeasibility, Fulfillment, Cost, AtLeastAsGood, Chosen;
    var p := PlanAt(items, providers, k);
    AttachableIsBuildable(items, providers);
    AcceptableIff(cartId, policyVersion, supported, items, providers, checkouts, request);
    RequestNames(cartId, policyVersion, items, providers, request);
    PlanListed(cartId, policyVersion, items, providers, request, p);
    BuiltPlanFulfils(items, providers, k);
    SelectedIff(request);
    ChosenIsBest(request, p);
    BetterIsCheaper(Indexed(request.evaluations), PlanAt(items, providers, b), p);
    CostIsLinked(cartId, policyVersion, items, providers, checkouts, request, b);
    CostIsLinked(cartId, policyVersion, items, providers, checkouts, request, k);
    var other := SettledCosts(items, providers, checkouts, k);
    SameCurrency(items, providers, checkouts, b, k, cost, other);
  }

  lemma {:induction false} SettledCosts(items: seq<CanonicalItem>, providers: Providers, checkouts: Checkouts, k: nat) returns (m: Money)
    requires k < |Combined(items, providers)| && EffectiveCost.CostSettled(checkouts(PlanAt(items, providers, k).id))
    ensures CostAt(items, providers, checkouts, k, m)
  {
    hide PlanAt, Combined, EffectiveCost.CostIsKnown;
    m :| EffectiveCost.CostIsKnown(checkouts(PlanAt(items, providers, k).id), m);
  }

  /** The chosen plan is one of the built ones, declared feasible. */
  lemma {:induction false} ChosenIsBuilt(
    cartId: string, policyVersion: string, supported: seq<string>, items: seq<CanonicalItem>, providers: Providers, request: Request)
    returns (b: nat)
    requires AutomaticRequest(cartId, policyVersion, items, providers, request) && Acceptable(request, supported)
    requires OutcomeOf(request).Selected?
    ensures b < |Combined(items, providers)|
    ensures Chosen(request) == Some(PlanAt(items, providers, b)) && PlanAt(items, providers, b).feasibility == FEASIBLE
  {
    hide PlanAt, Combined, AutomaticRequest, Acceptable, OutcomeOf, Requested, Indexed, EffectiveFeasibility, Fulfillment, AtLeastAsGood, Chosen,
      FactorsFor, Choice, Position, Pick, PlanOf;
    SelectedIff(request);
    var best := Chosen(request).value;
    ChosenIsBest(request, best);
    var _ := RecommendationIsAChoice(cartId, policyVersion, supported, items, providers, request);
    PlanListed(cartId, policyVersion, items, providers, request, best);
    b :| b < |Combined(items, providers)| && best == PlanAt(items, providers, b);
  }

  /**
   * The plan in a READY answer costs what is payable at its checkout, and no plan that
   * can be built and is feasible, from whatever choice of candidates, costs less.
   */
  lemma {:induction false} RecommendationIsCheapest(
    cartId: string, policyVersion: string, supported: seq<string>, items: seq<CanonicalItem>, providers: Providers, checkouts: Checkouts,
    result: OptimizationResult) returns (cost: Money)
    requires Answers(cartId, policyVersion, supported, items, providers, result) && result.outcome.Selected?
    requires Attachable(items, providers) && Observes(providers, checkouts)
    ensures result.chosen.Some? && EffectiveCost.CostIsKnown(checkouts(result.chosen.value.id), cost)
    ensures forall k: nat :: k < |Combined(items, providers)| && PlanAt(items, providers, k).feasibility == FEASIBLE ==>
      CostsAtLeast(items, providers, checkouts, k, cost)
  {
    hide PlanAt, Combined, SharedCurrency, Attachable, Observes, AutomaticRequest, Acceptable, EffectiveCost.CostIsKnown,
      OutcomeOf, Chosen, Ranked, CostsAtLeast, EffectiveCost.CostSettled;
    var request :| AutomaticRequest(cartId, policyVersion, items, providers, request) && Acceptable(request, supported)
      && result == ResultOf(request, providers.json);
    AcceptableIff(cartId, policyVersion, supported, items, providers, checkouts, request);
    var b := ChosenIsBuilt(cartId, policyVersion, supported, items, providers, request);
    cost := SettledCosts(items, providers, checkouts, b);
    forall k: nat | k < |Combined(items, providers)| && PlanAt(items, providers, k).feasibility == FEASIBLE
      ensures CostsAtLeast(items, providers, checkouts, k, cost)
    {
      NoneIsCheaper(cartId, policyVersion, supported, items, providers, checkouts, request, b, k, cost);
    }
  }

  lemma {:induction false} SameCurrency(
    items: seq<CanonicalItem>, providers: Providers, checkouts: Checkouts, j: nat, k: nat, x: Money, y: Money)
    requires SharedCurrency(items, providers, checkouts) && j < |Combined(items, providers)| && k < |Combined(items, providers)|
    requires CostAt(items, providers, checkouts, j, x) && CostAt(items, providers, checkouts, k, y)
    ensures x.currency == y.currency
  {
  }

  // ----- The recommendation in the providers' own terms

  /** What a choice is ranked by. */
  datatype Merit = Merit(cost: int, checkouts: nat, inconvenience: int, priority: int, id: string)

  /** Cost first, then checkouts, then inconvenience, then the higher priority, then the id. */
  ghost predicate NoWorse(a: Merit, b: Merit) {
    if a.cost != b.cost then a.cost < b.cost
    else if a.checkouts != b.checkouts then a.checkouts < b.checkouts
    else if a.inconvenience != b.inconvenience then a.inconvenience < b.inconvenience
    else if a.priority != b.priority then a.priority > b.priority
    else TextLeq(a.id, b.id)
  }

  /**
   * The merit of picking `raw` as the `k`th combination: what is payable at the
   * checkout of the id it is given, how many checkouts its picks go to, and that id's
   * policy.
   */
  ghost predicate Merits(providers: Providers, checkouts: Checkouts, k: nat, raw: seq<Candidate>, m: Merit) {
    && (exists placed :: PlacedAs(providers, raw, placed) && m.id == providers.planId(k, placed))
    && (exists cost :: EffectiveCost.CostIsKnown(checkouts(m.id), cost) && m.cost == cost.minorUnits)
    && m.checkouts == |set i | 0 <= i < |raw| :: CheckoutOf(providers, raw[i])|
    && providers.policy(m.id).Some?
    && m.inconvenience == providers.policy(m.id).value.inconvenience
    && m.priority == providers.policy(m.id).value.priority
  }

  lemma {:induction false} PlacedOnce(providers: Providers, raw: seq<Candidate>, x: seq<Candidate>, y: seq<Candidate>)
    requires PlacedAs(providers, raw, x) && PlacedAs(providers, raw, y)
    ensures x == y
  {
    forall i | 0 <= i < |raw| ensures x[i] == y[i] {
      assert x[i].allocation == y[i].allocation;
    }
  }

  /** A built plan's ranking fields are the merit of its combination. */
  lemma {:induction false} MeritOfPlan(
    cartId: string, policyVersion: string, items: seq<CanonicalItem>, providers: Providers, checkouts: Checkouts, request: Request,
    k: nat, m: Merit)
    requires AutomaticRequest(cartId, policyVersion, items, providers, request)
    requires Buildable(items, providers) && Observes(providers, checkouts) && k < |Combined(items, providers)|
    requires EffectiveCost.CostSettled(checkouts(PlanAt(items, providers, k).id))
    ensures var p := PlanAt(items, providers, k);
      Merits(providers, checkouts, k, Combined(items, providers)[k], m) <==>
        m == Merit(Cost(Indexed(request.evaluations), p), |p.groups|, p.inconvenience, p.priority, p.id)
  {
    hide AutomaticRequest, Combined, Indexed, EffectiveCost.CostIsKnown, PlanOf, Map, PlacedAs, Cost, Observes, LinkedCost, RetailersOf;
    var raw := Combined(items, providers)[k];
    var p := PlanAt(items, providers, k);
    assert Carries(providers, k, raw, p) by { PlanCarries(items, providers, k); }
    CostIsLinked(cartId, policyVersion, items, providers, checkouts, request, k);
    var cost := SettledCosts(items, providers, checkouts, k);
    assert PlacedAs(providers, raw, p.candidates);
    forall placed | PlacedAs(providers, raw, placed) ensures placed == p.candidates {
      PlacedOnce(providers, raw, placed, p.candidates);
    }
    assert EffectiveCost.CostIsKnown(checkouts(p.id), cost);
    assert forall other :: EffectiveCost.CostIsKnown(checkouts(p.id), other) ==> CostAt(items, providers, checkouts, k, other);
  }

  lemma {:induction false} PlanCarries(items: seq<CanonicalItem>, providers: Providers, k: nat)
    requires Buildable(items, providers) && k < |Combined(items, providers)|
    ensures Carries(providers, k, Combined(items, providers)[k], PlanAt(items, providers, k))
  {
    hide Combined, PlanOf, CanBuild, Carries;
    assert CanBuild(providers, k, Combined(items, providers)[k]);
    BuiltPlanCarries(providers, k, Combined(items, providers)[k]);
  }

  /** `k` is one of the combinations and `m` its merit, under a policy that declares it feasible. */
  ghost predicate Competes(items: seq<CanonicalItem>, providers: Providers, checkouts: Checkouts, index: seq<nat>, m: Merit) {
    var factors := FactorsFor(items, providers);
    && Choice(factors, index)
    && Merits(providers, checkouts, Position(factors, index), Pick(factors, index), m)
    && providers.policy(m.id).value.feasibility == FEASIBLE
  }

  /** A competing choice is a built, feasible, settled plan. */
  lemma {:induction false} CompetitorIsPlan(
    cartId: string, policyVersion: string, supported: seq<string>, items: seq<CanonicalItem>, providers: Providers, checkouts: Checkouts,
    request: Request, index: seq<nat>, m: Merit) returns (k: nat)
    requires AutomaticRequest(cartId, policyVersion, items, providers, request) && Acceptable(request, supported)
    requires Attachable(items, providers) && Observes(providers, checkouts)
    requires Competes(items, providers, checkouts, index, m)
    ensures k < |Combined(items, providers)|
    ensures var p := PlanAt(items, providers, k);
      && p.feasibility == FEASIBLE && m == Merit(Cost(Indexed(request.evaluations), p), |p.groups|, p.inconvenience, p.priority, p.id)
  {
    hide AutomaticRequest, Acceptable, Attachable, Observes, Combined, Indexed, PlanAt, Cost, Choice, Pick, Position, FactorsFor,
      SharedCurrency, EffectiveCost.CostIsKnown, EffectiveCost.CostSettled;
    var factors := FactorsFor(items, providers);
    k := Position(factors, index);
    ProductAt(factors, index);
    CombinedIsProduct(items, providers);
    AttachableIsBuildable(items, providers);
    AcceptableIff(cartId, policyVersion, supported, items, providers, checkouts, request);
    PlanCarries(items, providers, k);
    var p := PlanAt(items, providers, k);
    var placed :| PlacedAs(providers, Combined(items, providers)[k], placed) && m.id == providers.planId(k, placed);
    PlacedOnce(providers, Combined(items, providers)[k], placed, p.candidates);
    MeritOfPlan(cartId, policyVersion, items, providers, checkouts, request, k, m);
  }

  lemma {:induction false} RankedByMerit(evaluations: map<string, Evaluation>, p: Plan, q: Plan)
    ensures AtLeastAsGood(evaluations, p, q) <==>
      NoWorse(Merit(Cost(evaluations, p), |p.groups|, p.inconvenience, p.priority, p.id),
              Merit(Cost(evaluations, q), |q.groups|, q.inconvenience, q.priority, q.id))
  {
    hide Cost, TextLeq;
  }

  /**
   * In the providers' own terms: the plan in a READY answer is some positional choice,
   * placed in the groups its providers name, under the id it was given; and of all
   * choices whose policy declares them feasible none has a better merit, that is
   * payable cost, number of checkouts, policy inconvenience, policy priority and id.
   */
  lemma {:induction false} RecommendationHasBestMerit(
    cartId: string, policyVersion: string, supported: seq<string>, items: seq<CanonicalItem>, providers: Providers, checkouts: Checkouts,
    result: OptimizationResult) returns (best: Merit, index: seq<nat>)
    requires Answers(cartId, policyVersion, supported, items, providers, result) && result.outcome.Selected?
    requires Attachable(items, providers) && Observes(providers, checkouts)
    ensures Competes(items, providers, checkouts, index, best)
    ensures result.chosen.Some? && result.chosen.value.id == best.id
    ensures PlacedAs(providers, Pick(FactorsFor(items, providers), index), result.chosen.value.candidates)
    ensures forall other, m :: Competes(items, providers, checkouts, other, m) ==> NoWorse(best, m)
  {
    hide AutomaticRequest, Acceptable, Attachable, Observes, Combined, Indexed, PlanAt, Cost, Choice, Pick, Position, FactorsFor, Product,
      SharedCurrency, EffectiveCost.CostIsKnown, EffectiveCost.CostSettled, OutcomeOf, Chosen, Ranked, NoWorse, Competes, Merits, ChoiceAt,
      PlacedAs, AtLeastAsGood, Requested, EffectiveFeasibility, Fulfillment;
    var request :| AutomaticRequest(cartId, policyVersion, items, providers, request) && Acceptable(request, supported)
      && result == ResultOf(request, providers.json);
    var b := ChosenIsBuilt(cartId, policyVersion, supported, items, providers, request);
    best, index := BestCompetes(cartId, policyVersion, supported, items, providers, checkouts, request, b);
    forall other, m | Competes(items, providers, checkouts, other, m) ensures NoWorse(best, m) {
      var k := CompetitorIsPlan(cartId, policyVersion, supported, items, providers, checkouts, request, other, m);
      ChosenBeats(cartId, policyVersion, items, providers, request, b, k);
      RankedByMerit(Indexed(request.evaluations), PlanAt(items, providers, b), PlanAt(items, providers, k));
    }
  }

  /** A feasible plan competes, with the merit it is ranked by. */
  lemma {:induction false} BestCompetes(
    cartId: string, policyVersion: string, supported: seq<string>, items: seq<CanonicalItem>, providers: Providers, checkouts: Checkouts,
    request: Request, k: nat) returns (m: Merit, index: seq<nat>)
    requires AutomaticRequest(cartId, policyVersion, items, providers, request) && Acceptable(request, supported)
    requires Attachable(items, providers) && Observes(providers, checkouts)
    requires k < |Combined(items, providers)| && PlanAt(items, providers, k).feasibility == FEASIBLE
    ensures Competes(items, providers, checkouts, index, m)
    ensures var p := PlanAt(items, providers, k);
      && m == Merit(Cost(Indexed(request.evaluations), p), |p.groups|, p.inconvenience, p.priority, p.id)
      && PlacedAs(providers, Pick(FactorsFor(items, providers), index), p.candidates)
  {
    hide AutomaticRequest, Acceptable, Attachable, Observes, Combined, Indexed, PlanAt, Cost, Choice, Pick, Position, FactorsFor, Product,
      SharedCurrency, EffectiveCost.CostSettled, ChoiceAt, Merits, PlacedAs, GroupedFor;
    var factors := FactorsFor(items, providers);
    CombinedIsProduct(items, providers);
    EachChoiceOnce(factors, k, []);
    index := ChoiceAt(factors, k);
    PositionOfChoice(factors, k);
    AttachableIsBuildable(items, providers);
    AcceptableIff(cartId, policyVersion, supported, items, providers, checkouts, request);
    PlanCarries(items, providers, k);
    var p := PlanAt(items, providers, k);
    m := Merit(Cost(Indexed(request.evaluations), p), |p.groups|, p.inconvenience, p.priority, p.id);
    MeritOfPlan(cartId, policyVersion, items, providers, checkouts, request, k, m);
  }

  lemma {:induction false} ChosenBeats(
    cartId: string, policyVersion: string, items: seq<CanonicalItem>, providers: Providers, request: Request, b: nat, k: nat)
    requires AutomaticRequest(cartId, policyVersion, items, providers, request) && Attachable(items, providers)
    requires b < |Combined(items, providers)| && k < |Combined(items, providers)|
    requires Chosen(request) == Some(PlanAt(items, providers, b)) && PlanAt(items, providers, k).feasibility == FEASIBLE
    ensures AtLeastAsGood(Indexed(request.evaluations), PlanAt(items, providers, b), PlanAt(items, providers, k))
  {
    hide AutomaticRequest, Attachable, Combined, Indexed, PlanAt, OutcomeOf, Chosen, Requested, EffectiveFeasibility, Fulfillment, AtLeastAsGood;
    var p := PlanAt(items, providers, k);
    RequestNames(cartId, policyVersion, items, providers, request);
    PlanListed(cartId, policyVersion, items, providers, request, p);
    BuiltPlanFulfils(items, providers, k);
    SelectedIff(request);
    ChosenIsBest(request, p);
  }

  // ----- One unknown cashback

  /** The providers of the example, but the plan's checkout promises a cashback of unknown value. */
  function CashbackProviders(): Providers {
    ExampleProviders().(evidence :=
      (id: string) => Evaluated(Evaluation("evaluation", Some(Money("INR", 100)), ["offer:cashback:deferred_value"])))
  }

  lemma {:induction false} SameCombinations()
    ensures Combined([EXAMPLE_ITEM], CashbackProviders()) == [[ExampleCandidate()]]
  {
    hide Product, Sort;
    ExampleFactors();
    OneCombination(ExampleCandidate());
    One(Enrich(CashbackProviders(), EXAMPLE_ITEM), (x: Listed) => true, (x: Listed) => [], Listed(EXAMPLE_LISTING, "product", "variant", true));
    One(Enrich(ExampleProviders(), EXAMPLE_ITEM), (x: Listed) => true, (x: Listed) => [], Listed(EXAMPLE_LISTING, "product", "variant", true));
    assert SetOf(CashbackProviders())(EXAMPLE_ITEM) == SetOf(ExampleProviders())(EXAMPLE_ITEM);
    One(SetOf(CashbackProviders()), (x: CanonicalItem) => true, (x: CanonicalItem) => [], EXAMPLE_ITEM);
    One(SetOf(ExampleProviders()), (x: CanonicalItem) => true, (x: CanonicalItem) => [], EXAMPLE_ITEM);
    assert Map(SetOf(CashbackProviders()), [EXAMPLE_ITEM]) == Map(SetOf(ExampleProviders()), [EXAMPLE_ITEM]);
    assert CashbackProviders().json == ExampleProviders().json;
  }

  /** Without the cashback planning is READY. */
  lemma {:induction false} ExampleIsReady()
    ensures ReadyFor("cart", "policy-v1", ["policy-v1"], [EXAMPLE_ITEM], ExampleProviders())
  {
    hide AutomaticRequest, Acceptable, OutcomeOf, Attachable;
    var request := ReadyHappens();
    ExampleIsAttachable();
    OnlyAnswer("cart", "policy-v1", ["policy-v1"], [EXAMPLE_ITEM], ExampleProviders(), request);
  }

  lemma {:induction false} ExampleIsAttachable()
    ensures Attachable([EXAMPLE_ITEM], ExampleProviders())
  {
    hide Combined, Map, CanBuild, PlanOf, EvaluationOf, CanEnrich;
    var items, providers := [EXAMPLE_ITEM], ExampleProviders();
    assert Combined(items, providers) == [[ExampleCandidate()]] by { ExampleCombined(); }
    ExampleBuilds();
    ExampleEnriches();
    One(AsCartItem, (x: CanonicalItem) => true, (x: CanonicalItem) => [], EXAMPLE_ITEM);
    One(ItemKeyOf, (x: CartItem) => true, (x: CartItem) => [], AsCartItem(EXAMPLE_ITEM));
    var plan := PlanOf(providers, 0, [ExampleCandidate()]);
    assert PlansOf(providers, Combined(items, providers)) == [plan];
    One(PlanId, (p: Plan) => true, ById, plan);
  }

  lemma {:induction false} ExampleCombined()
    ensures Combined([EXAMPLE_ITEM], ExampleProviders()) == [[ExampleCandidate()]]
  {
    hide Product, Factors;
    ExampleFactors();
    OneCombination(ExampleCandidate());
    CombinedIsProduct([EXAMPLE_ITEM], ExampleProviders());
  }

  lemma {:induction false} NotBlank(s: string)
    requires s != [] && !IsBlank(s[0])
    ensures !Blank(s)
  {
  }

  lemma {:induction false} ExampleEnriches()
    ensures var discovered := ExampleProviders().listings(EXAMPLE_ITEM);
      && !NothingReady(discovered)
      && forall j :: 0 <= j < |discovered| ==> CanEnrich(ExampleProviders(), EXAMPLE_ITEM, discovered[j])
  {
    hide Blank;
    NotBlank("item");
    NotBlank("product");
    NotBlank("variant");
    NotBlank("retailer");
    var listed := Listed(EXAMPLE_LISTING, "product", "variant", true);
    assert ExampleProviders().listings(EXAMPLE_ITEM) == [listed];
    assert ExampleProviders().listings(EXAMPLE_ITEM)[0].ready;
  }

  /** The example's only plan. */
  function OnlyPlan(): Plan {
    var a := Allocation(EXAMPLE_ITEM.key, 1, "retailer", "group");
    Plan("plan", 0, 0, [RetailerAllocation("retailer", "group")], [a], [Candidate(a, EXAMPLE_LISTING, None)],
         [CheckoutGroup("group", "retailer", "evaluation")], "evaluation", [], FEASIBLE)
  }

  lemma {:induction false} ExampleBuildsPlan()
    ensures PlanOf(ExampleProviders(), 0, [ExampleCandidate()]) == OnlyPlan()
  {
    hide RetailersOf, Map;
    var providers := ExampleProviders();
    var c := ExampleCandidate();
    One(Regroup(providers), (x: Candidate) => true, (x: Candidate) => [], c);
    var grouped := Regroup(providers)(c);
    RetailersSnoc([], grouped);
    NoRetailers();
    assert [] + [grouped] == [grouped] && RetailersOf([grouped]) == [PairOf(grouped)];
    One(ToItemAllocation, (x: Candidate) => true, (x: Candidate) => [], grouped);
    One(GroupWith("evaluation"), (x: RetailerAllocation) => true, (x: RetailerAllocation) => [], PairOf(grouped));
  }

  lemma {:induction false} ExampleBuilds()
    ensures CanBuild(ExampleProviders(), 0, [ExampleCandidate()])
  {
    hide PlanOf, Blank;
    ExampleBuildsPlan();
    NotBlank("item");
    NotBlank("variant");
    NotBlank("retailer");
    NotBlank("group");
    NotBlank("plan");
    NotBlank("evaluation");
    NotBlank("configured");
  }

  /** The checkout costs 100 either way, but with the cashback planning has no answer where it was READY without. */
  lemma {:induction false} UnknownCashbackStopsPlanning()
    ensures Observes(CashbackProviders(), (id: string) => EffectiveCost.CASHBACK_CHECKOUT)
    ensures EffectiveCost.CostIsKnown(EffectiveCost.CASHBACK_CHECKOUT, Money("INR", 100))
    ensures !Answerable("cart", "policy-v1", ["policy-v1"], [EXAMPLE_ITEM], CashbackProviders())
  {
    hide Combined, EffectiveCost.CostSettled, EffectiveCost.CostIsKnown, EffectiveCost.EvaluatedFrom;
    EffectiveCost.UnknownCashbackUnsettles();
    SameCombinations();
    assert PlanAt([EXAMPLE_ITEM], CashbackProviders(), 0).feasibility == FEASIBLE;
    OneUnsettledStopsAll("cart", "policy-v1", ["policy-v1"], [EXAMPLE_ITEM], CashbackProviders(),
      (id: string) => EffectiveCost.CASHBACK_CHECKOUT, 0);
  }
}
