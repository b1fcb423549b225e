/** What automatic planning guarantees about every plan it builds and the one it recommends. */
module AutomaticPlanningLaws {
  import opened Outcomes
  import opened Ordering
  import opened CartPlans
  import opened CartFulfillment
  import opened CartOptimization
  import opened OptimizationLaws
  import opened CartEnumeration
  import opened AutomaticPlanning
  import opened Texts

  function SetsFor(items: seq<CanonicalItem>, providers: Providers): seq<AllocationSet> {
    Map(SetOf(providers), items)
  }

  function CartOf(items: seq<CanonicalItem>): seq<CartItem> { Map(AsCartItem, items) }

  /** The candidate lists a combination picks from, one per item in item-id order. */
  function FactorsFor(items: seq<CanonicalItem>, providers: Providers): seq<seq<Candidate>> {
    Factors(SetsFor(items, providers), providers.json)
  }

  // ----- Allocations ask for exactly the cart

  function Asked(a: Allocation): CartItem { CartItem(a.key, a.quantity) }

  function AskedBySet(s: AllocationSet): CartItem { CartItem(s.key, s.quantity) }

  function QuantityOf(key: ItemKey): CartItem -> int {
    (item: CartItem) => if item.key == key then item.quantity else 0
  }

  lemma {:induction false} SumAsked(allocations: seq<Allocation>, key: ItemKey)
    ensures Allocated(allocations, key) == Sum(QuantityOf(key), Map(Asked, allocations))
  {
    if allocations != [] {
      SumAsked(allocations[1..], key);
      assert Map(Asked, allocations)[1..] == Map(Asked, allocations[1..]);
    }
  }

  lemma {:induction false} SumAbsent(cart: seq<CartItem>, key: ItemKey)
    requires forall i :: 0 <= i < |cart| ==> cart[i].key != key
    ensures Sum(QuantityOf(key), cart) == 0
  {
    if cart != [] {
      SumAbsent(cart[1..], key);
    }
  }

  lemma {:induction false} SumPresent(cart: seq<CartItem>, i: nat)
    requires i < |cart| && forall j, k :: 0 <= j < k < |cart| ==> cart[j].key != cart[k].key
    ensures Sum(QuantityOf(cart[i].key), cart) == cart[i].quantity
  {
    if i == 0 {
      SumAbsent(cart[1..], cart[0].key);
    } else {
      SumPresent(cart[1..], i - 1);
    }
  }

  lemma {:induction false} AskingForTheCart(allocations: seq<Allocation>, cart: seq<CartItem>)
    requires Permuted(Map(Asked, allocations), cart) && Distinct(Map(ItemKeyOf, cart))
    ensures Exact(Requested(cart), allocations) && AllKnown(Requested(cart), allocations)
    ensures Distinct(allocations)
  {
    hide Map, Requested, Sum, Allocated;
    RequestedHolds(cart);
    var asked := Map(Asked, allocations);
    PermutedBasics(asked, cart);
    forall key | key in Requested(cart) ensures Allocated(allocations, key) == Requested(cart)[key] {
      SumAsked(allocations, key);
      SumPermuted(QuantityOf(key), asked, cart);
      var i :| 0 <= i < |cart| && cart[i] == CartItem(key, Requested(cart)[key]);
      DistinctKeys(cart);
      SumPresent(cart, i);
    }
    forall i | 0 <= i < |allocations| ensures allocations[i].key in Requested(cart) {
      assert asked[i] in cart;
    }
    MapPermuted(ItemKeyOf, asked, cart);
    DistinctPermuted(Map(ItemKeyOf, cart), Map(ItemKeyOf, asked));
    forall i, j | 0 <= i < j < |allocations| ensures allocations[i] != allocations[j] {
      assert Map(ItemKeyOf, asked)[i] != Map(ItemKeyOf, asked)[j];
    }
  }

  lemma {:induction false} DistinctKeys(cart: seq<CartItem>)
    requires Distinct(Map(ItemKeyOf, cart))
    ensures forall j, k :: 0 <= j < k < |cart| ==> cart[j].key != cart[k].key
  {
    hide Map, Distinct;
    forall j, k | 0 <= j < k < |cart| ensures cart[j].key != cart[k].key {
      DistinctAt(ItemKeyOf, cart, j, k);
    }
  }

  // ----- What a combination picks

  /** Each set's candidates carry the set's key and quantity, and no quantity semantics. */
  lemma {:induction false} SetsMatch(items: seq<CanonicalItem>, providers: Providers, s: AllocationSet, c: Candidate)
    requires s in SetsFor(items, providers) && c in s.candidates
    ensures c.allocation.key == s.key && c.allocation.quantity == s.quantity && c.semantics == None
  {
    hide Map;
    var sets := SetsFor(items, providers);
    var i :| 0 <= i < |sets| && sets[i] == s;
    var item := items[i];
    var j :| 0 <= j < |s.candidates| && s.candidates[j] == c;
    assert s.candidates[j] == Enrich(providers, item)(providers.listings(item)[j]);
  }

  lemma {:induction false} PickMatches(items: seq<CanonicalItem>, providers: Providers, index: seq<nat>, i: nat)
    requires Choice(FactorsFor(items, providers), index) && i < |index|
    ensures |index| == |Sort(SetsFor(items, providers), BySetKey)|
    ensures var s := Sort(SetsFor(items, providers), BySetKey)[i];
      var c := Pick(FactorsFor(items, providers), index)[i];
      && s in SetsFor(items, providers)
      && c in s.candidates && c.allocation.key == s.key && c.allocation.quantity == s.quantity && c.semantics == None
  {
    hide Map, Sort, SetsFor;
    var sets := SetsFor(items, providers);
    var sorted := Sort(sets, BySetKey);
    SortPermutes(sets, BySetKey);
    PermutedBasics(sorted, sets);
    var ordered := Sort(sorted[i].candidates, ByJson(providers.json));
    SortPermutes(sorted[i].candidates, ByJson(providers.json));
    PermutedBasics(ordered, sorted[i].candidates);
    assert FactorsFor(items, providers)[i] == ordered;
    var c := ordered[index[i]];
    assert c in sorted[i].candidates;
    SetsMatch(items, providers, sorted[i], c);
  }

  lemma {:induction false} PlanAllocations(items: seq<CanonicalItem>, providers: Providers, k: nat, index: seq<nat>)
    requires Choice(FactorsFor(items, providers), index)
    ensures var plan := PlanOf(providers, k, Pick(FactorsFor(items, providers), index));
      Map(Asked, plan.items) == Map(AskedBySet, Sort(SetsFor(items, providers), BySetKey))
    ensures var plan := PlanOf(providers, k, Pick(FactorsFor(items, providers), index));
      && (forall i :: 0 <= i < |plan.candidates| ==> plan.candidates[i].semantics == None)
      && plan.items == Map(ToItemAllocation, plan.candidates) && |plan.items| == |index|
  {
    hide Map, Sort, SetsFor, FactorsFor, RetailersOf;
    var raw := Pick(FactorsFor(items, providers), index);
    var plan := PlanOf(providers, k, raw);
    forall i | 0 <= i < |index|
      ensures |index| == |Sort(SetsFor(items, providers), BySetKey)|
      ensures plan.candidates[i].semantics == None
      ensures Asked(plan.items[i]) == AskedBySet(Sort(SetsFor(items, providers), BySetKey)[i])
    {
      PickMatches(items, providers, index, i);
    }
    FactorCount(items, providers);
  }

  lemma {:induction false} FactorCount(items: seq<CanonicalItem>, providers: Providers)
    ensures |FactorsFor(items, providers)| == |Sort(SetsFor(items, providers), BySetKey)| == |items|
  {
    hide Map;
    SortPermutes(SetsFor(items, providers), BySetKey);
    PermutedBasics(Sort(SetsFor(items, providers), BySetKey), SetsFor(items, providers));
  }

  lemma {:induction false} SetsAskForTheCart(items: seq<CanonicalItem>, providers: Providers)
    ensures Permuted(Map(AskedBySet, Sort(SetsFor(items, providers), BySetKey)), CartOf(items))
  {
    hide Map, Sort;
    var sets := SetsFor(items, providers);
    SortPermutes(sets, BySetKey);
    MapPermuted(AskedBySet, Sort(sets, BySetKey), sets);
    assert Map(AskedBySet, sets) == CartOf(items);
  }

  lemma {:induction false} PlanGroups(candidates: seq<Candidate>, id: string, policy: Policy, evaluation: Evaluation)
    requires candidates != []
    ensures var plan := Assemble(id, candidates, policy, evaluation); GroupsDeclared(plan) && GroupsUsed(plan)
  {
    hide Map, RetailersOf;
    var plan := Assemble(id, candidates, policy, evaluation);
    var pairs := RetailersOf(candidates);
    forall i | 0 <= i < |candidates| ensures exists g :: g in plan.groups && g.id == candidates[i].allocation.group {
      assert PairOf(candidates[i]) in pairs;
      var j :| 0 <= j < |pairs| && pairs[j] == PairOf(candidates[i]);
      assert plan.groups[j] in plan.groups;
    }
    forall j | 0 <= j < |pairs| ensures exists a :: a in Allocations(plan) && a.group == plan.groups[j].id {
      var i :| 0 <= i < |candidates| && PairOf(candidates[i]) == pairs[j];
      assert Allocations(plan)[i] in Allocations(plan);
    }
  }

  // ----- The guarantees

  /**
   * Every plan automatic planning can build from a cart with distinct keys and
   * positive quantities passes fulfilment without an error: per key the allocated
   * quantities sum to the requested one, and the declared checkout groups are the
   * used ones. Its effective feasibility is the one the policy declared.
   */
  lemma {:induction false} EveryBuiltPlanFulfils(items: seq<CanonicalItem>, providers: Providers, k: nat, index: seq<nat>)
    requires items != [] && Distinct(Map(ItemKeyOf, CartOf(items)))
    requires forall i :: 0 <= i < |items| ==> items[i].quantity > 0
    requires Choice(FactorsFor(items, providers), index)
    ensures var plan := PlanOf(providers, k, Pick(FactorsFor(items, providers), index));
      && Consistent(plan)
      && Fulfillment(Requested(CartOf(items)), plan) == Ok(true)
      && Exact(Requested(CartOf(items)), plan.items) && Exact(Requested(CartOf(items)), Allocations(plan))
      && GroupsDeclared(plan) && GroupsUsed(plan)
      && EffectiveFeasibility(Requested(CartOf(items)), plan) == plan.feasibility
  {
    hide Map, Sort, SetsFor, FactorsFor, RetailersOf, Exact, AllKnown, Distinct, GroupsDeclared, GroupsUsed, Requested, Pick;
    var raw := Pick(FactorsFor(items, providers), index);
    var plan := PlanOf(providers, k, raw);
    PlanAllocations(items, providers, k, index);
    SetsAskForTheCart(items, providers);
    AskingForTheCart(plan.items, CartOf(items));
    FactorCount(items, providers);
    var id := PlanIdOf(providers, k, raw);
    PlanGroups(plan.candidates, plan.id, PolicyFor(providers, id), EvaluationOf(providers, k, raw));
    PositiveItems(items, plan.items, CartOf(items));
    NothingRequested(CartOf(items));
    assert Consistent(plan) by { ProjectionConsistent(plan); }
  }

  function PolicyFor(providers: Providers, id: string): Policy {
    if providers.policy(id).Some? then providers.policy(id).value else Policy(0, 0, INVALID, [])
  }

  lemma {:induction false} ProjectionConsistent(plan: Plan)
    requires plan.items == Map(ToItemAllocation, plan.candidates)
    requires forall i :: 0 <= i < |plan.candidates| ==> plan.candidates[i].semantics == None
    ensures Consistent(plan)
  {
    hide Map;
    forall i | 0 <= i < |plan.candidates| ensures plan.candidates[i].allocation in plan.items {
      assert plan.items[i] in plan.items;
    }
  }

  lemma {:induction false} PositiveItems(items: seq<CanonicalItem>, allocations: seq<Allocation>, cart: seq<CartItem>)
    requires cart == CartOf(items) && Permuted(Map(Asked, allocations), cart)
    requires forall i :: 0 <= i < |items| ==> items[i].quantity > 0
    ensures AllPositive(allocations)
  {
    hide Map;
    var asked := Map(Asked, allocations);
    PermutedBasics(asked, cart);
    forall i | 0 <= i < |allocations| ensures allocations[i].quantity > 0 {
      assert asked[i] in cart;
      var j :| 0 <= j < |cart| && cart[j] == asked[i];
    }
  }

  lemma {:induction false} PlansListed(items: seq<CanonicalItem>, providers: Providers, p: Plan)
    ensures p in Sort(PlansOf(providers, Combined(items, providers)), ById) <==>
      exists k :: 0 <= k < |Combined(items, providers)| && p == PlanOf(providers, k, Combined(items, providers)[k])
  {
    hide Combined, PlanOf, Sort;
    var plans := PlansOf(providers, Combined(items, providers));
    var sorted := Sort(plans, ById);
    SortPermutes(plans, ById);
    PermutedBasics(sorted, plans);
    if k :| 0 <= k < |Combined(items, providers)| && p == PlanOf(providers, k, Combined(items, providers)[k]) {
      assert plans[k] in plans;
    }
  }

  /**
   * When automatic planning is READY, the recommended plan is the best of all:
   * for every way of picking one candidate per cart item, not only those some
   * search visited, the plan built from the picks is among the candidate plans,
   * and if it is effectively feasible the recommendation is at least as good. The
   * recommendation is itself one of these plans, declared feasible by policy.
   */
  lemma {:induction false} ReadyIsBestOverEveryChoice(
    cartId: string, policyVersion: string, supported: seq<string>, items: seq<CanonicalItem>, providers: Providers,
    request: Request, index: seq<nat>)
    requires AutomaticRequest(cartId, policyVersion, items, providers, request)
    requires Acceptable(request, supported) && OutcomeOf(request).Selected?
    requires Choice(FactorsFor(items, providers), index)
    ensures Chosen(request).Some?
    ensures var factors := FactorsFor(items, providers);
      var plan := PlanOf(providers, Position(factors, index), Pick(factors, index));
      && plan in request.plans
      && (EffectiveFeasibility(Requested(request.cart), plan) == FEASIBLE ==>
            AtLeastAsGood(Indexed(request.evaluations), Chosen(request).value, plan))
  {
    hide Acceptable, EffectiveFeasibility, Requested, Indexed, PlanOf, Sort, AtLeastAsGood, Bucket, FactorsFor, Product, Choice, Pick, Position;
    var factors := FactorsFor(items, providers);
    CombinedIsProduct(items, providers);
    ProductAt(factors, index);
    var k := Position(factors, index);
    var plan := PlanOf(providers, k, Pick(factors, index));
    assert plan == PlanOf(providers, k, Combined(items, providers)[k]);
    PlansListed(items, providers, plan);
    SelectedIff(request);
    ChosenIsBest(request, plan);
  }

  lemma {:induction false} CombinedIsProduct(items: seq<CanonicalItem>, providers: Providers)
    ensures Combined(items, providers) == Product(FactorsFor(items, providers))
  {
  }

  /** The recommendation comes from one positional choice of candidates, and from feasible policy. */
  lemma {:induction false} RecommendationIsAChoice(
    cartId: string, policyVersion: string, supported: seq<string>, items: seq<CanonicalItem>, providers: Providers,
    request: Request) returns (index: seq<nat>)
    requires AutomaticRequest(cartId, policyVersion, items, providers, request)
    requires Acceptable(request, supported) && OutcomeOf(request).Selected?
    ensures Chosen(request).Some?
    ensures var factors := FactorsFor(items, providers);
      && Choice(factors, index)
      && Chosen(request).value == PlanOf(providers, Position(factors, index), Pick(factors, index))
      && Chosen(request).value.feasibility == FEASIBLE
  {
    hide Acceptable, EffectiveFeasibility, Requested, Indexed, PlanOf, Sort, AtLeastAsGood, Bucket, FactorsFor, Product, Choice, Pick, Position, ChoiceAt;
    SelectedIff(request);
    var best := Chosen(request).value;
    ChosenIsBest(request, best);
    FeasibleIff(Requested(request.cart), best);
    PlansListed(items, providers, best);
    var k :| 0 <= k < |Combined(items, providers)| && best == PlanOf(providers, k, Combined(items, providers)[k]);
    CombinedIsProduct(items, providers);
    EachChoiceOnce(FactorsFor(items, providers), k, []);
    index := ChoiceAt(FactorsFor(items, providers), k);
    PositionOfChoice(FactorsFor(items, providers), k);
  }

  /**
   * The plan in a READY answer of `PlanCart`: it is built from one positional choice,
   * declared feasible, and at least as good as the effectively feasible plan of any other.
   */
  lemma {:induction false} AnswerIsBestOverEveryChoice(
    cartId: string, policyVersion: string, supported: seq<string>, items: seq<CanonicalItem>, providers: Providers,
    result: OptimizationResult) returns (request: Request, best: seq<nat>)
    requires Answers(cartId, policyVersion, supported, items, providers, result) && result.outcome.Selected?
    ensures AutomaticRequest(cartId, policyVersion, items, providers, request)
    ensures var factors := FactorsFor(items, providers);
      && result.chosen.Some? && Choice(factors, best)
      && result.chosen.value == PlanOf(providers, Position(factors, best), Pick(factors, best))
      && result.chosen.value.feasibility == FEASIBLE
    ensures var factors := FactorsFor(items, providers);
      forall index :: Choice(factors, index) ==>
        var plan := PlanOf(providers, Position(factors, index), Pick(factors, index));
        EffectiveFeasibility(Requested(CartOf(items)), plan) == FEASIBLE ==>
          AtLeastAsGood(Indexed(request.evaluations), result.chosen.value, plan)
  {
    hide AutomaticRequest, Acceptable, EffectiveFeasibility, Requested, Indexed, PlanOf, AtLeastAsGood, OutcomeOf, Chosen,
      FactorsFor, Choice, Pick, Position;
    request :| AutomaticRequest(cartId, policyVersion, items, providers, request) && Acceptable(request, supported)
      && result == ResultOf(request, providers.json);
    assert request.cart == CartOf(items) by { CartOfRequest(cartId, policyVersion, items, providers, request); }
    best := RecommendationIsAChoice(cartId, policyVersion, supported, items, providers, request);
    forall index | Choice(FactorsFor(items, providers), index)
      ensures var factors := FactorsFor(items, providers);
        var plan := PlanOf(providers, Position(factors, index), Pick(factors, index));
        EffectiveFeasibility(Requested(CartOf(items)), plan) == FEASIBLE ==>
          AtLeastAsGood(Indexed(request.evaluations), result.chosen.value, plan)
    {
      ReadyIsBestOverEveryChoice(cartId, policyVersion, supported, items, providers, request, index);
    }
  }

  lemma {:induction false} CartOfRequest(
    cartId: string, policy: string, items: seq<CanonicalItem>, providers: Providers, request: Request)
    requires AutomaticRequest(cartId, policy, items, providers, request)
    ensures request.cart == CartOf(items)
  {
  }

  /**
   * Picking any discovered, enriched candidate for every item, in item-id order, is
   * one of the positional choices, so the comparison above leaves no combination out.
   */
  lemma {:induction false} EveryPickIsAChoice(items: seq<CanonicalItem>, providers: Providers, picks: seq<Candidate>) returns (index: seq<nat>)
    requires |picks| == |Sort(SetsFor(items, providers), BySetKey)|
    requires forall i :: 0 <= i < |picks| ==> picks[i] in Sort(SetsFor(items, providers), BySetKey)[i].candidates
    ensures Choice(FactorsFor(items, providers), index) && Pick(FactorsFor(items, providers), index) == picks
  {
    hide Map, Sort, SetsFor;
    var factors := FactorsFor(items, providers);
    var sorted := Sort(SetsFor(items, providers), BySetKey);
    forall i | 0 <= i < |picks| ensures exists n: nat :: n < |factors[i]| && factors[i][n] == picks[i] {
      var ordered := Sort(sorted[i].candidates, ByJson(providers.json));
      SortPermutes(sorted[i].candidates, ByJson(providers.json));
      PermutedBasics(ordered, sorted[i].candidates);
      assert factors[i] == ordered;
      assert picks[i] in ordered;
    }
    index := seq(|picks|, i requires 0 <= i < |picks| => IndexIn(factors[i], picks[i]));
    forall i | 0 <= i < |picks| ensures index[i] < |factors[i]| && factors[i][index[i]] == picks[i] {
      IndexInHolds(factors[i], picks[i]);
    }
    assert Choice(factors, index);
    assert Pick(factors, index) == picks;
  }

  function IndexIn(xs: seq<Candidate>, x: Candidate): nat {
    if xs == [] || xs[0] == x then 0 else 1 + IndexIn(xs[1..], x)
  }

  lemma {:induction false} IndexInHolds(xs: seq<Candidate>, x: Candidate)
    requires exists n: nat :: n < |xs| && xs[n] == x
    ensures IndexIn(xs, x) < |xs| && xs[IndexIn(xs, x)] == x
  {
    if xs[0] != x {
      var n: nat :| n < |xs| && xs[n] == x;
      assert xs[1..][n - 1] == x;
      IndexInHolds(xs[1..], x);
    }
  }

  // ----- READY is attainable

  lemma {:induction false} One<T, U>(f: T -> U, p: T -> bool, key: T -> Key, x: T)
    ensures Map(f, [x]) == [f(x)]
    ensures Filter(p, [x]) == if p(x) then [x] else []
    ensures Sort([x], key) == [x]
  {
    assert [x][1..] == [];
    assert Sort([x][1..], key) == [];
  }

  lemma {:induction false} OneCombination(c: Candidate)
    ensures Product([[c]]) == [[c]]
  {
    assert [[c]][1..] == [] && [c][1..] == [];
    assert Product<Candidate>([]) == [[]];
    assert Prepend(c)([]) == [c];
    assert Map(Prepend(c), [[]]) == [[c]];
    assert Rows([c][1..], [[]]) == [];
    assert Rows([c], [[]]) == Map(Prepend(c), [[]]) + Rows([c][1..], [[]]);
    assert Product([[c]]) == Rows([[c]][0], Product([[c]][1..]));
  }

  const EXAMPLE_ITEM := CanonicalItem(ItemKey("item", "variant"), "product", 1)

  const EXAMPLE_LISTING := Listing("platform", "listing", "observation", Money("INR", 100))

  function ExampleProviders(): Providers {
    Providers(
      true,
      (item: CanonicalItem) => [Listed(EXAMPLE_LISTING, "product", "variant", true)],
      (itemId: string, listing: Listing) => Some("retailer"),
      (itemId: string, retailer: string) => Some("group"),
      (k: nat, allocations: seq<Candidate>) => "plan",
      (id: string) => Some(Policy(0, 0, FEASIBLE, ["configured"])),
      (id: string) => Evaluated(Evaluation("evaluation", Some(Money("INR", 100)), [])),
      (c: Candidate) => "candidate")
  }

  function ExampleCandidate(): Candidate {
    Candidate(Allocation(EXAMPLE_ITEM.key, 1, "retailer", PENDING), EXAMPLE_LISTING, None)
  }

  lemma {:induction false} ExampleFactors()
    ensures FactorsFor([EXAMPLE_ITEM], ExampleProviders()) == [[ExampleCandidate()]]
  {
    var providers := ExampleProviders();
    var s := SetOf(providers)(EXAMPLE_ITEM);
    var listed := Listed(EXAMPLE_LISTING, "product", "variant", true);
    One(Enrich(providers, EXAMPLE_ITEM), (x: Listed) => true, (x: Listed) => [], listed);
    assert s == AllocationSet(EXAMPLE_ITEM.key, 1, [ExampleCandidate()]);
    One(SetOf(providers), (x: CanonicalItem) => true, (x: CanonicalItem) => [], EXAMPLE_ITEM);
    One(OrderedCandidates(providers.json), (x: AllocationSet) => true, BySetKey, s);
    One((c: Candidate) => c, (c: Candidate) => true, ByJson(providers.json), ExampleCandidate());
  }

  lemma {:induction false} ExampleRequest() returns (request: Request)
    ensures AutomaticRequest("cart", "policy-v1", [EXAMPLE_ITEM], ExampleProviders(), request)
    ensures request.plans == [PlanOf(ExampleProviders(), 0, [ExampleCandidate()])]
    ensures request.cart == [CartItem(EXAMPLE_ITEM.key, 1)]
    ensures request.evaluations == [Evaluation("evaluation", Some(Money("INR", 100)), [])]
    ensures request.coverageComplete && request.requestId == "cart" && request.policy == "policy-v1"
  {
    hide Product, Factors, PlanOf, EvaluationOf, Map, Sort;
    var providers := ExampleProviders();
    ExampleFactors();
    CombinedIsProduct([EXAMPLE_ITEM], providers);
    OneCombination(ExampleCandidate());
    var combinations := Combined([EXAMPLE_ITEM], providers);
    assert combinations == [[ExampleCandidate()]];
    var plan := PlanOf(providers, 0, [ExampleCandidate()]);
    var e := Evaluation("evaluation", Some(Money("INR", 100)), []);
    assert EvaluationOf(providers, 0, [ExampleCandidate()]) == e by { ExampleEvaluation(); }
    assert PlansOf(providers, combinations) == [plan];
    assert EvaluationsOf(providers, combinations) == [e];
    One(PlanId, (p: Plan) => true, ById, plan);
    One(EvaluationId, (x: Evaluation) => true, ByEvaluationId, e);
    One(AsCartItem, (x: CanonicalItem) => true, (x: CanonicalItem) => [], EXAMPLE_ITEM);
    request := Request("cart", "policy-v1", [CartItem(EXAMPLE_ITEM.key, 1)], [plan], true, [], [e]);
  }

  lemma {:induction false} ExampleEvaluation()
    ensures EvaluationOf(ExampleProviders(), 0, [ExampleCandidate()]) == Evaluation("evaluation", Some(Money("INR", 100)), [])
  {
  }

  lemma {:induction false} ExamplePlan()
    ensures var plan := PlanOf(ExampleProviders(), 0, [ExampleCandidate()]);
      && plan.id == "plan" && plan.feasibility == FEASIBLE && plan.evaluationId == "evaluation"
      && Fulfillment(Requested([CartItem(EXAMPLE_ITEM.key, 1)]), plan) == Ok(true)
      && EffectiveFeasibility(Requested([CartItem(EXAMPLE_ITEM.key, 1)]), plan) == FEASIBLE
  {
    hide Fulfillment, EffectiveFeasibility, RetailersOf, Map;
    var items, providers := [EXAMPLE_ITEM], ExampleProviders();
    ExampleFactors();
    One(AsCartItem, (x: CanonicalItem) => true, (x: CanonicalItem) => [], EXAMPLE_ITEM);
    One(ItemKeyOf, (x: CartItem) => true, (x: CartItem) => [], CartItem(EXAMPLE_ITEM.key, 1));
    var factors := FactorsFor(items, providers);
    assert Choice(factors, [0]) && Pick(factors, [0]) == [ExampleCandidate()];
    EveryBuiltPlanFulfils(items, providers, 0, [0]);
  }

  /** For one item with one listing, the request is acceptable and a plan is selected: the guarantees above are not vacuous. */
  lemma {:induction false} ReadyHappens() returns (request: Request)
    ensures AutomaticRequest("cart", "policy-v1", [EXAMPLE_ITEM], ExampleProviders(), request)
    ensures Acceptable(request, ["policy-v1"]) && OutcomeOf(request).Selected?
  {
    hide AutomaticRequest, Fulfillment, EffectiveFeasibility, PlanOf, Requested, Map, Dict, OutcomeOf;
    request := ExampleRequest();
    ExamplePlan();
    var plan := request.plans[0];
    var e := request.evaluations[0];
    One(PlanId, (p: Plan) => true, ById, plan);
    One(EvaluationId, (x: Evaluation) => true, ByEvaluationId, e);
    One(ItemKeyOf, (x: CartItem) => true, (x: CartItem) => [], request.cart[0]);
    assert !IsBlank("cart"[0]) && !IsBlank("plan"[0]);
    DictHolds(EvaluationId, request.evaluations);
    assert EvaluationId(e) == "evaluation";
    assert PlanAccepted(Requested(request.cart), Indexed(request.evaluations), plan);
    assert plan in request.plans;
    SelectedIff(request);
  }
}
