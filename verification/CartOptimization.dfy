/**
 * `CartOptimizationService.optimize`: validation, the feasibility partition, the
 * lexicographic ranking and the optimization identity.
 */
module CartOptimization {
  import opened Outcomes
  import opened Ordering
  import opened CartPlans
  import opened CartFulfillment
  import opened Texts

  /** Constraints enter only through their canonical serialization. */
  datatype Request = Request(
    requestId: string,
    policy: string,
    cart: seq<CartItem>,
    plans: seq<Plan>,
    coverageComplete: bool,
    constraints: seq<string>,
    evaluations: seq<Evaluation>)

  datatype OptimizationError =
    | RequestIdRequired | UnsupportedPolicy | DuplicateCartItems
    | PlanIdRequired | DuplicatePlanIds | InvalidPlan
    | DuplicateEvaluations | CurrencyMismatch
    | MissingEvaluation | UnknownFeasibleCost
    | Unfulfillable(error: PlanError)

  datatype Outcome = Selected | NoFeasiblePlan | Undecided

  /** The canonical identity payload of one plan. */
  datatype PlanIdentity = PlanIdentity(
    id: string, inconvenience: int, priority: int,
    retailers: seq<RetailerAllocation>, items: seq<Allocation>, candidates: seq<string>,
    groups: seq<CheckoutGroup>, evaluationId: string, constraintIds: seq<string>)

  datatype CartIdentity = CartIdentity(
    items: seq<CartItem>, policy: string, constraints: seq<string>, plans: seq<PlanIdentity>)

  datatype OptimizationResult = OptimizationResult(
    optimizationId: Digest<CartIdentity>,
    requestId: string,
    outcome: Outcome,
    chosen: Option<Plan>,
    rankedIds: seq<string>,
    alternatives: seq<Plan>,
    rejectedIds: seq<string>)

  // ----- Validation

  function PlanId(p: Plan): string { p.id }

  ghost predicate KnownCost(e: Evaluation) { e.cost.Some? && e.unknowns == [] }

  /** Nothing about this plan stops the optimization. */
  ghost predicate PlanAccepted(requested: map<ItemKey, int>, evaluations: map<string, Evaluation>, p: Plan) {
    && Fulfillment(requested, p).Ok?
    && p.evaluationId in evaluations
    && (EffectiveFeasibility(requested, p) == FEASIBLE ==> KnownCost(evaluations[p.evaluationId]))
  }

  /** The first thing about this plan that stops the optimization. */
  ghost function PlanProblem(requested: map<ItemKey, int>, evaluations: map<string, Evaluation>, p: Plan): Option<OptimizationError> {
    if Fulfillment(requested, p).Err? then Some(Unfulfillable(Fulfillment(requested, p).error))
    else if p.evaluationId !in evaluations then Some(MissingEvaluation)
    else if EffectiveFeasibility(requested, p) == FEASIBLE && !KnownCost(evaluations[p.evaluationId]) then Some(UnknownFeasibleCost)
    else None
  }

  ghost predicate Priced(evaluations: map<string, Evaluation>, p: Plan) {
    p.evaluationId in evaluations && evaluations[p.evaluationId].cost.Some?
  }

  ghost predicate OneCurrency(evaluations: map<string, Evaluation>, plans: seq<Plan>) {
    forall p, q | p in plans && q in plans :: Priced(evaluations, p) && Priced(evaluations, q) ==>
      evaluations[p.evaluationId].cost.value.currency == evaluations[q.evaluationId].cost.value.currency
  }

  ghost predicate ValidPlans(plans: seq<Plan>) {
    && (forall p :: p in plans ==> !Blank(p.id) && p.feasibility != INVALID)
    && Distinct(Map(PlanId, plans))
  }

  /** The requests `optimize` answers; it raises an error for every other. */
  ghost predicate Acceptable(request: Request, supported: seq<string>) {
    && !Blank(request.requestId)
    && request.policy in supported
    && Distinct(Map(ItemKeyOf, request.cart))
    && ValidPlans(request.plans)
    && Distinct(Map(EvaluationId, request.evaluations))
    && OneCurrency(Indexed(request.evaluations), request.plans)
    && (forall p :: p in request.plans ==> PlanAccepted(Requested(request.cart), Indexed(request.evaluations), p))
  }

  /** The first check of the request itself that fails. */
  ghost function RequestProblem(request: Request, supported: seq<string>): Option<OptimizationError> {
    if Blank(request.requestId) then Some(RequestIdRequired)
    else if request.policy !in supported then Some(UnsupportedPolicy)
    else if !Distinct(Map(ItemKeyOf, request.cart)) then Some(DuplicateCartItems)
    else if exists p :: p in request.plans && Blank(p.id) then Some(PlanIdRequired)
    else if !Distinct(Map(PlanId, request.plans)) then Some(DuplicatePlanIds)
    else if exists p :: p in request.plans && p.feasibility == INVALID then Some(InvalidPlan)
    else None
  }

  /** `error` is the one the first failing check raises. */
  ghost predicate Refuses(request: Request, supported: seq<string>, error: OptimizationError) {
    var requested, evaluations := Requested(request.cart), Indexed(request.evaluations);
    if RequestProblem(request, supported).Some? then RequestProblem(request, supported) == Some(error)
    else if !Distinct(Map(EvaluationId, request.evaluations)) then error == DuplicateEvaluations
    else if !OneCurrency(evaluations, request.plans) then error == CurrencyMismatch
    else FirstProblem(requested, evaluations, request.plans, error)
  }

  ghost predicate FirstProblem(
    requested: map<ItemKey, int>, evaluations: map<string, Evaluation>, plans: seq<Plan>, error: OptimizationError)
  {
    exists i :: 0 <= i < |plans| && PlanProblem(requested, evaluations, plans[i]) == Some(error)
      && forall j :: 0 <= j < i ==> PlanAccepted(requested, evaluations, plans[j])
  }

  // ----- Partition, ranking, outcome

  ghost function Having(requested: map<ItemKey, int>, f: Feasibility): Plan -> bool {
    (p: Plan) => EffectiveFeasibility(requested, p) == f
  }

  ghost function Bucket(request: Request, f: Feasibility): seq<Plan> {
    Filter(Having(Requested(request.cart), f), request.plans)
  }

  function Cost(evaluations: map<string, Evaluation>, p: Plan): int {
    if p.evaluationId in evaluations && evaluations[p.evaluationId].cost.Some?
    then evaluations[p.evaluationId].cost.value.minorUnits else 0
  }

  /** Cost, checkout groups, inconvenience, negated priority, plan id. */
  function RankingKey(cost: int, p: Plan): Key {
    [Number(cost), Number(|p.groups|), Number(p.inconvenience), Number(-p.priority), Text(p.id)]
  }

  function RankBy(evaluations: map<string, Evaluation>): Plan -> Key {
    (p: Plan) => RankingKey(Cost(evaluations, p), p)
  }

  function ById(p: Plan): Key { [Text(p.id)] }

  ghost function Ranked(request: Request): seq<Plan> {
    Sort(Bucket(request, FEASIBLE), RankBy(Indexed(request.evaluations)))
  }

  function Classify(coverageComplete: bool, ranked: nat, unresolved: nat, infeasible: nat, plans: nat): Outcome {
    if !coverageComplete then Undecided
    else if unresolved > 0 then Undecided
    else if ranked > 0 then Selected
    else if infeasible > 0 || plans == 0 then NoFeasiblePlan
    else Undecided
  }

  ghost function OutcomeOf(request: Request): Outcome {
    Classify(request.coverageComplete, |Ranked(request)|, |Bucket(request, UNRESOLVED)|,
             |Bucket(request, INFEASIBLE)|, |request.plans|)
  }

  ghost function Chosen(request: Request): Option<Plan> {
    if OutcomeOf(request).Selected? && Ranked(request) != [] then Some(Ranked(request)[0]) else None
  }

  function Besides(chosen: Option<Plan>): Plan -> bool {
    (p: Plan) => chosen.None? || p.id != chosen.value.id
  }

  ghost function ResultOf(request: Request, json: Candidate -> string): OptimizationResult {
    OptimizationResult(
      OptimizationId(request, json), request.requestId, OutcomeOf(request), Chosen(request),
      Map(PlanId, Ranked(request)),
      Filter(Besides(Chosen(request)), Ranked(request)),
      Map(PlanId, Sort(Bucket(request, INFEASIBLE), ById)))
  }

  // ----- Identity

  function ByRetailer(r: RetailerAllocation): Key { [Text(r.retailer), Text(r.group)] }

  function ByAllocation(a: Allocation): Key {
    [Text(a.key.variant), Text(a.retailer), Text(a.group), Text(a.key.itemId), Text(Decimal(a.quantity))]
  }

  function ByGroup(g: CheckoutGroup): Key { [Text(g.retailer), Text(g.id), Text(g.evaluationId)] }

  function ByText(s: string): Key { [Text(s)] }

  function ByItem(item: CartItem): Key { [Text(item.key.itemId), Text(item.key.variant), Number(item.quantity)] }

  function ByIdentity(p: PlanIdentity): Key { [Text(p.id)] }

  /** `CandidatePlanIdentityBuilder.build`; `json` serializes one candidate allocation. */
  function BuildIdentity(json: Candidate -> string): Plan -> PlanIdentity {
    (p: Plan) => PlanIdentity(
      p.id, p.inconvenience, p.priority,
      Sort(p.retailers, ByRetailer), Sort(p.items, ByAllocation), Sort(Map(json, p.candidates), ByText),
      Sort(p.groups, ByGroup), p.evaluationId, Sort(p.constraintIds, ByText))
  }

  /** `_build_optimization_id`. */
  function OptimizationId(request: Request, json: Candidate -> string): Digest<CartIdentity> {
    Sha256(CartIdentity(
      Sort(request.cart, ByItem), request.policy, Sort(request.constraints, ByText),
      Sort(Map(BuildIdentity(json), request.plans), ByIdentity)))
  }

  // ----- The service

  /** `_validate_request_identity` and `_validate_candidate_plans`. */
  method ValidateRequest(request: Request, supported: seq<string>) returns (r: Result<(), OptimizationError>)
    ensures r == match RequestProblem(request, supported)
                 case None => Ok(())
                 case Some(e) => Err(e)
  {
    hide Map, Blank;
    if Blank(request.requestId) {
      return Err(RequestIdRequired);
    }
    if request.policy !in supported {
      return Err(UnsupportedPolicy);
    }
    var keys := Map(ItemKeyOf, request.cart);
    DistinctCardinality(keys);
    if |keys| != |set k | k in keys| {
      return Err(DuplicateCartItems);
    }
    if exists p :: p in request.plans && Blank(p.id) {
      return Err(PlanIdRequired);
    }
    var ids := Map(PlanId, request.plans);
    DistinctCardinality(ids);
    if |ids| != |set id | id in ids| {
      return Err(DuplicatePlanIds);
    }
    if exists p :: p in request.plans && p.feasibility == INVALID {
      return Err(InvalidPlan);
    }
    return Ok(());
  }

  lemma {:induction false} DictSize<T, K>(key: T -> K, xs: seq<T>)
    ensures Dict(key, xs).Keys == set k | k in Map(key, xs)
    ensures |Dict(key, xs)| == |xs| <==> Distinct(Map(key, xs))
  {
    DictKeys(key, xs);
    DistinctCardinality(Map(key, xs));
    assert |Dict(key, xs)| == |Dict(key, xs).Keys|;
  }

  lemma {:induction false} SetSnoc<K>(front: seq<K>, last: K)
    ensures (set k | k in front + [last]) == (set k | k in front) + {last}
  {
  }

  lemma {:induction false} DictKeysSnoc<T, K>(key: T -> K, xs: seq<T>)
    requires xs != []
    ensures Dict(key, xs).Keys == Dict(key, xs[..|xs| - 1]).Keys + {key(xs[|xs| - 1])}
  {
  }

  lemma {:induction false} DictKeys<T, K>(key: T -> K, xs: seq<T>)
    ensures Dict(key, xs).Keys == set k | k in Map(key, xs)
  {
    if xs != [] {
      hide Map, Dict;
      var n := |xs| - 1;
      DictKeys(key, xs[..n]);
      DictKeysSnoc(key, xs);
      assert Map(key, xs) == Map(key, xs[..n]) + [key(xs[n])];
      SetSnoc(Map(key, xs[..n]), key(xs[n]));
    }
  }

  /** `_validate_effective_cost_currencies`. */
  method ValidateCurrencies(plans: seq<Plan>, evaluations: map<string, Evaluation>) returns (ok: bool)
    ensures ok <==> OneCurrency(evaluations, plans)
  {
    var currencies: set<string> := {};
    for i := 0 to |plans|
      invariant forall c :: c in currencies <==>
        exists k :: 0 <= k < i && Priced(evaluations, plans[k]) && evaluations[plans[k].evaluationId].cost.value.currency == c
    {
      var p := plans[i];
      if p.evaluationId in evaluations && evaluations[p.evaluationId].cost.Some? {
        currencies := currencies + {evaluations[p.evaluationId].cost.value.currency};
      }
    }
    ok := |currencies| <= 1;
    SmallSet(currencies);
    forall p | p in plans && Priced(evaluations, p)
      ensures evaluations[p.evaluationId].cost.value.currency in currencies
    {
    }
  }

  lemma {:induction false} SmallSet<T>(s: set<T>)
    ensures |s| <= 1 <==> forall x, y :: x in s && y in s ==> x == y
  {
    if x :| x in s {
      if y :| y in s && y != x {
        assert {x, y} <= s;
        assert s == {x, y} + (s - {x, y});
      } else {
        assert s == {x};
      }
    }
  }

  /** `_resolve_linked_evaluations`, filling in the dictionary from plan id to evaluation. */
  method ResolveLinked(cart: seq<CartItem>, plans: seq<Plan>, evaluations: map<string, Evaluation>)
    returns (r: Result<map<string, Evaluation>, OptimizationError>)
    requires Distinct(Map(PlanId, plans))
    ensures r.Ok? <==> forall i :: 0 <= i < |plans| ==> PlanAccepted(Requested(cart), evaluations, plans[i])
    ensures r.Ok? ==> forall i :: 0 <= i < |plans| ==>
      && plans[i].id in r.value && plans[i].evaluationId in evaluations
      && r.value[plans[i].id] == evaluations[plans[i].evaluationId]
    ensures r.Err? ==> FirstProblem(Requested(cart), evaluations, plans, r.error)
  {
    hide Fulfillment, EffectiveFeasibility, Requested, Map;
    var linked: map<string, Evaluation> := map[];
    for i := 0 to |plans|
      invariant forall k :: 0 <= k < i ==> PlanAccepted(Requested(cart), evaluations, plans[k])
      invariant forall k :: 0 <= k < i ==>
        plans[k].id in linked && linked[plans[k].id] == evaluations[plans[k].evaluationId]
    {
      var p := plans[i];
      var classified := ClassifyPlan(cart, p);
      if classified.Err? {
        assert PlanProblem(Requested(cart), evaluations, plans[i]) == Some(Unfulfillable(classified.error));
        return Err(Unfulfillable(classified.error));
      }
      if p.evaluationId !in evaluations {
        assert PlanProblem(Requested(cart), evaluations, plans[i]) == Some(MissingEvaluation);
        return Err(MissingEvaluation);
      }
      var evaluation := evaluations[p.evaluationId];
      if classified.value == FEASIBLE && (evaluation.cost.None? || evaluation.unknowns != []) {
        assert PlanProblem(Requested(cart), evaluations, plans[i]) == Some(UnknownFeasibleCost);
        return Err(UnknownFeasibleCost);
      }
      forall k | 0 <= k < i ensures plans[k].id != p.id {
        assert Map(PlanId, plans)[k] != Map(PlanId, plans)[i];
      }
      linked := linked[p.id := evaluation];
    }
    return Ok(linked);
  }

  /** `_extract_effective_costs`, over the plans whose evaluations are linked. */
  method ExtractCosts(plans: seq<Plan>, linked: map<string, Evaluation>) returns (costs: map<string, int>)
    requires forall i :: 0 <= i < |plans| ==> plans[i].id in linked
    ensures forall i :: 0 <= i < |plans| && linked[plans[i].id].cost.Some? ==>
      plans[i].id in costs && costs[plans[i].id] == linked[plans[i].id].cost.value.minorUnits
  {
    costs := map[];
    for i := 0 to |plans|
      invariant forall k :: 0 <= k < i && linked[plans[k].id].cost.Some? ==>
        plans[k].id in costs && costs[plans[k].id] == linked[plans[k].id].cost.value.minorUnits
    {
      var evaluation := linked[plans[i].id];
      if evaluation.cost.Some? {
        costs := costs[plans[i].id := evaluation.cost.value.minorUnits];
      }
    }
  }

  function RankWith(costs: map<string, int>): Plan -> Key {
    (p: Plan) => RankingKey(if p.id in costs then costs[p.id] else 0, p)
  }

  /** `_rank_feasible_plans`: the cost of every plan it ranks is there to be looked up. */
  method RankFeasible(plans: seq<Plan>, costs: map<string, int>) returns (ranked: seq<Plan>)
    requires forall p :: p in plans ==> p.id in costs
    ensures ranked == Sort(plans, RankWith(costs))
  {
    ranked := Sort(plans, RankWith(costs));
  }

  lemma {:induction false} SortAgrees<T>(xs: seq<T>, f: T -> Key, g: T -> Key)
    requires forall i :: 0 <= i < |xs| ==> f(xs[i]) == g(xs[i])
    ensures Sort(xs, f) == Sort(xs, g)
  {
    if xs != [] {
      SortAgrees(xs[1..], f, g);
      SortPermutes(xs[1..], f);
      var sorted := Sort(xs[1..], f);
      PermutedBasics(sorted, xs[1..]);
      forall i | 0 <= i < |sorted| ensures f(sorted[i]) == g(sorted[i]) {
        assert sorted[i] in xs[1..];
      }
      InsertAgrees(xs[0], sorted, f, g);
    }
  }

  lemma {:induction false} InsertAgrees<T>(x: T, xs: seq<T>, f: T -> Key, g: T -> Key)
    requires f(x) == g(x) && forall i :: 0 <= i < |xs| ==> f(xs[i]) == g(xs[i])
    ensures Insert(x, xs, f) == Insert(x, xs, g)
  {
    if xs != [] {
      InsertAgrees(x, xs[1..], f, g);
    }
  }

  /** The three tuple comprehensions over `_effective_feasibility`. */
  method PartitionPlans(cart: seq<CartItem>, plans: seq<Plan>, f: Feasibility) returns (bucket: seq<Plan>)
    requires forall i :: 0 <= i < |plans| ==> Fulfillment(Requested(cart), plans[i]).Ok?
    ensures bucket == Filter(Having(Requested(cart), f), plans)
  {
    hide Fulfillment, EffectiveFeasibility, Requested, Filter;
    bucket := [];
    for i := 0 to |plans|
      invariant bucket == Filter(Having(Requested(cart), f), plans[..i])
    {
      var classified := ClassifyPlan(cart, plans[i]);
      FilterSnoc(Having(Requested(cart), f), plans, i);
      if classified.value == f {
        bucket := bucket + [plans[i]];
      }
    }
    assert plans[..|plans|] == plans;
  }

  /** Every plan ranked has a known cost, the one its linked evaluation carries. */
  lemma {:induction false} FeasibleCostsKnown(request: Request, supported: seq<string>, linked: map<string, Evaluation>, costs: map<string, int>)
    requires Acceptable(request, supported)
    requires forall p :: p in request.plans ==> p.id in linked && linked[p.id] == Indexed(request.evaluations)[p.evaluationId]
    requires forall p :: p in request.plans && linked[p.id].cost.Some? ==>
      p.id in costs && costs[p.id] == linked[p.id].cost.value.minorUnits
    ensures var feasible := Bucket(request, FEASIBLE);
      && (forall p :: p in feasible ==> p.id in costs)
      && Sort(feasible, RankWith(costs)) == Sort(feasible, RankBy(Indexed(request.evaluations)))
  {
    hide Fulfillment, EffectiveFeasibility, Requested, Indexed, Sort;
    var feasible := Bucket(request, FEASIBLE);
    var evaluations := Indexed(request.evaluations);
    forall i | 0 <= i < |feasible|
      ensures feasible[i].id in costs && RankWith(costs)(feasible[i]) == RankBy(evaluations)(feasible[i])
    {
      assert feasible[i] in request.plans;
      assert PlanAccepted(Requested(request.cart), evaluations, feasible[i]);
    }
    forall p | p in feasible ensures p.id in costs {
      var i :| 0 <= i < |feasible| && feasible[i] == p;
    }
    SortAgrees(feasible, RankWith(costs), RankBy(evaluations));
  }

  /** The body of `optimize` after the validations: partition, rank, classify, choose. */
  method Answer(request: Request, supported: seq<string>, json: Candidate -> string, linked: map<string, Evaluation>)
    returns (result: OptimizationResult)
    requires Acceptable(request, supported)
    requires forall p :: p in request.plans ==>
      p.id in linked && linked[p.id] == Indexed(request.evaluations)[p.evaluationId]
    ensures result == ResultOf(request, json)
  {
    hide Fulfillment, EffectiveFeasibility, OneCurrency, Distinct, ValidPlans, Requested, Indexed, Sort, Map, Filter, OptimizationId;
    assert forall p :: p in request.plans ==> PlanAccepted(Requested(request.cart), Indexed(request.evaluations), p);
    var costs := ExtractCosts(request.plans, linked);
    var feasible := PartitionPlans(request.cart, request.plans, FEASIBLE);
    var unresolved := PartitionPlans(request.cart, request.plans, UNRESOLVED);
    var infeasible := PartitionPlans(request.cart, request.plans, INFEASIBLE);
    FeasibleCostsKnown(request, supported, linked, costs);
    var ranked := RankFeasible(feasible, costs);
    var outcome := Classify(request.coverageComplete, |ranked|, |unresolved|, |infeasible|, |request.plans|);
    var chosen := if outcome.Selected? && request.coverageComplete && ranked != [] && unresolved == [] then Some(ranked[0]) else None;
    result := OptimizationResult(
      OptimizationId(request, json), request.requestId, outcome, chosen,
      Map(PlanId, ranked), Filter(Besides(chosen), ranked), Map(PlanId, Sort(infeasible, ById)));
  }

  /** `optimize`: it answers exactly the acceptable requests, with the result they define, and names the first failing check. */
  method Optimize(request: Request, supported: seq<string>, json: Candidate -> string)
    returns (r: Result<OptimizationResult, OptimizationError>)
    ensures r.Ok? <==> Acceptable(request, supported)
    ensures r.Ok? ==> r.value == ResultOf(request, json)
    ensures r.Err? ==> Refuses(request, supported, r.error)
  {
    hide Fulfillment, EffectiveFeasibility, OneCurrency, ValidPlans, Requested, Sort, Map, Filter, PlanAccepted, OptimizationId,
         RequestProblem, ResultOf, FirstProblem, Acceptable, Distinct;
    RequestProblemIff(request, supported);
    AllAccepted(request, supported);
    var _ :- ValidateRequest(request, supported);
    var evaluations := Indexed(request.evaluations);
    DictSize(EvaluationId, request.evaluations);
    if |evaluations| != |request.evaluations| {
      return Err(DuplicateEvaluations);
    }
    var sameCurrency := ValidateCurrencies(request.plans, evaluations);
    if !sameCurrency {
      return Err(CurrencyMismatch);
    }
    UniqueIds(request.plans);
    var linked :- ResolveLinked(request.cart, request.plans, evaluations);
    LinkedByMembership(request.plans, linked, evaluations);
    var result := Answer(request, supported, json, linked);
    return Ok(result);
  }

  lemma {:induction false} AllAccepted(request: Request, supported: seq<string>)
    ensures Acceptable(request, supported) <==>
      && !Blank(request.requestId) && request.policy in supported
      && Distinct(Map(ItemKeyOf, request.cart)) && ValidPlans(request.plans)
      && Distinct(Map(EvaluationId, request.evaluations))
      && OneCurrency(Indexed(request.evaluations), request.plans)
      && forall i :: 0 <= i < |request.plans| ==>
           PlanAccepted(Requested(request.cart), Indexed(request.evaluations), request.plans[i])
  {
    hide Fulfillment, EffectiveFeasibility, OneCurrency, ValidPlans, PlanAccepted, Distinct, Requested, Indexed;
  }

  lemma {:induction false} RequestProblemIff(request: Request, supported: seq<string>)
    ensures RequestProblem(request, supported).None? <==>
      && !Blank(request.requestId) && request.policy in supported
      && Distinct(Map(ItemKeyOf, request.cart)) && ValidPlans(request.plans)
  {
    hide Blank, Distinct, Map;
  }

  lemma {:induction false} LinkedByMembership(plans: seq<Plan>, linked: map<string, Evaluation>, evaluations: map<string, Evaluation>)
    requires forall i :: 0 <= i < |plans| ==>
      plans[i].id in linked && plans[i].evaluationId in evaluations && linked[plans[i].id] == evaluations[plans[i].evaluationId]
    ensures forall p :: p in plans ==>
      p.id in linked && p.evaluationId in evaluations && linked[p.id] == evaluations[p.evaluationId]
  {
  }

  lemma {:induction false} UniqueIds(plans: seq<Plan>)
    ensures ValidPlans(plans) ==> Distinct(Map(PlanId, plans))
  {
  }
}
