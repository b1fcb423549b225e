/**
 * `AutomaticCartPlanningService.plan`, from canonical demand to the optimizer's
 * answer. Discovery and the planning authorities are given as functions.
 */
module AutomaticPlanning {
  import opened Outcomes
  import opened Ordering
  import opened CartPlans
  import opened CartFulfillment
  import opened CartOptimization
  import opened CartEnumeration
  import opened Texts

  /** A canonical cart item: identity fields present and a positive quantity. */
  datatype CanonicalItem = CanonicalItem(key: ItemKey, product: string, quantity: int) {
    predicate Valid() {
      !Blank(key.itemId) && !Blank(product) && !Blank(key.variant) && quantity > 0
    }
  }

  /** A discovered listing with the canonical identity it is associated with. */
  datatype Listed = Listed(listing: Listing, product: string, variant: string, ready: bool)

  datatype Policy = Policy(inconvenience: int, priority: int, feasibility: Feasibility, evidence: seq<string>)

  /** Checkout capture, the observation it leaves and its effective-cost evaluation, which can refuse the observation. */
  datatype Evidence = AdapterUnavailable | ObservationUnavailable | Unevaluable | Evaluated(evaluation: Evaluation)

  /** `identifies` is false for the provider of plan ids that is a placeholder. */
  datatype Providers = Providers(
    identifies: bool,
    listings: CanonicalItem -> seq<Listed>,
    retailer: (string, Listing) -> Option<string>,
    group: (string, string) -> Option<string>,
    planId: (nat, seq<Candidate>) -> string,
    policy: string -> Option<Policy>,
    evidence: string -> Evidence,
    json: Candidate -> string)

  datatype Failure = Rejected | ProviderRaises | CaptureUnavailable

  datatype PlanningResult =
    | Ready(result: OptimizationResult)
    | Unresolved(partial: Option<OptimizationResult>)
    | Unavailable
    | Raised

  const PENDING := "pending"

  // ----- What the loops build

  predicate CanEnrich(providers: Providers, item: CanonicalItem, listed: Listed) {
    var retailer := providers.retailer(item.key.itemId, listed.listing);
    && retailer.Some? && !Blank(retailer.value)
    && listed.ready && listed.product == item.product && listed.variant == item.key.variant && item.Valid()
  }

  function Enrich(providers: Providers, item: CanonicalItem): Listed -> Candidate {
    (listed: Listed) =>
      var retailer := providers.retailer(item.key.itemId, listed.listing);
      Candidate(
        Allocation(item.key, item.quantity, if retailer.Some? then retailer.value else "", PENDING),
        listed.listing, None)
  }

  function SetOf(providers: Providers): CanonicalItem -> AllocationSet {
    (item: CanonicalItem) =>
      AllocationSet(item.key, item.quantity, Map(Enrich(providers, item), providers.listings(item)))
  }

  function GroupOf(providers: Providers, a: Allocation): string {
    var group := providers.group(a.key.itemId, a.retailer);
    if group.Some? then group.value else ""
  }

  function Regroup(providers: Providers): Candidate -> Candidate {
    (c: Candidate) => c.(allocation := c.allocation.(group := GroupOf(providers, c.allocation)))
  }

  function PairOf(c: Candidate): RetailerAllocation { RetailerAllocation(c.allocation.retailer, c.allocation.group) }

  /** The (retailer, checkout group) pairs in order of first appearance. */
  function RetailersOf(candidates: seq<Candidate>): (pairs: seq<RetailerAllocation>)
    ensures forall i :: 0 <= i < |candidates| ==> PairOf(candidates[i]) in pairs
    ensures forall j :: 0 <= j < |pairs| ==>
      exists i :: 0 <= i < |candidates| && PairOf(candidates[i]) == pairs[j]
  {
    if candidates == [] then []
    else
      var n := |candidates| - 1;
      var pairs := RetailersOf(candidates[..n]);
      var last := PairOf(candidates[n]);
      if last in pairs then pairs else pairs + [last]
  }

  function GroupWith(evaluationId: string): RetailerAllocation -> CheckoutGroup {
    (r: RetailerAllocation) => CheckoutGroup(r.group, r.retailer, evaluationId)
  }

  function PlanIdOf(providers: Providers, k: nat, raw: seq<Candidate>): string {
    providers.planId(k, Map(Regroup(providers), raw))
  }

  /** The plan built from the `k`th combination under a policy and an evaluation. */
  function Assemble(id: string, candidates: seq<Candidate>, policy: Policy, evaluation: Evaluation): Plan {
    Plan(id, policy.inconvenience, policy.priority, RetailersOf(candidates),
         Map(ToItemAllocation, candidates), candidates,
         Map(GroupWith(evaluation.id), RetailersOf(candidates)), evaluation.id, [], policy.feasibility)
  }

  predicate AllPresent(texts: seq<string>) { forall i :: 0 <= i < |texts| ==> !Blank(texts[i]) }

  /** The validator of a plan's construction input. */
  predicate Constructible(plan: Plan, policy: Policy) {
    && !Blank(plan.id)
    && (forall i :: 0 <= i < |plan.items| ==>
          var a := plan.items[i]; AllPresent([a.key.itemId, a.key.variant, a.retailer, a.group]))
    && (forall i :: 0 <= i < |plan.groups| ==>
          var g := plan.groups[i]; AllPresent([g.id, g.retailer, g.evaluationId]))
    && policy.evidence != [] && AllPresent(policy.evidence)
    && policy.feasibility != INVALID && !Blank(plan.evaluationId)
  }

  /** What every provider and validator says about one combination. */
  predicate CanBuild(providers: Providers, k: nat, raw: seq<Candidate>) {
    && (forall i :: 0 <= i < |raw| ==> providers.group(raw[i].allocation.key.itemId, raw[i].allocation.retailer).Some?)
    && var id := PlanIdOf(providers, k, raw);
       && providers.policy(id).Some? && providers.evidence(id).Evaluated?
       && Constructible(PlanOf(providers, k, raw), providers.policy(id).value)
  }

  /** Why a combination cannot be built: the first of group, policy, capture, observation and evaluation missing, else the validator. */
  function BuildFailure(providers: Providers, k: nat, raw: seq<Candidate>): Failure {
    if exists i :: 0 <= i < |raw| && providers.group(raw[i].allocation.key.itemId, raw[i].allocation.retailer).None? then ProviderRaises
    else
      var id := PlanIdOf(providers, k, raw);
      if providers.policy(id).None? then ProviderRaises
      else
        match providers.evidence(id)
        case AdapterUnavailable => CaptureUnavailable
        case ObservationUnavailable => ProviderRaises
        case Unevaluable => Rejected
        case Evaluated(_) => Rejected
  }

  /**
   * What stops a combination: capture, when every group and the policy are there and
   * the plan's capture adapter is not; a rejection, when the observation is there and
   * the evaluation or the plan is refused; a provider that raises, else.
   */
  ghost predicate Explains(providers: Providers, k: nat, raw: seq<Candidate>, failure: Failure) {
    var id := PlanIdOf(providers, k, raw);
    var asked := (forall c :: c in raw ==> providers.group(c.allocation.key.itemId, c.allocation.retailer).Some?) && providers.policy(id).Some?;
    && (failure == CaptureUnavailable <==> asked && providers.evidence(id) == AdapterUnavailable)
    && (failure == Rejected <==> asked && (providers.evidence(id) == Unevaluable || providers.evidence(id).Evaluated?))
  }

  function PlanOf(providers: Providers, k: nat, raw: seq<Candidate>): Plan {
    var id := PlanIdOf(providers, k, raw);
    var policy := providers.policy(id);
    Assemble(id, Map(Regroup(providers), raw),
             if policy.Some? then policy.value else Policy(0, 0, INVALID, []), EvaluationOf(providers, k, raw))
  }

  function EvaluationOf(providers: Providers, k: nat, raw: seq<Candidate>): Evaluation {
    var evidence := providers.evidence(PlanIdOf(providers, k, raw));
    if evidence.Evaluated? then evidence.evaluation else Evaluation("", None, [])
  }

  function PlansOf(providers: Providers, combinations: seq<seq<Candidate>>): seq<Plan> {
    seq(|combinations|, k requires 0 <= k < |combinations| => PlanOf(providers, k, combinations[k]))
  }

  function EvaluationsOf(providers: Providers, combinations: seq<seq<Candidate>>): seq<Evaluation> {
    seq(|combinations|, k requires 0 <= k < |combinations| => EvaluationOf(providers, k, combinations[k]))
  }

  function Combined(items: seq<CanonicalItem>, providers: Providers): seq<seq<Candidate>> {
    Product(Factors(Map(SetOf(providers), items), providers.json))
  }

  function AsCartItem(item: CanonicalItem): CartItem { CartItem(item.key, item.quantity) }

  function ByEvaluationId(e: Evaluation): Key { [Text(e.id)] }

  /** The request automatic planning puts to the optimizer. */
  ghost predicate AutomaticRequest(cartId: string, policy: string, items: seq<CanonicalItem>, providers: Providers, request: Request) {
    && request.requestId == cartId && request.policy == policy
    && request.cart == Map(AsCartItem, items)
    && request.plans == Sort(PlansOf(providers, Combined(items, providers)), ById)
    && request.coverageComplete && request.constraints == []
    && Distinct(Map(EvaluationId, request.evaluations)) && SortedBy(request.evaluations, ByEvaluationId)
    && (forall e :: e in request.evaluations <==> e in EvaluationsOf(providers, Combined(items, providers)))
  }

  // ----- What a built plan carries

  /** The checkout a pick goes to: its retailer and the group the provider puts it in. */
  function CheckoutOf(providers: Providers, c: Candidate): RetailerAllocation {
    RetailerAllocation(c.allocation.retailer, GroupOf(providers, c.allocation))
  }

  /** The picks as they were, each in the group its provider names. */
  ghost predicate PlacedAs(providers: Providers, raw: seq<Candidate>, placed: seq<Candidate>) {
    && |placed| == |raw|
    && forall i :: 0 <= i < |raw| ==>
         && placed[i].listing == raw[i].listing && placed[i].semantics == raw[i].semantics
         && placed[i].allocation.key == raw[i].allocation.key && placed[i].allocation.quantity == raw[i].allocation.quantity
         && placed[i].allocation.retailer == raw[i].allocation.retailer
         && providers.group(raw[i].allocation.key.itemId, raw[i].allocation.retailer) == Some(placed[i].allocation.group)
  }

  /** One group for each checkout of the picks, under the evaluation `e`. */
  ghost predicate GroupedFor(providers: Providers, raw: seq<Candidate>, groups: seq<CheckoutGroup>, e: Evaluation) {
    && (forall g :: g in groups ==> g.evaluationId == e.id)
    && (forall c :: c in raw ==> CheckoutGroup(GroupOf(providers, c.allocation), c.allocation.retailer, e.id) in groups)
    && |groups| == |set i | 0 <= i < |raw| :: CheckoutOf(providers, raw[i])|
  }

  /** What the `k`th combination must make of itself: the provider's id, that id's policy and that id's evaluation. */
  ghost predicate Carries(providers: Providers, k: nat, raw: seq<Candidate>, p: Plan) {
    && PlacedAs(providers, raw, p.candidates)
    && p.id == providers.planId(k, p.candidates) && !Blank(p.id)
    && p.items == Map(ToItemAllocation, p.candidates) && p.constraintIds == []
    && (forall a :: a in p.items ==> !Blank(a.key.itemId) && !Blank(a.key.variant))
    && (forall g :: g in p.groups ==> !Blank(g.id) && !Blank(g.retailer) && !Blank(g.evaluationId))
    && providers.policy(p.id).Some? && providers.evidence(p.id).Evaluated?
    && p.inconvenience == providers.policy(p.id).value.inconvenience
    && p.priority == providers.policy(p.id).value.priority
    && p.feasibility == providers.policy(p.id).value.feasibility != INVALID
    && providers.policy(p.id).value.evidence != [] && (forall e :: e in providers.policy(p.id).value.evidence ==> !Blank(e))
    && p.evaluationId == providers.evidence(p.id).evaluation.id
    && GroupedFor(providers, raw, p.groups, providers.evidence(p.id).evaluation)
    && |p.retailers| == |p.groups|
    && forall j :: 0 <= j < |p.groups| ==> RetailerAllocation(p.groups[j].retailer, p.groups[j].id) == p.retailers[j]
  }

  lemma {:induction false} RetailersDistinct(candidates: seq<Candidate>)
    ensures Distinct(RetailersOf(candidates))
  {
    if candidates != [] {
      RetailersDistinct(candidates[..|candidates| - 1]);
    }
  }

  lemma {:induction false} RetailersCount(providers: Providers, raw: seq<Candidate>)
    ensures |RetailersOf(Map(Regroup(providers), raw))| == |set i | 0 <= i < |raw| :: CheckoutOf(providers, raw[i])|
  {
    hide RetailersOf, Distinct;
    var placed := Map(Regroup(providers), raw);
    var pairs := RetailersOf(placed);
    RetailersDistinct(placed);
    DistinctCardinality(pairs);
    forall i | 0 <= i < |raw| ensures CheckoutOf(providers, raw[i]) in pairs {
      assert PairOf(placed[i]) in pairs;
    }
    forall pair | pair in pairs ensures exists i :: 0 <= i < |raw| && CheckoutOf(providers, raw[i]) == pair {
      var j :| 0 <= j < |pairs| && pairs[j] == pair;
      var i :| 0 <= i < |placed| && PairOf(placed[i]) == pairs[j];
      assert CheckoutOf(providers, raw[i]) == pair;
    }
    assert (set pair | pair in pairs) == set i | 0 <= i < |raw| :: CheckoutOf(providers, raw[i]);
  }

  lemma {:induction false} Placed(providers: Providers, raw: seq<Candidate>)
    requires forall i :: 0 <= i < |raw| ==> providers.group(raw[i].allocation.key.itemId, raw[i].allocation.retailer).Some?
    ensures PlacedAs(providers, raw, Map(Regroup(providers), raw))
  {
    hide Map;
  }

  lemma {:induction false} GroupsFor(providers: Providers, raw: seq<Candidate>, e: Evaluation)
    ensures GroupedFor(providers, raw, Map(GroupWith(e.id), RetailersOf(Map(Regroup(providers), raw))), e)
  {
    hide RetailersOf, Map;
    var placed := Map(Regroup(providers), raw);
    var pairs := RetailersOf(placed);
    var groups := Map(GroupWith(e.id), pairs);
    RetailersCount(providers, raw);
    forall c | c in raw ensures CheckoutGroup(GroupOf(providers, c.allocation), c.allocation.retailer, e.id) in groups {
      var i :| 0 <= i < |raw| && raw[i] == c;
      assert PairOf(placed[i]) in pairs;
      var j :| 0 <= j < |pairs| && pairs[j] == PairOf(placed[i]);
      assert groups[j] == GroupWith(e.id)(pairs[j]);
    }
  }

  lemma {:induction false} BuiltPlanCarries(providers: Providers, k: nat, raw: seq<Candidate>)
    requires CanBuild(providers, k, raw)
    ensures Carries(providers, k, raw, PlanOf(providers, k, raw))
  {
    hide RetailersOf, Constructible, PlacedAs, GroupedFor, Map;
    var e := providers.evidence(PlanIdOf(providers, k, raw)).evaluation;
    Placed(providers, raw);
    GroupsFor(providers, raw, e);
    ConstructibleMeans(PlanOf(providers, k, raw), providers.policy(PlanIdOf(providers, k, raw)).value);
  }

  lemma {:induction false} ConstructibleMeans(plan: Plan, policy: Policy)
    requires Constructible(plan, policy)
    ensures !Blank(plan.id) && policy.feasibility != INVALID
    ensures policy.evidence != [] && forall e :: e in policy.evidence ==> !Blank(e)
    ensures forall g :: g in plan.groups ==> !Blank(g.id) && !Blank(g.retailer) && !Blank(g.evaluationId)
    ensures forall a :: a in plan.items ==> !Blank(a.key.itemId) && !Blank(a.key.variant)
  {
    hide Blank;
    forall g | g in plan.groups ensures !Blank(g.id) && !Blank(g.retailer) && !Blank(g.evaluationId) {
      var texts := [g.id, g.retailer, g.evaluationId];
      assert !Blank(texts[0]) && !Blank(texts[1]) && !Blank(texts[2]);
    }
    forall a | a in plan.items ensures !Blank(a.key.itemId) && !Blank(a.key.variant) {
      var texts := [a.key.itemId, a.key.variant, a.retailer, a.group];
      assert !Blank(texts[0]) && !Blank(texts[1]);
    }
    forall e | e in policy.evidence ensures !Blank(e) {
      var i :| 0 <= i < |policy.evidence| && policy.evidence[i] == e;
    }
  }

  // ----- The loops

  /** One candidate set per item, its candidates enriched in discovery order. */
  method BuildSets(items: seq<CanonicalItem>, providers: Providers) returns (r: Result<seq<AllocationSet>, Failure>)
    ensures r.Ok? <==> forall i :: 0 <= i < |items| ==>
      forall j :: 0 <= j < |providers.listings(items[i])| ==> CanEnrich(providers, items[i], providers.listings(items[i])[j])
    ensures r.Ok? ==> r.value == Map(SetOf(providers), items)
    ensures r.Ok? ==> forall i :: 0 <= i < |items| ==> SetFor(providers, items[i], r.value[i])
    ensures r.Err? ==> exists i :: 0 <= i < |items| && FirstToFail(items, providers, i, r.error)
  {
    hide Map, CanEnrich, SetFor;
    var sets := [];
    for i := 0 to |items|
      invariant |sets| == i
      invariant forall k :: 0 <= k < i ==> sets[k] == SetOf(providers)(items[k]) && SetFor(providers, items[k], sets[k])
      invariant forall k :: 0 <= k < i ==>
        forall j :: 0 <= j < |providers.listings(items[k])| ==> CanEnrich(providers, items[k], providers.listings(items[k])[j])
    {
      var built := BuildSet(items[i], providers);
      if built.Err? {
        assert FirstToFail(items, providers, i, built.error);
        return Err(built.error);
      }
      sets := sets + [built.value];
    }
    assert sets == Map(SetOf(providers), items);
    return Ok(sets);
  }

  ghost predicate AllEnrich(providers: Providers, item: CanonicalItem) {
    var discovered := providers.listings(item);
    forall j :: 0 <= j < |discovered| ==> CanEnrich(providers, item, discovered[j])
  }

  /** The first candidate of `item` that cannot be enriched fails for this reason. */
  ghost predicate CannotEnrich(providers: Providers, item: CanonicalItem, failure: Failure) {
    var discovered := providers.listings(item);
    exists j :: 0 <= j < |discovered| && !CanEnrich(providers, item, discovered[j])
      && (forall k :: 0 <= k < j ==> CanEnrich(providers, item, discovered[k]))
      && failure == if providers.retailer(item.key.itemId, discovered[j].listing).None? then ProviderRaises else Rejected
  }

  /** Item `i` is the first with a candidate that cannot be enriched. */
  ghost predicate FirstToFail(items: seq<CanonicalItem>, providers: Providers, i: nat, failure: Failure)
    requires i < |items|
  {
    CannotEnrich(providers, items[i], failure) && forall k :: 0 <= k < i ==> AllEnrich(providers, items[k])
  }

  /** One candidate for each discovered listing, in order: the item's key and quantity, the retailer the provider names. */
  ghost predicate SetFor(providers: Providers, item: CanonicalItem, s: AllocationSet) {
    var discovered := providers.listings(item);
    && s.key == item.key && s.quantity == item.quantity && |s.candidates| == |discovered|
    && forall j :: 0 <= j < |discovered| ==>
         var c := s.candidates[j];
         && discovered[j].ready && discovered[j].product == item.product && discovered[j].variant == item.key.variant
         && item.quantity > 0 && !Blank(c.allocation.retailer)
         && c.listing == discovered[j].listing && c.semantics == None
         && c.allocation.key == item.key && c.allocation.quantity == item.quantity
         && providers.retailer(item.key.itemId, discovered[j].listing) == Some(c.allocation.retailer)
  }

  lemma {:induction false} EnrichedSet(providers: Providers, item: CanonicalItem)
    requires AllEnrich(providers, item)
    ensures SetFor(providers, item, SetOf(providers)(item))
  {
    hide Blank;
    var discovered := providers.listings(item);
    forall j | 0 <= j < |discovered| ensures CanEnrich(providers, item, discovered[j]) {
    }
  }

  method BuildSet(item: CanonicalItem, providers: Providers) returns (r: Result<AllocationSet, Failure>)
    ensures r.Ok? <==> forall j :: 0 <= j < |providers.listings(item)| ==> CanEnrich(providers, item, providers.listings(item)[j])
    ensures r.Ok? ==> r.value == SetOf(providers)(item) && SetFor(providers, item, r.value)
    ensures r.Err? ==> CannotEnrich(providers, item, r.error)
  {
    hide Map;
    var discovered := providers.listings(item);
    var allocations := [];
    for j := 0 to |discovered|
      invariant |allocations| == j && forall k :: 0 <= k < j ==> allocations[k] == Enrich(providers, item)(discovered[k])
      invariant forall k :: 0 <= k < j ==> CanEnrich(providers, item, discovered[k])
    {
      var retailer := providers.retailer(item.key.itemId, discovered[j].listing);
      if retailer.None? {
        return Err(ProviderRaises);
      }
      if !CanEnrich(providers, item, discovered[j]) {
        return Err(Rejected);
      }
      allocations := allocations + [Candidate(Allocation(item.key, item.quantity, retailer.value, PENDING), discovered[j].listing, None)];
    }
    assert allocations == Map(Enrich(providers, item), discovered);
    EnrichedSet(providers, item);
    return Ok(AllocationSet(item.key, item.quantity, allocations));
  }

  lemma {:induction false} NoRetailers()
    ensures RetailersOf([]) == []
  {
  }

  lemma {:induction false} RetailersSnoc(candidates: seq<Candidate>, c: Candidate)
    ensures RetailersOf(candidates + [c]) ==
      RetailersOf(candidates) + if PairOf(c) in RetailersOf(candidates) then [] else [PairOf(c)]
  {
    assert (candidates + [c])[..|candidates|] == candidates;
  }

  /** The inner loop: group each allocation and collect the retailer allocations it needs. */
  method GroupAllocations(raw: seq<Candidate>, providers: Providers)
    returns (r: Result<(seq<Candidate>, seq<RetailerAllocation>), Failure>)
    ensures r.Ok? <==> forall i :: 0 <= i < |raw| ==> providers.group(raw[i].allocation.key.itemId, raw[i].allocation.retailer).Some?
    ensures r.Ok? ==> r.value == (Map(Regroup(providers), raw), RetailersOf(Map(Regroup(providers), raw)))
    ensures r.Err? ==> r.error == ProviderRaises
  {
    hide Map, RetailersOf;
    var allocations: seq<Candidate> := [];
    var retailers: seq<RetailerAllocation> := [];
    assert RetailersOf([]) == [] by { NoRetailers(); }
    for i := 0 to |raw|
      invariant |allocations| == i && forall k :: 0 <= k < i ==> allocations[k] == Regroup(providers)(raw[k])
      invariant retailers == RetailersOf(allocations)
      invariant forall k :: 0 <= k < i ==> providers.group(raw[k].allocation.key.itemId, raw[k].allocation.retailer).Some?
    {
      var group := providers.group(raw[i].allocation.key.itemId, raw[i].allocation.retailer);
      if group.None? {
        return Err(ProviderRaises);
      }
      var enriched := raw[i].(allocation := raw[i].allocation.(group := group.value));
      RetailersSnoc(allocations, enriched);
      allocations := allocations + [enriched];
      if RetailerAllocation(enriched.allocation.retailer, group.value) !in retailers {
        retailers := retailers + [RetailerAllocation(enriched.allocation.retailer, group.value)];
      }
    }
    assert allocations == Map(Regroup(providers), raw);
    return Ok((allocations, retailers));
  }

  /** One pass of the plan-building loop. */
  method BuildPlan(k: nat, raw: seq<Candidate>, providers: Providers) returns (r: Result<(Plan, Evaluation), Failure>)
    ensures r.Ok? <==> CanBuild(providers, k, raw)
    ensures r.Ok? ==> r.value == (PlanOf(providers, k, raw), EvaluationOf(providers, k, raw))
    ensures r.Ok? ==> Carries(providers, k, raw, r.value.0) && providers.evidence(r.value.0.id) == Evaluated(r.value.1)
    ensures r.Err? ==> r.error == BuildFailure(providers, k, raw) && Explains(providers, k, raw, r.error)
  {
    hide Map, RetailersOf, Constructible, Carries;
    if CanBuild(providers, k, raw) {
      BuiltPlanCarries(providers, k, raw);
    }
    var grouped :- GroupAllocations(raw, providers);
    var allocations, retailers := grouped.0, grouped.1;
    var id := providers.planId(k, allocations);
    var policy := providers.policy(id);
    if policy.None? {
      return Err(ProviderRaises);
    }
    var evidence := providers.evidence(id);
    match evidence {
      case AdapterUnavailable => return Err(CaptureUnavailable);
      case ObservationUnavailable => return Err(ProviderRaises);
      case Unevaluable => return Err(Rejected);
      case Evaluated(evaluation) =>
        var plan := Plan(
          id, policy.value.inconvenience, policy.value.priority, retailers, Map(ToItemAllocation, allocations), allocations,
          Map(GroupWith(evaluation.id), retailers), evaluation.id, [], policy.value.feasibility);
        if !Constructible(plan, policy.value) {
          return Err(Rejected);
        }
        return Ok((plan, evaluation));
    }
  }

  /** Combination `k` is the first that cannot be built, for this reason. */
  ghost predicate FailsAt(providers: Providers, combinations: seq<seq<Candidate>>, k: nat, failure: Failure)
    requires k < |combinations|
  {
    && !CanBuild(providers, k, combinations[k])
    && (forall j :: 0 <= j < k ==> CanBuild(providers, j, combinations[j]))
    && failure == BuildFailure(providers, k, combinations[k]) && Explains(providers, k, combinations[k], failure)
  }

  method BuildPlans(combinations: seq<seq<Candidate>>, providers: Providers)
    returns (r: Result<(seq<Plan>, seq<Evaluation>), Failure>)
    ensures r.Ok? <==> forall k :: 0 <= k < |combinations| ==> CanBuild(providers, k, combinations[k])
    ensures r.Ok? ==> r.value == (PlansOf(providers, combinations), EvaluationsOf(providers, combinations))
    ensures r.Err? ==> exists k :: 0 <= k < |combinations| && FailsAt(providers, combinations, k, r.error)
  {
    hide CanBuild, PlanOf, EvaluationOf, BuildFailure, Explains, Carries;
    var plans: seq<Plan>, evaluations: seq<Evaluation> := [], [];
    for k := 0 to |combinations|
      invariant |plans| == |evaluations| == k
      invariant forall i :: 0 <= i < k ==>
        && CanBuild(providers, i, combinations[i])
        && plans[i] == PlanOf(providers, i, combinations[i])
        && evaluations[i] == EvaluationOf(providers, i, combinations[i])
    {
      var built := BuildPlan(k, combinations[k], providers);
      if built.Err? {
        assert FailsAt(providers, combinations, k, built.error);
        return Err(built.error);
      }
      plans, evaluations := plans + [built.value.0], evaluations + [built.value.1];
    }
    assert plans == PlansOf(providers, combinations);
    assert evaluations == EvaluationsOf(providers, combinations);
    return Ok((plans, evaluations));
  }

  ghost predicate Agreeing(evaluations: seq<Evaluation>) {
    forall i, j :: 0 <= i < |evaluations| && 0 <= j < |evaluations| && evaluations[i].id == evaluations[j].id ==>
      evaluations[i] == evaluations[j]
  }

  /** `attach_to_request`: one evaluation per id, in id order, unless two with one id differ. */
  method AttachEvaluations(supplied: seq<Evaluation>) returns (r: Option<seq<Evaluation>>)
    ensures r.Some? <==> Agreeing(supplied)
    ensures r.Some? ==>
      && Distinct(Map(EvaluationId, r.value)) && SortedBy(r.value, ByEvaluationId)
      && forall e :: e in r.value <==> e in supplied
  {
    var byId: map<string, Evaluation> := map[];
    for i := 0 to |supplied|
      invariant forall k :: 0 <= k < i ==> supplied[k].id in byId && byId[supplied[k].id] == supplied[k]
      invariant forall id :: id in byId ==> byId[id].id == id && byId[id] in supplied
    {
      if supplied[i].id in byId && byId[supplied[i].id] != supplied[i] {
        assert supplied[i] in supplied;
        return None;
      }
      byId := byId[supplied[i].id := supplied[i]];
    }
    var values := ValuesById(byId);
    SortPermutes(values, ByEvaluationId);
    SortSorts(values, ByEvaluationId);
    PermutedBasics(Sort(values, ByEvaluationId), values);
    MapPermuted(EvaluationId, values, Sort(values, ByEvaluationId));
    DistinctPermuted(Map(EvaluationId, values), Map(EvaluationId, Sort(values, ByEvaluationId)));
    return Some(Sort(values, ByEvaluationId));
  }

  /** The values of a dictionary keyed by evaluation id, each once. */
  method ValuesById(byId: map<string, Evaluation>) returns (values: seq<Evaluation>)
    requires forall id :: id in byId ==> byId[id].id == id
    ensures Distinct(Map(EvaluationId, values))
    ensures forall e :: e in values <==> e.id in byId && byId[e.id] == e
  {
    hide Map;
    values := [];
    var left := byId.Keys;
    while left != {}
      invariant left <= byId.Keys
      invariant Distinct(Map(EvaluationId, values))
      invariant forall e :: e in values <==> e.id in byId.Keys - left && byId[e.id] == e
    {
      var id :| id in left;
      var before := Map(EvaluationId, values);
      forall k | 0 <= k < |values| ensures before[k] != id {
        assert values[k] in values;
      }
      values := values + [byId[id]];
      assert Map(EvaluationId, values) == before + [id];
      left := left - {id};
    }
  }

  /** Plan ids have an authority, every item has a ready candidate, every candidate enriches, and every combination builds. */
  ghost predicate Buildable(items: seq<CanonicalItem>, providers: Providers) {
    && items != [] && providers.identifies
    && (forall i :: 0 <= i < |items| ==> !NothingReady(providers.listings(items[i])))
    && (forall i :: 0 <= i < |items| ==>
          forall j :: 0 <= j < |providers.listings(items[i])| ==> CanEnrich(providers, items[i], providers.listings(items[i])[j]))
    && var combinations := Combined(items, providers);
       forall k :: 0 <= k < |combinations| ==> CanBuild(providers, k, combinations[k])
  }

  /** Gathering stops for this reason: nothing ready, no authority for plan ids or nothing asked for, else the first enrichment, else the first combination that fails. */
  ghost predicate Fails(items: seq<CanonicalItem>, providers: Providers, failure: Failure) {
    if exists i :: 0 <= i < |items| && NothingReady(providers.listings(items[i])) then failure == Rejected
    else if !providers.identifies then failure == ProviderRaises
    else if items == [] then failure == Rejected
    else if exists i :: 0 <= i < |items| && !AllEnrich(providers, items[i]) then
      exists i :: 0 <= i < |items| && FirstToFail(items, providers, i, failure)
    else
      (exists k :: 0 <= k < |Combined(items, providers)| && FailsAt(providers, Combined(items, providers), k, failure))
  }

  /** The built plans also fit into one request. */
  ghost predicate Attachable(items: seq<CanonicalItem>, providers: Providers) {
    && Buildable(items, providers)
    && Distinct(Map(ItemKeyOf, Map(AsCartItem, items)))
    && Distinct(Map(PlanId, PlansOf(providers, Combined(items, providers))))
    && Agreeing(EvaluationsOf(providers, Combined(items, providers)))
  }

  lemma {:induction false} SetsHaveCandidates(items: seq<CanonicalItem>, providers: Providers)
    requires forall i :: 0 <= i < |items| ==> !NothingReady(providers.listings(items[i]))
    ensures forall i :: 0 <= i < |items| ==> Map(SetOf(providers), items)[i].candidates != []
  {
  }

  /** Discovery, enumeration and the plan-building loop. */
  method GatherPlans(items: seq<CanonicalItem>, providers: Providers)
    returns (r: Result<(seq<Plan>, seq<Evaluation>), Failure>)
    ensures r.Ok? <==> Buildable(items, providers)
    ensures r.Err? ==> Fails(items, providers, r.error)
    ensures r.Ok? ==>
      r.value == (PlansOf(providers, Combined(items, providers)), EvaluationsOf(providers, Combined(items, providers)))
  {
    hide Map, Sort, Product, Factors, CanBuild, CanEnrich, PlansOf, EvaluationsOf, SetOf, CannotEnrich, FailsAt, NothingReady;
    if exists i :: 0 <= i < |items| && NothingReady(providers.listings(items[i])) {
      return Err(Rejected);
    }
    if !providers.identifies {
      return Err(ProviderRaises);
    }
    var sets :- BuildSets(items, providers);
    assert forall i :: 0 <= i < |items| ==> sets[i].candidates != [] by {
      SetsHaveCandidates(items, providers);
    }
    var enumeration := EnumerateAllocations(sets, providers.json);
    if enumeration.None? {
      return Err(Rejected);
    }
    assert items != [];
    assert enumeration.value == Combined(items, providers);
    r := BuildPlans(enumeration.value, providers);
  }

  predicate NothingReady(discovered: seq<Listed>) {
    forall j :: 0 <= j < |discovered| ==> !discovered[j].ready
  }

  /** The optimization request with every plan and its evaluation attached. */
  method AttachToRequest(
    cartId: string, policyVersion: string, items: seq<CanonicalItem>, plans: seq<Plan>, evaluations: seq<Evaluation>,
    ghost providers: Providers
  ) returns (r: Option<Request>)
    requires plans == PlansOf(providers, Combined(items, providers))
    requires evaluations == EvaluationsOf(providers, Combined(items, providers))
    requires Buildable(items, providers)
    ensures r.Some? <==> Attachable(items, providers)
    ensures r.Some? ==> AutomaticRequest(cartId, policyVersion, items, providers, r.value)
  {
    hide Map, Sort, PlansOf, EvaluationsOf, Combined, Distinct, SortedBy, Buildable, Agreeing;
    var keys := Map(ItemKeyOf, Map(AsCartItem, items));
    DistinctCardinality(keys);
    if |keys| != |set k | k in keys| {
      return None;
    }
    var ids := Map(PlanId, plans);
    DistinctCardinality(ids);
    if |ids| != |set id | id in ids| {
      return None;
    }
    var attached := AttachEvaluations(evaluations);
    if attached.None? {
      return None;
    }
    return Some(Request(cartId, policyVersion, Map(AsCartItem, items), Sort(plans, ById), true, [], attached.value));
  }

  lemma {:induction false} RequestUnique(
    cartId: string, policy: string, items: seq<CanonicalItem>, providers: Providers, x: Request, y: Request)
    requires AutomaticRequest(cartId, policy, items, providers, x) && AutomaticRequest(cartId, policy, items, providers, y)
    ensures x == y
  {
    hide Map, Sort, PlansOf, EvaluationsOf, Combined, SortedBy, Distinct;
    KeysFromIds(x.evaluations);
    KeysFromIds(y.evaluations);
    forall i | 0 <= i < |x.evaluations| ensures x.evaluations[i] in y.evaluations {
      assert x.evaluations[i] in x.evaluations;
    }
    forall i | 0 <= i < |y.evaluations| ensures y.evaluations[i] in x.evaluations {
      assert y.evaluations[i] in y.evaluations;
    }
    KeyedUnique(x.evaluations, y.evaluations, ByEvaluationId);
  }

  lemma {:induction false} KeysFromIds(evaluations: seq<Evaluation>)
    requires Distinct(Map(EvaluationId, evaluations))
    ensures Distinct(Map(ByEvaluationId, evaluations))
  {
    hide Map;
    var ids, keys := Map(EvaluationId, evaluations), Map(ByEvaluationId, evaluations);
    forall i, j | 0 <= i < j < |keys| ensures keys[i] != keys[j] {
      assert ids[i] != ids[j];
      assert keys[i][0] == Text(ids[i]) && keys[j][0] == Text(ids[j]);
    }
  }

  /** Planning reaches the optimizer's answer: the plans fit into a request and that request is acceptable. */
  ghost predicate Answerable(
    cartId: string, policyVersion: string, supported: seq<string>, items: seq<CanonicalItem>, providers: Providers)
  {
    && Attachable(items, providers)
    && exists request :: AutomaticRequest(cartId, policyVersion, items, providers, request) && Acceptable(request, supported)
  }

  /** `result` is the optimizer's answer to the request built from every combination. */
  ghost predicate Answers(
    cartId: string, policyVersion: string, supported: seq<string>, items: seq<CanonicalItem>, providers: Providers,
    result: OptimizationResult)
  {
    exists request :: AutomaticRequest(cartId, policyVersion, items, providers, request) && Acceptable(request, supported)
      && result == ResultOf(request, providers.json)
  }

  /** The optimizer's answer selects a plan. */
  ghost predicate ReadyFor(
    cartId: string, policyVersion: string, supported: seq<string>, items: seq<CanonicalItem>, providers: Providers)
  {
    && Attachable(items, providers)
    && exists result :: Answers(cartId, policyVersion, supported, items, providers, result) && result.outcome.Selected?
  }

  /** `plan`: it reaches the optimizer exactly when planning is answerable, and is READY exactly when the answer selects a plan. */
  method PlanCart(
    cartId: string, policyVersion: string, supported: seq<string>, items: seq<CanonicalItem>, providers: Providers
  ) returns (r: PlanningResult)
    ensures r.Ready? || (r.Unresolved? && r.partial.Some?) <==> Answerable(cartId, policyVersion, supported, items, providers)
    ensures r.Ready? ==> Answers(cartId, policyVersion, supported, items, providers, r.result) && r.result.outcome.Selected?
    ensures r.Ready? <==> ReadyFor(cartId, policyVersion, supported, items, providers)
    ensures r.Unresolved? && r.partial.Some? ==>
      Answers(cartId, policyVersion, supported, items, providers, r.partial.value) && !r.partial.value.outcome.Selected?
    ensures !Buildable(items, providers) ==> exists failure :: Fails(items, providers, failure) && r == Failed(failure)
    ensures !Buildable(items, providers) ==>
      || (r == Unavailable && Fails(items, providers, CaptureUnavailable))
      || (r == Raised && Fails(items, providers, ProviderRaises))
      || (r == Unresolved(None) && Fails(items, providers, Rejected))
    ensures Buildable(items, providers) ==> !r.Raised? && !r.Unavailable?
  {
    hide AutomaticRequest, Fails, Buildable, Agreeing, Distinct, PlansOf, EvaluationsOf, Combined, ResultOf, Acceptable;
    var gathered := GatherPlans(items, providers);
    if gathered.Err? {
      return Failed(gathered.error);
    }
    var attached := AttachToRequest(cartId, policyVersion, items, gathered.value.0, gathered.value.1, providers);
    if attached.None? {
      return Unresolved(None);
    }
    var optimized := Optimize(attached.value, supported, providers.json);
    forall other | AutomaticRequest(cartId, policyVersion, items, providers, other) ensures other == attached.value {
      RequestUnique(cartId, policyVersion, items, providers, other, attached.value);
    }
    if optimized.Err? {
      return Unresolved(None);
    }
    if optimized.value.outcome.Selected? {
      return Ready(optimized.value);
    }
    return Unresolved(Some(optimized.value));
  }

  function Failed(failure: Failure): PlanningResult {
    match failure
    case Rejected => Unresolved(None)
    case ProviderRaises => Raised
    case CaptureUnavailable => Unavailable
  }
}
