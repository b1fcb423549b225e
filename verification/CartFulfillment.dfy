/** Exact fulfilment of a requested cart by one plan, and the feasibility it leaves the plan with. */
module CartFulfillment {
  import opened Outcomes
  import opened Ordering
  import opened CartPlans

  datatype PlanError =
    | EmptyCheckoutGroup
    | UndeclaredCheckoutGroup
    | DuplicateAllocation
    | UnknownCartItem
    | NonPositiveQuantity

  ghost predicate GroupsDeclared(plan: Plan) {
    forall a :: a in Allocations(plan) ==> exists g :: g in plan.groups && g.id == a.group
  }

  ghost predicate GroupsUsed(plan: Plan) {
    forall g :: g in plan.groups ==> exists a :: a in Allocations(plan) && a.group == g.id
  }

  /** Per key, the allocated quantities sum to the requested one. */
  ghost predicate Exact(requested: map<ItemKey, int>, allocations: seq<Allocation>) {
    forall key :: key in requested ==> Allocated(allocations, key) == requested[key]
  }

  ghost predicate AllKnown(requested: map<ItemKey, int>, allocations: seq<Allocation>) {
    forall i :: 0 <= i < |allocations| ==> allocations[i].key in requested
  }

  ghost predicate AllPositive(allocations: seq<Allocation>) {
    forall i :: 0 <= i < |allocations| ==> allocations[i].quantity > 0
  }

  /** What `_validate_plan_fulfillment` decides: an error, or whether the plan delivers exactly what was asked. */
  ghost function Fulfillment(requested: map<ItemKey, int>, plan: Plan): Result<bool, PlanError> {
    var allocations := Allocations(plan);
    if allocations == [] then
      if plan.groups != [] then Err(EmptyCheckoutGroup) else Ok(requested == map[] || !plan.feasibility.FEASIBLE?)
    else if !GroupsDeclared(plan) then Err(UndeclaredCheckoutGroup)
    else if !GroupsUsed(plan) then Err(EmptyCheckoutGroup)
    else if requested == map[] then Ok(true)
    else if !Distinct(allocations) then Err(DuplicateAllocation)
    else if !AllKnown(requested, allocations) then Err(UnknownCartItem)
    else if !AllPositive(allocations) then Err(NonPositiveQuantity)
    else Ok(Exact(requested, allocations))
  }

  /** `_effective_feasibility` of a plan whose fulfilment raises no error. */
  ghost function EffectiveFeasibility(requested: map<ItemKey, int>, plan: Plan): Feasibility {
    if Fulfillment(requested, plan) != Ok(true) then INFEASIBLE
    else if HasStatus(plan, UNSUPPORTED) then INFEASIBLE
    else if HasStatus(plan, UNRESOLVED_QUANTITY) then UNRESOLVED
    else plan.feasibility
  }

  predicate StatusIs(c: Candidate, status: ResolutionStatus) {
    c.semantics.Some? && c.semantics.value.status == status
  }

  predicate HasStatus(plan: Plan, status: ResolutionStatus) {
    exists i :: 0 <= i < |plan.candidates| && StatusIs(plan.candidates[i], status)
  }

  // ----- The checks as the service runs them

  lemma {:induction false} SumSnoc(allocations: seq<Allocation>, i: nat, key: ItemKey)
    requires i < |allocations|
    ensures Allocated(allocations[..i + 1], key) ==
      Allocated(allocations[..i], key) + QuantityFor(key)(allocations[i])
  {
    assert allocations[..i + 1] == allocations[..i] + [allocations[i]];
    SumAppend(QuantityFor(key), allocations[..i], [allocations[i]]);
  }

  lemma {:induction false} NoneAllocated(allocations: seq<Allocation>, key: ItemKey)
    requires forall i :: 0 <= i < |allocations| ==> allocations[i].key != key
    ensures Allocated(allocations, key) == 0
  {
    if allocations != [] {
      NoneAllocated(allocations[1..], key);
    }
  }

  function Count(counter: map<ItemKey, int>, key: ItemKey): int { if key in counter then counter[key] else 0 }

  /** `quantities`: the positive quantities counted per key, or an error at the first one that is not. */
  method CountQuantities(allocations: seq<Allocation>) returns (r: Result<map<ItemKey, int>, PlanError>)
    ensures r.Err? <==> !AllPositive(allocations)
    ensures r.Err? ==> r.error == NonPositiveQuantity
    ensures r.Ok? ==> forall key :: Count(r.value, key) == Allocated(allocations, key)
    ensures r.Ok? ==> forall key :: key in r.value ==> exists i :: 0 <= i < |allocations| && allocations[i].key == key
  {
    var quantities: map<ItemKey, int> := map[];
    for i := 0 to |allocations|
      invariant forall k :: 0 <= k < i ==> allocations[k].quantity > 0
      invariant forall key :: Count(quantities, key) == Allocated(allocations[..i], key)
      invariant forall key :: key in quantities ==> exists k :: 0 <= k < i && allocations[k].key == key
    {
      var a := allocations[i];
      if a.quantity <= 0 {
        return Err(NonPositiveQuantity);
      }
      forall key {
        SumSnoc(allocations, i, key);
      }
      quantities := quantities[a.key := Count(quantities, a.key) + a.quantity];
    }
    assert allocations[..|allocations|] == allocations;
    return Ok(quantities);
  }

  lemma {:induction false} KeysTellAllocations(allocations: seq<Allocation>)
    requires Distinct(Map(KeyOf, allocations))
    ensures Distinct(allocations)
  {
    forall i, j | 0 <= i < j < |allocations| ensures allocations[i] != allocations[j] {
      assert Map(KeyOf, allocations)[i] != Map(KeyOf, allocations)[j];
    }
  }

  /** Declared and used checkout groups, compared as sets. */
  method CheckGroups(plan: Plan) returns (r: Result<(), PlanError>)
    ensures r == if !GroupsDeclared(plan) then Err(UndeclaredCheckoutGroup)
                 else if !GroupsUsed(plan) then Err(EmptyCheckoutGroup)
                 else Ok(())
  {
    var allocations := Allocations(plan);
    var declared := set g | g in plan.groups :: g.id;
    var used := set a | a in allocations :: a.group;
    assert used <= declared <==> GroupsDeclared(plan) by {
      if used <= declared {
        forall a | a in allocations ensures exists g :: g in plan.groups && g.id == a.group {
          assert a.group in used;
        }
      }
    }
    if !(used <= declared) {
      return Err(UndeclaredCheckoutGroup);
    }
    assert declared <= used <==> GroupsUsed(plan) by {
      if declared <= used {
        forall g | g in plan.groups ensures exists a :: a in allocations && a.group == g.id {
          assert g.id in declared;
        }
      }
    }
    if declared - used == {} {
      forall id | id in declared ensures id in used {
        assert id !in declared - used;
      }
    }
    if declared - used != {} {
      return Err(EmptyCheckoutGroup);
    }
    return Ok(());
  }

  /** `Counter` equality reads a missing key as zero; without unknown keys that is exactness. */
  lemma {:induction false} CounterEquality(requested: map<ItemKey, int>, allocations: seq<Allocation>, quantities: map<ItemKey, int>)
    requires AllKnown(requested, allocations)
    requires forall key :: Count(quantities, key) == Allocated(allocations, key)
    requires forall key :: key in quantities ==> exists i :: 0 <= i < |allocations| && allocations[i].key == key
    ensures (forall key :: key in quantities.Keys + requested.Keys ==> Count(quantities, key) == Count(requested, key))
      <==> Exact(requested, allocations)
  {
    hide Allocated;
    if forall key :: key in quantities.Keys + requested.Keys ==> Count(quantities, key) == Count(requested, key) {
      forall key | key in requested ensures Allocated(allocations, key) == requested[key] {
        assert key in quantities.Keys + requested.Keys;
      }
    }
  }

  /** `_validate_plan_fulfillment`. */
  method ValidatePlanFulfillment(cart: seq<CartItem>, plan: Plan) returns (r: Result<bool, PlanError>)
    ensures r == Fulfillment(Requested(cart), plan)
  {
    hide Allocated, Requested, GroupsDeclared, GroupsUsed, Exact, AllPositive, Distinct, Map;
    NothingRequested(cart);
    var allocations := Allocations(plan);
    if allocations == [] {
      if plan.groups != [] {
        return Err(EmptyCheckoutGroup);
      }
      return Ok(cart == [] || plan.feasibility != FEASIBLE);
    }
    var _ :- CheckGroups(plan);
    if cart == [] {
      return Ok(true);
    }
    var requested := Requested(cart);
    var keys := Map(KeyOf, allocations);
    DistinctCardinality(keys);
    DistinctCardinality(allocations);
    if |keys| != |set k | k in keys| {
      if |set a | a in allocations| != |allocations| {
        return Err(DuplicateAllocation);
      }
    } else {
      KeysTellAllocations(allocations);
    }
    if exists a :: a in allocations && a.key !in requested {
      return Err(UnknownCartItem);
    }
    var quantities :- CountQuantities(allocations);
    CounterEquality(requested, allocations, quantities);
    return Ok(forall key :: key in quantities.Keys + requested.Keys ==> Count(quantities, key) == Count(requested, key));
  }

  /** `_effective_feasibility`. */
  method ClassifyPlan(cart: seq<CartItem>, plan: Plan) returns (r: Result<Feasibility, PlanError>)
    ensures r == match Fulfillment(Requested(cart), plan)
                 case Ok(_) => Ok(EffectiveFeasibility(Requested(cart), plan))
                 case Err(e) => Err(e)
  {
    hide Fulfillment;
    var fulfilled :- ValidatePlanFulfillment(cart, plan);
    if !fulfilled {
      return Ok(INFEASIBLE);
    }
    var semantics := Filter((c: Candidate) => c.semantics.Some?, plan.candidates);
    if semantics == [] {
      return Ok(plan.feasibility);
    }
    if HasStatus(plan, UNSUPPORTED) {
      return Ok(INFEASIBLE);
    }
    if HasStatus(plan, UNRESOLVED_QUANTITY) {
      return Ok(UNRESOLVED);
    }
    return Ok(plan.feasibility);
  }

  // ----- What fulfilment means

  /**
   * For a non-empty cart, an accepted plan built from candidates meets the
   * requested quantities with its item allocations as well as with its candidates.
   */
  lemma {:induction false} ItemsMeetTheRequestToo(requested: map<ItemKey, int>, plan: Plan)
    requires requested != map[] && Consistent(plan) && plan.candidates != []
    requires Fulfillment(requested, plan).Ok?
    ensures Permuted(Map(ToItemAllocation, plan.candidates), plan.items)
    ensures Fulfillment(requested, plan) == Ok(true) <==> Exact(requested, plan.items)
  {
    hide Allocated, Consistent, Distinct, Permuted, Map, GroupsDeclared, GroupsUsed, AllKnown, AllPositive;
    assert Distinct(Allocations(plan));
    CandidatesMatchItems(plan);
  }

  /** A plan that fulfils a non-empty cart allocates every requested item, and nothing else. */
  lemma {:induction false} FulfilledMeansExact(requested: map<ItemKey, int>, plan: Plan)
    requires requested != map[] && (forall key :: key in requested ==> requested[key] > 0)
    requires Fulfillment(requested, plan) == Ok(true) && plan.feasibility.FEASIBLE?
    ensures Exact(requested, Allocations(plan))
    ensures forall key :: key in requested <==> exists i :: 0 <= i < |Allocations(plan)| && Allocations(plan)[i].key == key
    ensures GroupsDeclared(plan) && GroupsUsed(plan)
  {
    hide Allocated, Distinct, GroupsDeclared, GroupsUsed, Allocations;
    var allocations := Allocations(plan);
    assert AllKnown(requested, allocations);
    assert Exact(requested, allocations);
    forall key | key in requested ensures exists i :: 0 <= i < |allocations| && allocations[i].key == key {
      if forall i :: 0 <= i < |allocations| ==> allocations[i].key != key {
        NoneAllocated(allocations, key);
        assert false;
      }
    }
  }

  lemma {:induction false} SameGroups(plan: Plan)
    ensures (set g | g in plan.groups :: g.id) == (set a | a in Allocations(plan) :: a.group) <==> GroupsDeclared(plan) && GroupsUsed(plan)
  {
    hide Allocations;
    var declared, used := set g | g in plan.groups :: g.id, set a | a in Allocations(plan) :: a.group;
    if declared == used {
      forall a | a in Allocations(plan) ensures exists g :: g in plan.groups && g.id == a.group {
        assert a.group in used && a.group in declared;
      }
      forall g | g in plan.groups ensures exists a :: a in Allocations(plan) && a.group == g.id {
        assert g.id in declared && g.id in used;
      }
    }
  }

  /**
   * For a non-empty cart exactly the plans that allocate something are fulfilled that
   * declare the groups they use and no others, repeat no allocation, allocate only
   * requested keys and positive quantities, and in sum what was requested; or that
   * allocate nothing, declare no group and are not declared feasible.
   */
  lemma {:induction false} FulfilledIff(requested: map<ItemKey, int>, plan: Plan)
    requires requested != map[]
    ensures var allocations := Allocations(plan);
      Fulfillment(requested, plan) == Ok(true) <==>
        if |allocations| == 0 then |plan.groups| == 0 && plan.feasibility != FEASIBLE
        else
          && (set g | g in plan.groups :: g.id) == (set a | a in allocations :: a.group)
          && (forall i, j :: 0 <= i < j < |allocations| ==> allocations[i] != allocations[j])
          && (forall a :: a in allocations ==> a.key in requested && a.quantity >= 1)
          && (forall key :: key in requested ==> Allocated(allocations, key) == requested[key])
  {
    hide Allocated, Allocations, GroupsDeclared, GroupsUsed;
    var allocations := Allocations(plan);
    SameGroups(plan);
    assert forall i :: 0 <= i < |allocations| ==> allocations[i] in allocations;
  }

  /** Each error of the check is what is wrong with the plan that no earlier check catches. */
  lemma {:induction false} FulfillmentErrors(requested: map<ItemKey, int>, plan: Plan)
    ensures var allocations, check := Allocations(plan), Fulfillment(requested, plan);
      var asked := GroupsDeclared(plan) && GroupsUsed(plan) && requested != map[];
      && (check == Err(UndeclaredCheckoutGroup) <==> !GroupsDeclared(plan))
      && (check == Err(EmptyCheckoutGroup) <==> GroupsDeclared(plan) && !GroupsUsed(plan))
      && (check == Err(DuplicateAllocation) <==> asked && !Distinct(allocations))
      && (check == Err(UnknownCartItem) <==> asked && Distinct(allocations) && !AllKnown(requested, allocations))
      && (check == Err(NonPositiveQuantity) <==>
            asked && Distinct(allocations) && AllKnown(requested, allocations) && !AllPositive(allocations))
  {
    hide Exact, Allocations, GroupsDeclared, GroupsUsed, Distinct, AllKnown, AllPositive;
    if Allocations(plan) == [] {
      NothingAllocated(requested, plan);
    }
  }

  lemma {:induction false} NothingAllocated(requested: map<ItemKey, int>, plan: Plan)
    requires Allocations(plan) == []
    ensures GroupsDeclared(plan) && (GroupsUsed(plan) <==> plan.groups == [])
    ensures Distinct(Allocations(plan)) && AllKnown(requested, Allocations(plan)) && AllPositive(Allocations(plan))
  {
    if plan.groups != [] {
      assert plan.groups[0] in plan.groups;
    }
  }

  /** The feasibility a plan is left with, from what it declares and the quantities of its candidates. */
  lemma {:induction false} EffectiveIff(requested: map<ItemKey, int>, plan: Plan)
    ensures var r, fulfilled := EffectiveFeasibility(requested, plan), Fulfillment(requested, plan) == Ok(true);
      var unsupported := exists c :: c in plan.candidates && c.semantics.Some? && c.semantics.value.status == UNSUPPORTED;
      var doubtful := exists c :: c in plan.candidates && c.semantics.Some? && c.semantics.value.status == UNRESOLVED_QUANTITY;
      && (r == INFEASIBLE <==> !fulfilled || unsupported || (!doubtful && plan.feasibility == INFEASIBLE))
      && (r == UNRESOLVED <==> fulfilled && !unsupported && (doubtful || plan.feasibility == UNRESOLVED))
      && (r == INVALID <==> fulfilled && !unsupported && !doubtful && plan.feasibility == INVALID)
  {
    hide Fulfillment;
    StatusMeans(plan, UNSUPPORTED);
    StatusMeans(plan, UNRESOLVED_QUANTITY);
  }

  lemma {:induction false} StatusMeans(plan: Plan, status: ResolutionStatus)
    ensures HasStatus(plan, status) <==> exists c :: c in plan.candidates && c.semantics.Some? && c.semantics.value.status == status
  {
    if c :| c in plan.candidates && c.semantics.Some? && c.semantics.value.status == status {
      var i :| 0 <= i < |plan.candidates| && plan.candidates[i] == c;
      assert StatusIs(plan.candidates[i], status);
    }
  }

  /** Only a plan declared feasible, delivering exactly, with no doubtful quantity, counts as feasible. */
  lemma {:induction false} FeasibleIff(requested: map<ItemKey, int>, plan: Plan)
    ensures EffectiveFeasibility(requested, plan) == FEASIBLE <==>
      && plan.feasibility == FEASIBLE && Fulfillment(requested, plan) == Ok(true)
      && forall i :: 0 <= i < |plan.candidates| && plan.candidates[i].semantics.Some? ==>
           plan.candidates[i].semantics.value.status == RESOLVED
  {
    hide Fulfillment;
    if forall i :: 0 <= i < |plan.candidates| && plan.candidates[i].semantics.Some? ==>
         plan.candidates[i].semantics.value.status == RESOLVED {
      forall i | 0 <= i < |plan.candidates|
        ensures !StatusIs(plan.candidates[i], UNSUPPORTED) && !StatusIs(plan.candidates[i], UNRESOLVED_QUANTITY)
      {
      }
    } else {
      var i :| 0 <= i < |plan.candidates| && plan.candidates[i].semantics.Some?
        && plan.candidates[i].semantics.value.status != RESOLVED;
      assert StatusIs(plan.candidates[i], UNSUPPORTED) || StatusIs(plan.candidates[i], UNRESOLVED_QUANTITY);
    }
  }

  /**
   * The method's own comment says a plan not declared feasible is returned
   * unchanged. That holds exactly when nothing about it is unfulfilled or doubtful
   * beyond what it declares.
   */
  lemma {:induction false} DeclaredStandsIff(requested: map<ItemKey, int>, plan: Plan)
    requires plan.feasibility != FEASIBLE
    ensures EffectiveFeasibility(requested, plan) == plan.feasibility <==>
      if Fulfillment(requested, plan) != Ok(true) || HasStatus(plan, UNSUPPORTED) then plan.feasibility == INFEASIBLE
      else HasStatus(plan, UNRESOLVED_QUANTITY) ==> plan.feasibility == UNRESOLVED
  {
  }

  /** For example, a plan declared infeasible becomes unresolved when a quantity is. */
  lemma {:induction false} InfeasibleCanBecomeUnresolved() returns (requested: map<ItemKey, int>, plan: Plan)
    ensures Consistent(plan) && plan.feasibility == INFEASIBLE
    ensures EffectiveFeasibility(requested, plan) == UNRESOLVED
  {
    var key := ItemKey("milk", "1l");
    var a := Allocation(key, 1, "shop", "g");
    var c := Candidate(a, Listing("p", "l", "o", Money("INR", 100)), Some(Semantics("1l", 1, UNRESOLVED_QUANTITY)));
    requested := map[key := 1];
    plan := Plan("plan", 0, 0, [], [a], [c], [CheckoutGroup("g", "shop", "e")], "e", [], INFEASIBLE);
    OneAllocation(requested, plan, a);
    assert StatusIs(plan.candidates[0], UNRESOLVED_QUANTITY);
  }

  lemma {:induction false} OneAllocation(requested: map<ItemKey, int>, plan: Plan, a: Allocation)
    requires |plan.candidates| == 1 && plan.candidates[0].allocation == a && a.quantity > 0
    requires |plan.groups| == 1 && plan.groups[0].id == a.group
    requires requested == map[a.key := a.quantity]
    ensures Fulfillment(requested, plan) == Ok(true)
  {
    assert Allocations(plan) == [a];
    assert plan.groups[0] in plan.groups && Allocations(plan)[0] in Allocations(plan);
    SumSnoc([a], 0, a.key);
    assert [a][..1] == [a] && QuantityFor(a.key)(a) == a.quantity;
  }

  /** Fulfilment does not depend on the order of a plan's allocations and groups. */
  lemma {:induction false} FulfillmentReordered(requested: map<ItemKey, int>, p: Plan, q: Plan)
    requires Permuted(p.items, q.items) && Permuted(p.candidates, q.candidates) && Permuted(p.groups, q.groups)
    requires p.feasibility == q.feasibility
    ensures Fulfillment(requested, p) == Fulfillment(requested, q)
  {
    hide Allocated, GroupsDeclared, GroupsUsed, Exact, AllKnown, AllPositive, Distinct;
    PermutedBasics(p.candidates, q.candidates);
    MapPermuted(ToItemAllocation, p.candidates, q.candidates);
    var a, b := Allocations(p), Allocations(q);
    assert Permuted(a, b);
    PermutedBasics(a, b);
    PermutedBasics(p.groups, q.groups);
    GroupsReordered(p, q);
    if Distinct(a) {
      DistinctPermuted(a, b);
    }
    if Distinct(b) {
      DistinctPermuted(b, a);
    }
    SameMembers(requested, a, b);
    SameMembers(requested, b, a);
  }

  lemma {:induction false} GroupsReordered(p: Plan, q: Plan)
    requires Permuted(Allocations(p), Allocations(q)) && Permuted(p.groups, q.groups)
    ensures GroupsDeclared(p) == GroupsDeclared(q) && GroupsUsed(p) == GroupsUsed(q)
  {
    hide Allocations;
    PermutedBasics(Allocations(p), Allocations(q));
    PermutedBasics(p.groups, q.groups);
  }

  lemma {:induction false} SameMembers(requested: map<ItemKey, int>, a: seq<Allocation>, b: seq<Allocation>)
    requires Permuted(a, b)
    ensures AllKnown(requested, b) ==> AllKnown(requested, a)
    ensures AllPositive(b) ==> AllPositive(a)
    ensures Exact(requested, a) == Exact(requested, b)
  {
    PermutedBasics(a, b);
    forall i | 0 <= i < |a| ensures exists j :: 0 <= j < |b| && b[j] == a[i] {
      assert a[i] in a;
    }
    forall key ensures Allocated(a, key) == Allocated(b, key) {
      SumPermuted(QuantityFor(key), a, b);
    }
  }
}
