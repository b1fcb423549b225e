/** Carts, candidate plans and the checks a plan carries from its construction. */
module CartPlans {
  import opened Outcomes
  import opened Ordering

  datatype Money = Money(currency: string, minorUnits: int)

  datatype ItemKey = ItemKey(itemId: string, variant: string)

  datatype CartItem = CartItem(key: ItemKey, quantity: int)

  /**
   * `ItemAllocation`. Its identity key is the tuple of all its fields, with the
   * quantity as decimal text, so an allocation is its own identity.
   */
  datatype Allocation = Allocation(key: ItemKey, quantity: int, retailer: string, group: string)

  datatype Listing = Listing(platform: string, listingId: string, observationId: string, price: Money)

  datatype ResolutionStatus = RESOLVED | UNRESOLVED_QUANTITY | UNSUPPORTED

  datatype Semantics = Semantics(variant: string, requestedQuantity: int, status: ResolutionStatus)

  /** `CandidateItemAllocation`; `allocation` is what `to_item_allocation` projects out. */
  datatype Candidate = Candidate(allocation: Allocation, listing: Listing, semantics: Option<Semantics>)

  datatype RetailerAllocation = RetailerAllocation(retailer: string, group: string)

  datatype CheckoutGroup = CheckoutGroup(id: string, retailer: string, evaluationId: string)

  datatype Feasibility = FEASIBLE | INFEASIBLE | UNRESOLVED | INVALID

  datatype Plan = Plan(
    id: string,
    inconvenience: int,
    priority: int,
    retailers: seq<RetailerAllocation>,
    items: seq<Allocation>,
    candidates: seq<Candidate>,
    groups: seq<CheckoutGroup>,
    evaluationId: string,
    constraintIds: seq<string>,
    feasibility: Feasibility)

  /** An effective-cost result; `cost` is absent when the cost is unknown. */
  datatype Evaluation = Evaluation(id: string, cost: Option<Money>, unknowns: seq<string>)

  function ToItemAllocation(c: Candidate): Allocation { c.allocation }

  function KeyOf(a: Allocation): ItemKey { a.key }

  function ItemKeyOf(item: CartItem): ItemKey { item.key }

  /** `plan.candidate_item_allocations or plan.item_allocations`, by identity. */
  function Allocations(plan: Plan): seq<Allocation> {
    if plan.candidates != [] then Map(ToItemAllocation, plan.candidates) else plan.items
  }

  function QuantityFor(key: ItemKey): Allocation -> int {
    (a: Allocation) => if a.key == key then a.quantity else 0
  }

  /** The quantity of `key` that the allocations add up to. */
  function Allocated(allocations: seq<Allocation>, key: ItemKey): int {
    Sum(QuantityFor(key), allocations)
  }

  /** The validator every `CandidatePlan` value has passed. */
  ghost predicate Consistent(plan: Plan) {
    plan.candidates == [] ||
    (&& |plan.candidates| == |plan.items|
     && forall i :: 0 <= i < |plan.candidates| ==>
          && plan.candidates[i].allocation in plan.items
          && (plan.candidates[i].semantics.Some? ==>
                && plan.candidates[i].semantics.value.variant == plan.candidates[i].allocation.key.variant
                && plan.candidates[i].semantics.value.requestedQuantity == plan.candidates[i].allocation.quantity))
  }

  /**
   * Count, membership and no duplicates leave one possibility: candidate and item
   * allocations are the same multiset of identities.
   */
  lemma {:induction false} CandidatesMatchItems(plan: Plan)
    requires Consistent(plan) && plan.candidates != [] && Distinct(Allocations(plan))
    ensures Permuted(Map(ToItemAllocation, plan.candidates), plan.items)
    ensures forall key :: Allocated(Map(ToItemAllocation, plan.candidates), key) == Allocated(plan.items, key)
  {
    var a := Map(ToItemAllocation, plan.candidates);
    forall x | x in a ensures x in plan.items {
      var i :| 0 <= i < |a| && a[i] == x;
      assert plan.candidates[i].allocation in plan.items;
    }
    Pigeonhole(a, plan.items);
    forall key ensures Allocated(a, key) == Allocated(plan.items, key) {
      SumPermuted(QuantityFor(key), a, plan.items);
    }
  }

  // ----- The requested cart and the evaluations as dictionaries

  function EvaluationId(e: Evaluation): string { e.id }

  /** The quantity asked for under each key. */
  function Requested(cart: seq<CartItem>): map<ItemKey, int> {
    var items := Dict(ItemKeyOf, cart);
    map key | key in items :: items[key].quantity
  }

  function Indexed(evaluations: seq<Evaluation>): map<string, Evaluation> { Dict(EvaluationId, evaluations) }

  lemma {:induction false} RequestedHolds(cart: seq<CartItem>)
    requires Distinct(Map(ItemKeyOf, cart))
    ensures forall i :: 0 <= i < |cart| ==> cart[i].key in Requested(cart) && Requested(cart)[cart[i].key] == cart[i].quantity
    ensures forall key :: key in Requested(cart) ==> CartItem(key, Requested(cart)[key]) in cart
  {
    hide Map, Dict, Distinct;
    DictHolds(ItemKeyOf, cart);
  }

  lemma {:induction false} NothingRequested(cart: seq<CartItem>)
    ensures Requested(cart) == map[] <==> cart == []
  {
    var items := Dict(ItemKeyOf, cart);
    if cart != [] {
      var key :| key in items;
      assert key in Requested(cart);
    }
  }
}
