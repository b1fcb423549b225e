/** Splitting a plan's allocations into the carts of its platforms. */
module PlatformGroups {
  import opened Outcomes
  import opened Ordering
  import opened CartPlans
  import opened Texts

  datatype PlatformCart = PlatformCart(
    platform: string, retailer: string, groupId: string, evaluationId: string, allocations: seq<Candidate>)

  function InGroup(id: string): Candidate -> bool { (c: Candidate) => c.allocation.group == id }

  function ByItemId(c: Candidate): Key { [Text(c.allocation.key.itemId)] }

  function AsKey(id: string): Key { [Text(id)] }

  function CartId(g: PlatformCart): Key { AsKey(g.groupId) }

  /** The allocations of one checkout group, by item id. */
  function Members(plan: Plan, id: string): seq<Candidate> {
    Sort(Filter(InGroup(id), plan.candidates), ByItemId)
  }

  function GroupIdOf(g: CheckoutGroup): string { g.id }

  /** The cart of one checkout group; an undeclared group falls back on the plan and its first allocation. */
  function CartFor(plan: Plan, id: string): PlatformCart
    requires Members(plan, id) != []
  {
    var members := Members(plan, id);
    var declared := Dict(GroupIdOf, plan.groups);
    PlatformCart(
      members[0].listing.platform,
      if id in declared then declared[id].retailer else members[0].allocation.retailer,
      id,
      if id in declared then declared[id].evaluationId else plan.evaluationId,
      members)
  }

  /**
   * The cart of group `cart.groupId`: some allocations of that group, on the platform of
   * the first; retailer and evaluation of a group declared under this id, or where none
   * is, the first allocation's retailer and the plan's evaluation.
   */
  ghost predicate CartHolds(plan: Plan, cart: PlatformCart) {
    && cart.allocations != []
    && (forall c :: c in cart.allocations <==> c in plan.candidates && c.allocation.group == cart.groupId)
    && (forall i, j :: 0 <= i < j < |cart.allocations| ==>
          TextLeq(cart.allocations[i].allocation.key.itemId, cart.allocations[j].allocation.key.itemId))
    && cart.platform == cart.allocations[0].listing.platform
    && if exists g :: g in plan.groups && g.id == cart.groupId
       then exists g :: g in plan.groups && g.id == cart.groupId && cart.retailer == g.retailer && cart.evaluationId == g.evaluationId
       else cart.retailer == cart.allocations[0].allocation.retailer && cart.evaluationId == plan.evaluationId
  }

  lemma {:induction false} DictMembers(groups: seq<CheckoutGroup>, id: string)
    ensures id in Dict(GroupIdOf, groups) <==> exists g :: g in groups && g.id == id
    ensures id in Dict(GroupIdOf, groups) ==> Dict(GroupIdOf, groups)[id] in groups && Dict(GroupIdOf, groups)[id].id == id
  {
    if groups != [] {
      var n := |groups| - 1;
      DictMembers(groups[..n], id);
      assert groups == groups[..n] + [groups[n]];
    }
  }

  lemma {:induction false} CartForHolds(plan: Plan, id: string)
    requires Members(plan, id) != []
    ensures CartHolds(plan, CartFor(plan, id)) && CartFor(plan, id).groupId == id
  {
    hide Sort, Filter, Dict, SortedBy;
    DictMembers(plan.groups, id);
    SortSorts(Filter(InGroup(id), plan.candidates), ByItemId);
    forall c ensures c in Members(plan, id) <==> c in plan.candidates && c.allocation.group == id {
      MembersAre(plan, id, c);
    }
    ItemOrder(Members(plan, id));
  }

  lemma {:induction false} ItemOrder(members: seq<Candidate>)
    requires SortedBy(members, ByItemId)
    ensures forall i, j :: 0 <= i < j < |members| ==>
      TextLeq(members[i].allocation.key.itemId, members[j].allocation.key.itemId)
  {
    hide KeyLeq, TextLeq;
    forall i, j | 0 <= i < j < |members|
      ensures TextLeq(members[i].allocation.key.itemId, members[j].allocation.key.itemId)
    {
      assert KeyLeq(ByItemId(members[i]), ByItemId(members[j]));
      TextKeyMeans(members[i].allocation.key.itemId, members[j].allocation.key.itemId);
    }
  }

  lemma {:induction false} GroupOrder(carts: seq<PlatformCart>)
    requires SortedBy(carts, CartId) && Distinct(Map(CartId, carts))
    ensures forall i, j :: 0 <= i < j < |carts| ==>
      carts[i].groupId != carts[j].groupId && TextLeq(carts[i].groupId, carts[j].groupId)
  {
    hide KeyLeq, TextLeq;
    forall i, j | 0 <= i < j < |carts|
      ensures carts[i].groupId != carts[j].groupId && TextLeq(carts[i].groupId, carts[j].groupId)
    {
      assert KeyLeq(CartId(carts[i]), CartId(carts[j]));
      assert Map(CartId, carts)[i] != Map(CartId, carts)[j];
      TextKeyMeans(carts[i].groupId, carts[j].groupId);
    }
  }

  /** The validators of a cart group: no blank platform, group id or evaluation id. */
  predicate Identified(cart: PlatformCart) { !Blank(cart.platform) && !Blank(cart.groupId) && !Blank(cart.evaluationId) }

  lemma {:induction false} IdentifiedMeans(cart: PlatformCart)
    requires Identified(cart)
    ensures !Blank(cart.platform) && !Blank(cart.groupId) && !Blank(cart.evaluationId)
  {
    hide Blank;
  }

  /** A group in use whose cart is refused. */
  ghost predicate Refused(plan: Plan, id: string) { Members(plan, id) != [] && !Identified(CartFor(plan, id)) }

  /** Everything the carts hold between them. */
  function AllAllocations(carts: seq<PlatformCart>): seq<Candidate> {
    if carts == [] then [] else AllAllocations(carts[..|carts| - 1]) + carts[|carts| - 1].allocations
  }

  lemma {:induction false} MembersAre(plan: Plan, id: string, c: Candidate)
    ensures multiset(Members(plan, id))[c] == if c.allocation.group == id then multiset(plan.candidates)[c] else 0
  {
    hide Sort, Filter;
    SortPermutes(Filter(InGroup(id), plan.candidates), ByItemId);
    FilterCount(InGroup(id), plan.candidates, c);
  }

  ghost predicate CartsOf(plan: Plan, carts: seq<PlatformCart>) {
    forall i :: 0 <= i < |carts| ==> Members(plan, carts[i].groupId) != [] && carts[i] == CartFor(plan, carts[i].groupId)
  }

  ghost predicate Covered(carts: seq<PlatformCart>, id: string) {
    exists i :: 0 <= i < |carts| && carts[i].groupId == id
  }

  lemma {:induction false} LastCart(plan: Plan, carts: seq<PlatformCart>, c: Candidate)
    requires CartsOf(plan, carts) && Distinct(Map(CartId, carts)) && carts != []
    ensures var n := |carts| - 1;
      && CartsOf(plan, carts[..n]) && Distinct(Map(CartId, carts[..n]))
      && carts[n].allocations == Members(plan, carts[n].groupId)
      && !Covered(carts[..n], carts[n].groupId)
      && (Covered(carts, c.allocation.group) <==>
            Covered(carts[..n], c.allocation.group) || carts[n].groupId == c.allocation.group)
  {
    hide Members, Map;
    var n := |carts| - 1;
    var front := carts[..n];
    assert Map(CartId, front) == Map(CartId, carts)[..n];
    DistinctFront(Map(CartId, carts), n);
    forall i | 0 <= i < n ensures front[i].groupId != carts[n].groupId {
      assert Map(CartId, carts)[i] != Map(CartId, carts)[n];
    }
    if i :| 0 <= i < |carts| && carts[i].groupId == c.allocation.group {
      assert i < n ==> front[i].groupId == c.allocation.group;
    }
  }

  /** A candidate is in the carts as often as in the plan when its group is among them, and not at all otherwise. */
  lemma {:induction false} Counted(plan: Plan, carts: seq<PlatformCart>, c: Candidate)
    requires CartsOf(plan, carts) && Distinct(Map(CartId, carts))
    ensures multiset(AllAllocations(carts))[c] ==
      if Covered(carts, c.allocation.group) then multiset(plan.candidates)[c] else 0
  {
    hide Members, Map, CartsOf, Distinct, CartFor;
    if carts != [] {
      var n := |carts| - 1;
      LastCart(plan, carts, c);
      Counted(plan, carts[..n], c);
      MembersAre(plan, carts[n].groupId, c);
    }
  }

  /** Each group in use, with its candidates in order. */
  ghost predicate Grouped(candidates: seq<Candidate>, grouped: map<string, seq<Candidate>>) {
    forall id :: if id in grouped then grouped[id] == Filter(InGroup(id), candidates) != []
                 else Filter(InGroup(id), candidates) == []
  }

  lemma {:induction false} GroupNext(candidates: seq<Candidate>, i: nat, grouped: map<string, seq<Candidate>>)
    requires i < |candidates| && Grouped(candidates[..i], grouped)
    ensures var id := candidates[i].allocation.group;
      Grouped(candidates[..i + 1], grouped[id := (if id in grouped then grouped[id] else []) + [candidates[i]]])
  {
    hide Filter;
    var c := candidates[i];
    var next := grouped[c.allocation.group :=
      (if c.allocation.group in grouped then grouped[c.allocation.group] else []) + [c]];
    forall id ensures if id in next then next[id] == Filter(InGroup(id), candidates[..i + 1]) != []
                      else Filter(InGroup(id), candidates[..i + 1]) == []
    {
      FilterSnoc(InGroup(id), candidates, i);
    }
  }

  lemma {:induction false} NothingGrouped()
    ensures Grouped([], map[])
  {
  }

  /** The first loop: `grouped.setdefault(group, []).append(allocation)`. */
  method GroupAllocations(plan: Plan) returns (grouped: map<string, seq<Candidate>>)
    ensures Grouped(plan.candidates, grouped)
  {
    hide Grouped;
    grouped := map[];
    NothingGrouped();
    assert plan.candidates[..0] == [];
    for i := 0 to |plan.candidates|
      invariant Grouped(plan.candidates[..i], grouped)
    {
      GroupNext(plan.candidates, i, grouped);
      var id := plan.candidates[i].allocation.group;
      grouped := grouped[id := (if id in grouped then grouped[id] else []) + [plan.candidates[i]]];
    }
    assert plan.candidates[..|plan.candidates|] == plan.candidates;
  }

  /**
   * `platform_cart_groups`: one cart per checkout group in use, in order of group
   * id, and between them every allocation of the plan exactly as often as it occurs.
   * It fails exactly when the cart of some group in use has a blank identifier.
   */
  method PlatformCarts(plan: Plan) returns (r: Option<seq<PlatformCart>>)
    ensures r.None? <==> exists id :: Refused(plan, id)
    ensures r.Some? ==>
      && CartsOf(plan, r.value) && (forall i :: 0 <= i < |r.value| ==> CartHolds(plan, r.value[i]))
      && (forall c :: c in r.value ==> !Blank(c.platform) && !Blank(c.groupId) && !Blank(c.evaluationId))
      && SortedBy(r.value, CartId) && Distinct(Map(CartId, r.value))
      && (forall i, j :: 0 <= i < j < |r.value| ==>
            r.value[i].groupId != r.value[j].groupId && TextLeq(r.value[i].groupId, r.value[j].groupId))
      && (forall i :: 0 <= i < |plan.candidates| ==> Covered(r.value, plan.candidates[i].allocation.group))
      && Permuted(AllAllocations(r.value), plan.candidates)
  {
    hide Map, SortedBy, CartFor, Filter, Covered, Members, AllAllocations, Distinct, AsKey, Permuted, Identified, CartHolds, TextLeq;
    var grouped := GroupAllocations(plan);
    forall id ensures id in grouped <==> Members(plan, id) != [] {
      MembersPresent(plan, id, grouped);
    }
    var filed: map<Key, PlatformCart> := map[];
    var left := grouped.Keys;
    while left != {}
      invariant left <= grouped.Keys
      invariant forall k :: k in filed ==>
        && k == CartId(filed[k]) && Members(plan, filed[k].groupId) != [] && filed[k] == CartFor(plan, filed[k].groupId)
      invariant forall id :: id in grouped.Keys - left ==> AsKey(id) in filed && !Refused(plan, id)
    {
      var id :| id in left;
      CartIsFor(plan, id);
      if !Identified(CartFor(plan, id)) {
        assert Refused(plan, id);
        return None;
      }
      filed := filed[AsKey(id) := CartFor(plan, id)];
      left := left - {id};
    }
    var carts := SortedValues(filed, CartId);
    forall i | 0 <= i < |plan.candidates| ensures Covered(carts, plan.candidates[i].allocation.group) {
      GroupIsUsed(plan, plan.candidates[i]);
      FiledIsCovered(carts, plan.candidates[i].allocation.group);
    }
    NothingLost(plan, carts);
    GroupOrder(carts);
    forall i | 0 <= i < |carts| ensures CartHolds(plan, carts[i]) {
      CartForHolds(plan, carts[i].groupId);
    }
    forall c | c in carts ensures !Blank(c.platform) && !Blank(c.groupId) && !Blank(c.evaluationId) {
      assert !Refused(plan, c.groupId);
      IdentifiedMeans(c);
    }
    return Some(carts);
  }

  lemma {:induction false} NothingLost(plan: Plan, carts: seq<PlatformCart>)
    requires CartsOf(plan, carts) && Distinct(Map(CartId, carts))
    requires forall i :: 0 <= i < |plan.candidates| ==> Covered(carts, plan.candidates[i].allocation.group)
    ensures Permuted(AllAllocations(carts), plan.candidates)
  {
    hide Map, CartsOf, Distinct, Covered, AllAllocations;
    forall c ensures multiset(AllAllocations(carts))[c] == multiset(plan.candidates)[c] {
      Counted(plan, carts, c);
      if c in plan.candidates {
        var j :| 0 <= j < |plan.candidates| && plan.candidates[j] == c;
      }
    }
  }

  lemma {:induction false} FiledIsCovered(carts: seq<PlatformCart>, id: string)
    requires AsKey(id) in Map(CartId, carts)
    ensures Covered(carts, id)
  {
    hide Map;
    var n :| 0 <= n < |carts| && Map(CartId, carts)[n] == AsKey(id);
    assert AsKey(carts[n].groupId)[0] == AsKey(id)[0];
  }

  lemma {:induction false} MembersPresent(plan: Plan, id: string, grouped: map<string, seq<Candidate>>)
    requires Grouped(plan.candidates, grouped)
    ensures id in grouped <==> Members(plan, id) != []
  {
    hide Sort, Filter;
    SortPermutes(Filter(InGroup(id), plan.candidates), ByItemId);
    PermutedBasics(Members(plan, id), Filter(InGroup(id), plan.candidates));
  }

  lemma {:induction false} GroupIsUsed(plan: Plan, c: Candidate)
    requires c in plan.candidates
    ensures Members(plan, c.allocation.group) != []
  {
    hide Members;
    MembersAre(plan, c.allocation.group, c);
  }

  lemma {:induction false} CartIsFor(plan: Plan, id: string)
    requires Members(plan, id) != []
    ensures CartFor(plan, id).groupId == id
  {
  }
}
