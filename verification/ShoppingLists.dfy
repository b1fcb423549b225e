/**
 * The rows a shopping-list transaction reads and writes, and what each route
 * handler does to them once it holds the list's row lock.
 */
module ShoppingLists {
  import opened Outcomes

  datatype Item = Item(query: string, quantity: int, confirmed: bool)

  datatype ShoppingList = ShoppingList(
    owner: string,
    name: string,
    revision: int,
    archived: bool,
    items: map<string, Item>)

  /**
   * The inputs a stored optimization was computed from. The route digests them
   * into `request_id`; with an injective digest the inputs are the identity.
   */
  datatype Snapshot = Snapshot(
    user: string,
    list: string,
    revision: int,
    items: map<string, Item>,
    policy: string)

  datatype Optimization = Optimization(requestId: Digest<Snapshot>, inputs: Snapshot, status: string)

  datatype Operation =
    | CreateList(list: string, name: string)
    | UpdateList(list: string, newName: Option<string>, archive: Option<bool>)
    | AddItem(list: string, newItem: string, item: Item, evidenceCurrent: bool)
    | UpdateItem(list: string, itemId: string, quantity: int)
    | DeleteItem(list: string, itemId: string)
    | Optimize(list: string, expectedRevision: int, policy: string, plannerStatus: string)

  datatype HttpError =
    | ListNotFound
    | ListArchived
    | EvidenceStale
    | ItemNotFound
    | StaleRevision(current: int)
    | IdentityConflict

  /** What one handler leaves in its open transaction. */
  datatype Work =
    | Created(list: string, row: ShoppingList)
    | Mutated(list: string, before: ShoppingList, row: ShoppingList)
    | Planned(list: string, row: ShoppingList, result: Optimization, reused: bool)

  function FindRequest(stored: seq<Optimization>, user: string, requestId: Digest<Snapshot>): (r: Option<Optimization>)
    ensures r.Some? ==> r.value in stored && r.value.requestId == requestId && r.value.inputs.user == user
    ensures r.None? ==> forall o :: o in stored ==> !(o.requestId == requestId && o.inputs.user == user)
  {
    if stored == [] then None
    else if stored[0].requestId == requestId && stored[0].inputs.user == user then Some(stored[0])
    else FindRequest(stored[1..], user, requestId)
  }

  function Revised(row: ShoppingList, items: map<string, Item>): ShoppingList {
    row.(items := items, revision := row.revision + 1)
  }

  /** The handler bodies between taking the row lock and `complete`. */
  function Perform(
    operation: Operation, user: string, lists: map<string, ShoppingList>, stored: seq<Optimization>
  ): Result<Work, HttpError> {
    var list := operation.list;
    if operation.CreateList? then
      Ok(Created(list, ShoppingList(user, operation.name, 1, false, map[])))
    else if list !in lists || lists[list].owner != user then
      Err(ListNotFound)
    else
      var row := lists[list];
      match operation
      case UpdateList(_, newName, archive) =>
        var named := if newName.Some? then row.(name := newName.value) else row;
        var shelved := if archive.Some? then named.(archived := archive.value) else named;
        Ok(Mutated(list, row, shelved.(revision := row.revision + 1)))
      case AddItem(_, newItem, item, evidenceCurrent) =>
        if row.archived then Err(ListArchived)
        else if item.confirmed && !evidenceCurrent then Err(EvidenceStale)
        else Ok(Mutated(list, row, Revised(row, row.items[newItem := item])))
      case UpdateItem(_, itemId, quantity) =>
        if row.archived then Err(ListArchived)
        else if itemId !in row.items then Err(ItemNotFound)
        else Ok(Mutated(list, row, Revised(row, row.items[itemId := row.items[itemId].(quantity := quantity)])))
      case DeleteItem(_, itemId) =>
        if row.archived then Err(ListArchived)
        else if itemId !in row.items then Err(ItemNotFound)
        else Ok(Mutated(list, row, Revised(row, row.items - {itemId})))
      case Optimize(_, expectedRevision, policy, plannerStatus) =>
        if row.archived then Err(ListArchived)
        else if row.revision != expectedRevision then Err(StaleRevision(row.revision))
        else
          var inputs := Snapshot(user, list, row.revision, row.items, policy);
          var existing := FindRequest(stored, user, Sha256(inputs));
          if existing.None? then
            Ok(Planned(list, row, Optimization(Sha256(inputs), inputs, plannerStatus), false))
          else if existing.value.inputs != inputs then
            Err(IdentityConflict)
          else
            Ok(Planned(list, row, existing.value, true))
  }

  // ----- What a route promises its caller, and what it may refuse

  /** Nothing of the row but its items has changed, and the revision went up by one. */
  predicate OnlyItemsChanged(before: ShoppingList, after: ShoppingList) {
    && after.owner == before.owner && after.name == before.name && after.archived == before.archived
    && after.revision == before.revision + 1
  }

  /** No item but `id` has come, gone or changed. */
  ghost predicate OtherItemsKept(id: string, before: map<string, Item>, after: map<string, Item>) {
    forall k :: k != id ==> (k in after <==> k in before) && (k in before ==> after[k] == before[k])
  }

  /** The row before and after an operation on an existing list. */
  ghost predicate Edits(operation: Operation, before: ShoppingList, after: ShoppingList) {
    match operation
    case CreateList(_, _) => false
    case UpdateList(_, newName, archive) =>
      && after.owner == before.owner && after.items == before.items && after.revision == before.revision + 1
      && (newName.Some? ==> after.name == newName.value) && (newName.None? ==> after.name == before.name)
      && (archive.Some? ==> after.archived == archive.value) && (archive.None? ==> after.archived == before.archived)
    case AddItem(_, newItem, item, _) =>
      && !before.archived && OnlyItemsChanged(before, after) && OtherItemsKept(newItem, before.items, after.items)
      && newItem in after.items && after.items[newItem] == item
    case UpdateItem(_, itemId, quantity) =>
      && !before.archived && OnlyItemsChanged(before, after) && OtherItemsKept(itemId, before.items, after.items)
      && itemId in before.items && itemId in after.items
      && after.items[itemId].quantity == quantity
      && after.items[itemId].query == before.items[itemId].query && after.items[itemId].confirmed == before.items[itemId].confirmed
    case DeleteItem(_, itemId) =>
      && !before.archived && OnlyItemsChanged(before, after) && OtherItemsKept(itemId, before.items, after.items)
      && itemId in before.items && itemId !in after.items
    case Optimize(_, expectedRevision, _, _) =>
      !before.archived && before.revision == expectedRevision && after == before
  }

  ghost predicate Founds(operation: Operation, user: string, row: ShoppingList) {
    operation.CreateList? && row.owner == user && row.name == operation.name && row.revision == 1 && !row.archived && |row.items| == 0
  }

  /** The table of lists before and after the commit of an operation. */
  ghost predicate Changes(operation: Operation, user: string, before: map<string, ShoppingList>, after: map<string, ShoppingList>) {
    var list := operation.list;
    && (forall l :: l != list ==> (l in after <==> l in before) && (l in before ==> after[l] == before[l]))
    && list in after
    && if operation.CreateList? then list !in before && Founds(operation, user, after[list])
       else list in before && before[list].owner == user && Edits(operation, before[list], after[list])
  }

  /** What an optimization of `row` was asked to be computed from. */
  predicate AskedOf(operation: Operation, user: string, row: ShoppingList, o: Optimization) {
    && operation.Optimize? && o.inputs.user == user && o.inputs.list == operation.list && o.inputs.policy == operation.policy
    && o.inputs.revision == row.revision && o.inputs.items == row.items
  }

  /** The stored optimizations before and after the commit: one more, the one asked for, unless it was there. */
  ghost predicate Stores(
    operation: Operation, user: string, lists: map<string, ShoppingList>, before: seq<Optimization>, after: seq<Optimization>)
  {
    if operation.Optimize? then
      && operation.list in lists
      && exists o :: o in after && AskedOf(operation, user, lists[operation.list], o)
           && (after == before || (after == before + [o] && o.status == operation.plannerStatus
                 && forall p :: p in before ==> !AskedOf(operation, user, lists[operation.list], p)))
    else after == before
  }

  /** `error` is what the operation is refused with on these lists. */
  predicate Refuses(operation: Operation, user: string, lists: map<string, ShoppingList>, error: HttpError) {
    var list := operation.list;
    var owned := list in lists && lists[list].owner == user;
    match error
    case ListNotFound => !operation.CreateList? && !owned
    case ListArchived => owned && lists[list].archived && !operation.CreateList? && !operation.UpdateList?
    case EvidenceStale =>
      owned && !lists[list].archived && operation.AddItem? && operation.item.confirmed && !operation.evidenceCurrent
    case ItemNotFound =>
      owned && !lists[list].archived && (operation.UpdateItem? || operation.DeleteItem?) && operation.itemId !in lists[list].items
    case StaleRevision(current) =>
      && owned && !lists[list].archived && operation.Optimize?
      && current == lists[list].revision != operation.expectedRevision
    case IdentityConflict => false
  }

  /** The work left in an open transaction is what the operation promises. */
  ghost predicate Does(operation: Operation, user: string, work: Work) {
    && work.list == operation.list
    && match work
       case Created(_, row) => Founds(operation, user, row)
       case Mutated(_, before, row) => !operation.Optimize? && before.owner == user && Edits(operation, before, row)
       case Planned(_, row, result, reused) =>
         && row.owner == user && Edits(operation, row, row) && AskedOf(operation, user, row, result)
         && (!reused ==> result.status == operation.plannerStatus)
  }

  lemma {:induction false} ItemPut(items: map<string, Item>, id: string, item: Item)
    ensures OtherItemsKept(id, items, items[id := item])
  {
  }

  lemma {:induction false} ItemRemoved(items: map<string, Item>, id: string)
    ensures OtherItemsKept(id, items, items - {id})
  {
  }

  lemma {:induction false} HandlersDo(
    operation: Operation, user: string, lists: map<string, ShoppingList>, stored: seq<Optimization>)
    requires Perform(operation, user, lists, stored) != Err(IdentityConflict)
    ensures Perform(operation, user, lists, stored).Ok? ==> Does(operation, user, Perform(operation, user, lists, stored).value)
  {
    hide FindRequest, OtherItemsKept;
    var done := Perform(operation, user, lists, stored);
    if done.Ok? && done.value.Mutated? {
      var before := done.value.before;
      match operation
      case AddItem(_, newItem, item, _) => ItemPut(before.items, newItem, item);
      case UpdateItem(_, itemId, quantity) => ItemPut(before.items, itemId, before.items[itemId].(quantity := quantity));
      case DeleteItem(_, itemId) => ItemRemoved(before.items, itemId);
      case _ =>
    }
  }

  lemma {:induction false} HandlersRefuse(
    operation: Operation, user: string, lists: map<string, ShoppingList>, stored: seq<Optimization>)
    requires Perform(operation, user, lists, stored) != Err(IdentityConflict)
    ensures forall e :: Perform(operation, user, lists, stored) == Err(e) <==> Refuses(operation, user, lists, e)
  {
    hide FindRequest;
  }

  /** Every handler does what it promises, or refuses exactly for the reasons it may. */
  lemma {:induction false} HandlersKeepTheirPromises(
    operation: Operation, user: string, lists: map<string, ShoppingList>, stored: seq<Optimization>)
    requires Perform(operation, user, lists, stored) != Err(IdentityConflict)
    ensures Perform(operation, user, lists, stored).Ok? ==> Does(operation, user, Perform(operation, user, lists, stored).value)
    ensures forall e :: Perform(operation, user, lists, stored) == Err(e) <==> Refuses(operation, user, lists, e)
  {
    hide Perform, Does, Refuses;
    HandlersDo(operation, user, lists, stored);
    HandlersRefuse(operation, user, lists, stored);
  }
}
