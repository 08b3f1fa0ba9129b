/**
 * The server-side to-do router: one query (`getAllLists`) and five
 * mutations over an owner-scoped store of lists and items. Every
 * procedure runs for an authenticated caller; the store is a pair of maps
 * keyed by row id and each procedure runs atomically against it.
 *
 * Two facts come from the database schema rather than from the router and
 * are assumptions of this model: deleting a list deletes its items, and a
 * new item starts with `completed == false`.
 */
module TodoRouter {
  import opened Api
  import opened Sorting

  const MaxListTitle := 100
  const MaxDescription := 500
  const MaxItemTitle := 200

  const ListTitleRequired := "List Title is Required"
  const ItemTitleRequired := "Item Title is Required"
  const TitleTooLong := "Title is too long"
  const DescriptionTooLong := "Description is too long"
  const ListNotFound := "List not found or you don't have permission"
  const ItemNotFound := "Item not found or you don't have permission"

  // ---------------------------------------------------------------------
  // Input validation (runs before any handler touches the store)
  // ---------------------------------------------------------------------

  /** The input errors of `createList`: title of 1 to 100 characters, optional description of at most 500. */
  function ValidateCreateList(title: string, description: Option<string>): (errors: FieldErrors)
    ensures errors.Keys <= {"title", "description"}
    ensures "title" in errors <==> !(1 <= |title| <= MaxListTitle)
    ensures "title" in errors ==>
      errors["title"] == [if |title| == 0 then ListTitleRequired else TitleTooLong]
    ensures "description" in errors <==> description.Some? && |description.value| > MaxDescription
    ensures "description" in errors ==> errors["description"] == [DescriptionTooLong]
  {
    var titleErrors: FieldErrors :=
      if |title| < 1 then map["title" := [ListTitleRequired]]
      else if |title| > MaxListTitle then map["title" := [TitleTooLong]]
      else map[];
    if description.Some? && |description.value| > MaxDescription then
      titleErrors["description" := [DescriptionTooLong]]
    else
      titleErrors
  }

  /** The input errors of `addItem`: title of 1 to 200 characters; any list id is well-formed. */
  function ValidateAddItem(title: string): (errors: FieldErrors)
    ensures errors.Keys <= {"title"}
    ensures "title" in errors <==> !(1 <= |title| <= MaxItemTitle)
    ensures "title" in errors ==>
      errors["title"] == [if |title| == 0 then ItemTitleRequired else TitleTooLong]
  {
    if |title| < 1 then map["title" := [ItemTitleRequired]]
    else if |title| > MaxItemTitle then map["title" := [TitleTooLong]]
    else map[]
  }

  // ---------------------------------------------------------------------
  // Store shape and ownership
  // ---------------------------------------------------------------------

  /** Every item is stored under its own id. */
  ghost predicate ItemsKeyed(items: map<ItemId, TodoItem>)
  {
    forall id :: id in items ==> items[id].id == id
  }

  /** Every row is stored under its own id. */
  ghost predicate WellKeyed(lists: map<ListId, TodoList>, items: map<ItemId, TodoItem>)
  {
    && (forall id :: id in lists ==> lists[id].id == id)
    && ItemsKeyed(items)
  }

  /** The list exists and belongs to the caller. */
  predicate OwnsList(lists: map<ListId, TodoList>, listId: ListId, caller: UserId)
  {
    listId in lists && lists[listId].createdById == caller
  }

  /** The item exists and the list holding it belongs to the caller. */
  predicate OwnsItem(lists: map<ListId, TodoList>, items: map<ItemId, TodoItem>,
                     itemId: ItemId, caller: UserId)
  {
    itemId in items && OwnsList(lists, items[itemId].todoListId, caller)
  }

  // ---------------------------------------------------------------------
  // getAllLists
  // ---------------------------------------------------------------------

  /** `s` lists every item of list `listId`, once, oldest first. */
  ghost predicate IsItemListing(s: seq<TodoItem>, items: map<ItemId, TodoItem>, listId: ListId)
  {
    && (forall j :: 0 <= j < |s| ==> s[j].id in items && items[s[j].id] == s[j] && s[j].todoListId == listId)
    && (forall id :: id in items && items[id].todoListId == listId ==>
          exists j :: 0 <= j < |s| && s[j].id == id)
    && (forall j, k :: 0 <= j < k < |s| ==> s[j].id != s[k].id)
    && (forall j, k :: 0 <= j < k < |s| ==> s[j].createdAt <= s[k].createdAt)
  }

  /**
   * `r` lists every list `caller` owns and no other, once each, newest
   * first, each with all its items oldest first.
   */
  ghost predicate IsListListing(r: seq<ListWithItems>, lists: map<ListId, TodoList>,
                                items: map<ItemId, TodoItem>, caller: UserId)
  {
    && (forall i :: 0 <= i < |r| ==>
          r[i].list.id in lists && lists[r[i].list.id] == r[i].list && r[i].list.createdById == caller)
    && (forall id :: OwnsList(lists, id, caller) ==> exists i :: 0 <= i < |r| && r[i].list.id == id)
    && (forall i, j :: 0 <= i < j < |r| ==> r[i].list.id != r[j].list.id)
    && (forall i, j :: 0 <= i < j < |r| ==> r[i].list.createdAt >= r[j].list.createdAt)
    && (forall i :: 0 <= i < |r| ==> IsItemListing(r[i].todoItems, items, r[i].list.id))
  }

  ghost function ItemIdsOf(items: map<ItemId, TodoItem>, listId: ListId): set<ItemId>
  {
    set id | id in items && items[id].todoListId == listId
  }

  ghost function OwnedIds(lists: map<ListId, TodoList>, caller: UserId): set<ListId>
  {
    set id | id in lists && lists[id].createdById == caller
  }

  /** Sort key of the nested items: creation stamp, ascending. */
  function ItemOrder(items: map<ItemId, TodoItem>): ItemId -> int
  {
    id => if id in items then items[id].createdAt as int else 0
  }

  /** Sort key of the lists: creation stamp, descending. */
  function ListOrder(lists: map<ListId, TodoList>): ListId -> int
  {
    id => if id in lists then -(lists[id].createdAt as int) else 0
  }

  function ItemRows(ids: seq<ItemId>, items: map<ItemId, TodoItem>): seq<TodoItem>
    requires forall j :: 0 <= j < |ids| ==> ids[j] in items
  {
    seq(|ids|, j requires 0 <= j < |ids| => items[ids[j]])
  }

  lemma ItemRowsAreListing(ids: seq<ItemId>, items: map<ItemId, TodoItem>, listId: ListId)
    requires ItemsKeyed(items)
    requires IsSortedListing(ids, ItemIdsOf(items, listId), ItemOrder(items))
    ensures forall j :: 0 <= j < |ids| ==> ids[j] in items
    ensures IsItemListing(ItemRows(ids, items), items, listId)
  {
    var s := ItemRows(ids, items);
    forall id | id in items && items[id].todoListId == listId
      ensures exists j :: 0 <= j < |s| && s[j].id == id
    {
      assert id in ItemIdsOf(items, listId);
      var j :| 0 <= j < |ids| && ids[j] == id;
      assert s[j].id == id;
    }
    forall j, k | 0 <= j < k < |s| ensures s[j].createdAt <= s[k].createdAt {
      assert ItemOrder(items)(ids[j]) <= ItemOrder(items)(ids[k]);
    }
  }

  /** The items of one list, ordered by creation stamp ascending. */
  ghost function ItemsOf(items: map<ItemId, TodoItem>, listId: ListId): (s: seq<TodoItem>)
    requires ItemsKeyed(items)
    ensures IsItemListing(s, items, listId)
  {
    var ids := SortedBy(ItemIdsOf(items, listId), ItemOrder(items));
    ItemRowsAreListing(ids, items, listId);
    ItemRows(ids, items)
  }

  ghost function ListRows(ids: seq<ListId>, lists: map<ListId, TodoList>,
                          items: map<ItemId, TodoItem>): seq<ListWithItems>
    requires ItemsKeyed(items)
    requires forall i :: 0 <= i < |ids| ==> ids[i] in lists
  {
    seq(|ids|, i requires 0 <= i < |ids| => ListWithItems(lists[ids[i]], ItemsOf(items, ids[i])))
  }

  lemma ListRowsAreListing(ids: seq<ListId>, lists: map<ListId, TodoList>,
                           items: map<ItemId, TodoItem>, caller: UserId)
    requires WellKeyed(lists, items)
    requires IsSortedListing(ids, OwnedIds(lists, caller), ListOrder(lists))
    ensures forall i :: 0 <= i < |ids| ==> ids[i] in lists
    ensures IsListListing(ListRows(ids, lists, items), lists, items, caller)
  {
    var r := ListRows(ids, lists, items);
    forall id | OwnsList(lists, id, caller)
      ensures exists i :: 0 <= i < |r| && r[i].list.id == id
    {
      assert id in OwnedIds(lists, caller);
      var i :| 0 <= i < |ids| && ids[i] == id;
      assert r[i].list.id == id;
    }
    forall i, j | 0 <= i < j < |r| ensures r[i].list.createdAt >= r[j].list.createdAt {
      assert ListOrder(lists)(ids[i]) <= ListOrder(lists)(ids[j]);
    }
  }

  /**
   * The result of `getAllLists` for `caller`, or nothing when the store
   * faults: the query never reports a failure.
   */
  ghost function GetAllLists(lists: map<ListId, TodoList>, items: map<ItemId, TodoItem>,
                             caller: UserId, fault: bool): (r: seq<ListWithItems>)
    requires WellKeyed(lists, items)
    ensures fault ==> r == []
    ensures !fault ==> IsListListing(r, lists, items, caller)
  {
    if fault then []
    else
      var ids := SortedBy(OwnedIds(lists, caller), ListOrder(lists));
      ListRowsAreListing(ids, lists, items, caller);
      ListRows(ids, lists, items)
  }

  // ---------------------------------------------------------------------
  // The store and the mutations
  // ---------------------------------------------------------------------

  class Store {
    var lists: map<ListId, TodoList>
    var items: map<ItemId, TodoItem>
    /** Next row id to hand out; every id in use is below it. */
    var nextId: nat
    /** Next creation stamp; every stamp in use is below it. */
    var clock: Stamp

    ghost predicate Valid()
      reads this
    {
      && WellKeyed(lists, items)
      && (forall id :: id in lists ==> id < nextId)
      && (forall id :: id in items ==> id < nextId)
      && (forall id :: id in items ==> items[id].todoListId in lists)
      && (forall id :: id in lists ==> lists[id].createdAt < clock)
      && (forall id :: id in items ==> items[id].createdAt < clock)
    }

    constructor ()
      ensures Valid()
      ensures lists == map[] && items == map[]
    {
      lists, items := map[], map[];
      nextId, clock := 0, 0;
    }

    /** `createList`: validate, then insert a list owned by the caller. */
    method CreateList(caller: UserId, title: string, description: Option<string>)
      returns (r: Outcome<ListWithItems>)
      requires Valid()
      modifies this
      ensures Valid()
      ensures ValidateCreateList(title, description) != map[] ==>
        r == Err(BadInput(ValidateCreateList(title, description))) && unchanged(this)
      ensures ValidateCreateList(title, description) == map[] ==>
        && r.Ok?
        && var l := r.value.list;
        && l.id !in old(lists)
        && l == TodoList(l.id, title, description, caller, l.createdAt)
        && r.value.todoItems == []
        && lists == old(lists)[l.id := l]
        && items == old(items)
        && (forall id :: id in old(lists) ==> old(lists)[id].createdAt < l.createdAt)
        && (forall id :: id in old(items) ==> old(items)[id].createdAt < l.createdAt)
    {
      var errors := ValidateCreateList(title, description);
      if errors != map[] {
        return Err(BadInput(errors));
      }
      var l := TodoList(nextId, title, description, caller, clock);
      lists := lists[nextId := l];
      nextId, clock := nextId + 1, clock + 1;
      r := Ok(ListWithItems(l, []));
    }

    /** `deleteList`: only the owner may delete; the list's items go with it. */
    method DeleteList(caller: UserId, listId: ListId) returns (r: Outcome<TodoList>)
      requires Valid()
      modifies this
      ensures Valid()
      ensures r.Ok? <==> OwnsList(old(lists), listId, caller)
      ensures !OwnsList(old(lists), listId, caller) ==>
        r == Err(Failed(ListNotFound)) && unchanged(this)
      ensures OwnsList(old(lists), listId, caller) ==>
        && r.value == old(lists)[listId]
        && lists == old(lists) - {listId}
        && items == (map id | id in old(items) && old(items)[id].todoListId != listId :: old(items)[id])
        && nextId == old(nextId) && clock == old(clock)
    {
      if !OwnsList(lists, listId, caller) {
        return Err(Failed(ListNotFound));
      }
      r := Ok(lists[listId]);
      lists := lists - {listId};
      // The schema's cascade removes the list's items.
      items := map id | id in items && items[id].todoListId != listId :: items[id];
    }

    /** `addItem`: validate, check ownership of the list, then insert an incomplete item. */
    method AddItem(caller: UserId, listId: ListId, title: string) returns (r: Outcome<TodoItem>)
      requires Valid()
      modifies this
      ensures Valid()
      ensures ValidateAddItem(title) != map[] ==>
        r == Err(BadInput(ValidateAddItem(title))) && unchanged(this)
      ensures ValidateAddItem(title) == map[] && !OwnsList(old(lists), listId, caller) ==>
        r == Err(Failed(ListNotFound)) && unchanged(this)
      ensures ValidateAddItem(title) == map[] && OwnsList(old(lists), listId, caller) ==>
        && r.Ok?
        && var it := r.value;
        && it.id !in old(items)
        && it == TodoItem(it.id, title, false, listId, it.createdAt)
        && items == old(items)[it.id := it]
        && lists == old(lists)
        && (forall id :: id in old(items) ==> old(items)[id].createdAt < it.createdAt)
    {
      var errors := ValidateAddItem(title);
      if errors != map[] {
        return Err(BadInput(errors));
      }
      if !OwnsList(lists, listId, caller) {
        return Err(Failed(ListNotFound));
      }
      // The schema's default makes a new item incomplete.
      var it := TodoItem(nextId, title, false, listId, clock);
      items := items[nextId := it];
      nextId, clock := nextId + 1, clock + 1;
      r := Ok(it);
    }

    /** `toggleItem`: only the owner of the item's list may flip its completed flag. */
    method ToggleItem(caller: UserId, itemId: ItemId) returns (r: Outcome<TodoItem>)
      requires Valid()
      modifies this
      ensures Valid()
      ensures r.Ok? <==> OwnsItem(old(lists), old(items), itemId, caller)
      ensures !OwnsItem(old(lists), old(items), itemId, caller) ==>
        r == Err(Failed(ItemNotFound)) && unchanged(this)
      ensures OwnsItem(old(lists), old(items), itemId, caller) ==>
        && r.value == old(items)[itemId].(completed := !old(items)[itemId].completed)
        && items == old(items)[itemId := r.value]
        && lists == old(lists) && nextId == old(nextId) && clock == old(clock)
    {
      if !OwnsItem(lists, items, itemId, caller) {
        return Err(Failed(ItemNotFound));
      }
      var it := items[itemId];
      var updated := it.(completed := !it.completed);
      items := items[itemId := updated];
      r := Ok(updated);
    }

    /** `deleteItem`: only the owner of the item's list may delete it. */
    method DeleteItem(caller: UserId, itemId: ItemId) returns (r: Outcome<TodoItem>)
      requires Valid()
      modifies this
      ensures Valid()
      ensures r.Ok? <==> OwnsItem(old(lists), old(items), itemId, caller)
      ensures !OwnsItem(old(lists), old(items), itemId, caller) ==>
        r == Err(Failed(ItemNotFound)) && unchanged(this)
      ensures OwnsItem(old(lists), old(items), itemId, caller) ==>
        && r.value == old(items)[itemId]
        && items == old(items) - {itemId}
        && lists == old(lists) && nextId == old(nextId) && clock == old(clock)
    {
      if !OwnsItem(lists, items, itemId, caller) {
        return Err(Failed(ItemNotFound));
      }
      r := Ok(items[itemId]);
      items := items - {itemId};
    }
  }

  // ---------------------------------------------------------------------
  // What the caller sees after a mutation
  // ---------------------------------------------------------------------

  /**
   * A list that `createList` has just inserted is the first one the
   * owner's next `getAllLists` returns, with no items; if the caller
   * owned no list before, it is the only one.
   */
  lemma CreatedListComesFirst(lists: map<ListId, TodoList>, items: map<ItemId, TodoItem>,
                              caller: UserId, l: TodoList)
    requires WellKeyed(lists, items)
    requires l.id !in lists && l.createdById == caller
    requires forall id :: id in lists ==> lists[id].createdAt < l.createdAt
    requires forall id :: id in items ==> items[id].todoListId != l.id
    ensures WellKeyed(lists[l.id := l], items)
    ensures var r := GetAllLists(lists[l.id := l], items, caller, false);
      && |r| > 0 && r[0] == ListWithItems(l, [])
      && ((forall id :: id in lists ==> lists[id].createdById != caller) ==> r == [ListWithItems(l, [])])
  {
    var lists' := lists[l.id := l];
    var r := GetAllLists(lists', items, caller, false);
    assert OwnsList(lists', l.id, caller);
    var i :| 0 <= i < |r| && r[i].list.id == l.id;
    assert r[0].list == l;
  }

  /**
   * An item that `addItem` has just inserted is the last item of its list
   * in the owner's next `getAllLists`.
   */
  lemma AddedItemComesLast(lists: map<ListId, TodoList>, items: map<ItemId, TodoItem>,
                           caller: UserId, it: TodoItem)
    requires WellKeyed(lists, items)
    requires it.id !in items && OwnsList(lists, it.todoListId, caller)
    requires forall id :: id in items ==> items[id].createdAt < it.createdAt
    ensures WellKeyed(lists, items[it.id := it])
    ensures var r := GetAllLists(lists, items[it.id := it], caller, false);
      forall i :: 0 <= i < |r| && r[i].list.id == it.todoListId ==>
        |r[i].todoItems| > 0 && r[i].todoItems[|r[i].todoItems| - 1] == it
  {
    var items' := items[it.id := it];
    assert ItemsKeyed(items');
    NewestItemIsLastInEveryListing(GetAllLists(lists, items', caller, false), lists, items', caller, it);
  }

  lemma NewestItemIsLastInEveryListing(r: seq<ListWithItems>, lists: map<ListId, TodoList>,
                                       items: map<ItemId, TodoItem>, caller: UserId, it: TodoItem)
    requires IsListListing(r, lists, items, caller)
    requires it.id in items && items[it.id] == it
    requires forall id :: id in items && id != it.id ==> items[id].createdAt < it.createdAt
    ensures forall i :: 0 <= i < |r| && r[i].list.id == it.todoListId ==>
      |r[i].todoItems| > 0 && r[i].todoItems[|r[i].todoItems| - 1] == it
  {
    forall i | 0 <= i < |r| && r[i].list.id == it.todoListId
      ensures |r[i].todoItems| > 0 && r[i].todoItems[|r[i].todoItems| - 1] == it
    {
      NewestItemIsLast(r[i].todoItems, items, it.todoListId, it);
    }
  }

  /** In an item listing, an item strictly newer than every other comes last. */
  lemma NewestItemIsLast(s: seq<TodoItem>, items: map<ItemId, TodoItem>, listId: ListId, it: TodoItem)
    requires IsItemListing(s, items, listId)
    requires it.id in items && items[it.id] == it && it.todoListId == listId
    requires forall id :: id in items && id != it.id ==> items[id].createdAt < it.createdAt
    ensures |s| > 0 && s[|s| - 1] == it
  {
    var j :| 0 <= j < |s| && s[j].id == it.id;
    assert s[|s| - 1].id in items;
  }

  /** After `deleteList`, no caller's `getAllLists` shows the list or any of its items. */
  lemma DeletedListIsGone(lists: map<ListId, TodoList>, items: map<ItemId, TodoItem>,
                          caller: UserId, listId: ListId)
    requires WellKeyed(lists, items)
    ensures var items' := map id | id in items && items[id].todoListId != listId :: items[id];
      && WellKeyed(lists - {listId}, items')
      && var r := GetAllLists(lists - {listId}, items', caller, false);
      && (forall i :: 0 <= i < |r| ==> r[i].list.id != listId)
      && (forall i, j :: 0 <= i < |r| && 0 <= j < |r[i].todoItems| ==>
            r[i].todoItems[j].todoListId != listId)
  {
  }

  // ---------------------------------------------------------------------
  // Repeating a mutation
  // ---------------------------------------------------------------------

  /** Toggling an item twice restores the store; the two calls succeed or fail together. */
  method ToggleTwice(store: Store, caller: UserId, itemId: ItemId)
    returns (first: Outcome<TodoItem>, second: Outcome<TodoItem>)
    requires store.Valid()
    modifies store
    ensures store.Valid()
    ensures first.Ok? <==> second.Ok?
    ensures first.Ok? ==> itemId in old(store.items) && first.value.completed == !old(store.items)[itemId].completed
    ensures store.items == old(store.items) && store.lists == old(store.lists)
    ensures store.nextId == old(store.nextId) && store.clock == old(store.clock)
  {
    first := store.ToggleItem(caller, itemId);
    second := store.ToggleItem(caller, itemId);
  }

  /** Adding the same title twice adds two distinct items. */
  method AddItemTwice(store: Store, caller: UserId, listId: ListId, title: string)
    returns (first: Outcome<TodoItem>, second: Outcome<TodoItem>)
    requires store.Valid()
    modifies store
    ensures store.Valid()
    ensures first.Ok? <==> second.Ok?
    ensures first.Ok? ==>
      && first.value.id != second.value.id
      && first.value.title == second.value.title == title
      && store.items == old(store.items)[first.value.id := first.value][second.value.id := second.value]
      && |store.items| == |old(store.items)| + 2
  {
    first := store.AddItem(caller, listId, title);
    second := store.AddItem(caller, listId, title);
  }
}
