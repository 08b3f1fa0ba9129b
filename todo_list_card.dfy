/**
 * One list's card: its completion counts, the add-item form state, and
 * the handlers that issue the item and list mutations. `confirm()` is an
 * input; the mutations a handler issues and what a success callback does
 * are its results.
 */
module TodoListCard {
  import opened Api
  import opened Text
  import TodoRouter

  /** `completedCount`: how many of the items are completed. */
  function CompletedCount(items: seq<TodoItem>): (n: nat)
    ensures n <= |items|
    ensures n == |items| <==> forall j :: 0 <= j < |items| ==> items[j].completed
    ensures n == 0 <==> forall j :: 0 <= j < |items| ==> !items[j].completed
  {
    if items == [] then 0
    else
      var rest := items[..|items| - 1];
      assert forall j :: 0 <= j < |rest| ==> rest[j] == items[j];
      CompletedCount(rest) + if items[|items| - 1].completed then 1 else 0
  }

  /** The positions of the completed items. */
  ghost function CompletedPositions(items: seq<TodoItem>): set<nat>
  {
    set j: nat | j < |items| && items[j].completed
  }

  /** The count is the number of positions holding a completed item. */
  lemma {:induction false} CompletedCountCountsPositions(items: seq<TodoItem>)
    ensures CompletedCount(items) == |CompletedPositions(items)|
  {
    if items != [] {
      var n := |items| - 1;
      var rest := items[..n];
      CompletedCountCountsPositions(rest);
      if items[n].completed {
        assert CompletedPositions(items) == CompletedPositions(rest) + {n};
      } else {
        assert CompletedPositions(items) == CompletedPositions(rest);
      }
    }
  }

  /**
   * Flipping one item's `completed` flag, as `toggleItem` does, moves the
   * completed count by exactly one, up or down.
   */
  lemma {:induction false} ToggleMovesCountByOne(items: seq<TodoItem>, k: nat)
    requires k < |items|
    ensures var toggled := items[k := items[k].(completed := !items[k].completed)];
      CompletedCount(toggled) == CompletedCount(items) + (if items[k].completed then -1 else 1)
  {
    var n := |items| - 1;
    var toggled := items[k := items[k].(completed := !items[k].completed)];
    if k < n {
      ToggleMovesCountByOne(items[..n], k);
      assert toggled[..n] == items[..n][k := items[k].(completed := !items[k].completed)];
    } else {
      assert toggled[..n] == items[..n];
    }
  }

  /** The Add button is disabled while the title is blank or an add is pending. */
  function AddDisabled(newItemTitle: string, isPending: bool): (disabled: bool)
    ensures disabled <==> AllWhitespace(newItemTitle) || isPending
  {
    TrimEmptyIff(newItemTitle);
    Trim(newItemTitle) == [] || isPending
  }

  /**
   * A title the card sends never trips the server's "required" check; it
   * passes validation exactly when its trimmed form fits in 200 characters
   * (the item input has no length limit of its own).
   */
  lemma SentItemTitleNeverMissing(newItemTitle: string)
    requires !AllWhitespace(newItemTitle)
    ensures var errors := TodoRouter.ValidateAddItem(Trim(newItemTitle));
      && ("title" in errors ==> errors["title"] == [TodoRouter.TitleTooLong])
      && (errors == map[] <==> |Trim(newItemTitle)| <= TodoRouter.MaxItemTitle)
  {
    TrimEmptyIff(newItemTitle);
  }

  /** The local state of one card; `list` is the card's property. */
  class CardState {
    const list: ListWithItems
    var newItemTitle: string
    var isAddingItem: bool

    constructor (list: ListWithItems)
      ensures this.list == list && newItemTitle == "" && !isAddingItem
    {
      this.list := list;
      newItemTitle, isAddingItem := "", false;
    }

    /** The "+ Add item" button opens the add form. */
    method OpenAddForm()
      modifies this
      ensures isAddingItem && newItemTitle == old(newItemTitle)
    {
      isAddingItem := true;
    }

    /** Typing in the add-item input. */
    method ChangeNewItemTitle(value: string)
      modifies this
      ensures newItemTitle == value && isAddingItem == old(isAddingItem)
    {
      newItemTitle := value;
    }

    /**
     * `handleAddItem`: a non-blank title sends this list's id and the
     * trimmed title; a blank one sends nothing. The state is untouched.
     */
    method HandleAddItem() returns (mutation: Option<Request>)
      ensures mutation.Some? <==> !AllWhitespace(newItemTitle)
      ensures mutation.Some? ==>
        && mutation.value.AddItem?
        && mutation.value.listId == list.list.id
        && mutation.value.title == Trim(newItemTitle) != []
    {
      TrimEmptyIff(newItemTitle);
      var title := Trim(newItemTitle);
      if title != [] {
        mutation := Some(AddItem(list.list.id, title));
      } else {
        mutation := None;
      }
    }

    /** `handleToggleItem`: toggling is issued without confirmation. */
    method HandleToggleItem(itemId: ItemId) returns (mutation: Request)
      ensures mutation.ToggleItem? && mutation.itemId == itemId
    {
      mutation := ToggleItem(itemId);
    }

    /** `handleDeleteItem`: the delete is issued only if the user confirms. */
    method HandleDeleteItem(itemId: ItemId, confirmed: bool) returns (mutation: Option<Request>)
      ensures mutation.Some? <==> confirmed
      ensures confirmed ==> mutation.value.DeleteItem? && mutation.value.itemId == itemId
    {
      if confirmed {
        mutation := Some(DeleteItem(itemId));
      } else {
        mutation := None;
      }
    }

    /** `handleDeleteList`: deleting this list is issued only if the user confirms. */
    method HandleDeleteList(confirmed: bool) returns (mutation: Option<Request>)
      ensures mutation.Some? <==> confirmed
      ensures confirmed ==> mutation.value.DeleteList? && mutation.value.listId == list.list.id
    {
      if confirmed {
        mutation := Some(DeleteList(list.list.id));
      } else {
        mutation := None;
      }
    }

    /** A successful add refreshes the lists and closes and empties the add form. */
    method OnAddItemSuccess() returns (effects: seq<Effect>)
      modifies this
      ensures effects == [InvalidateAllLists]
      ensures newItemTitle == "" && !isAddingItem
    {
      effects := [InvalidateAllLists];
      newItemTitle := "";
      isAddingItem := false;
    }

    /** A successful toggle, item delete or list delete only refreshes the lists. */
    method OnToggleOrDeleteSuccess() returns (effects: seq<Effect>)
      ensures effects == [InvalidateAllLists]
    {
      effects := [InvalidateAllLists];
    }

    /** Cancel closes and empties the add form, like a successful add, without refreshing. */
    method CancelAdd()
      modifies this
      ensures !isAddingItem && newItemTitle == ""
    {
      isAddingItem := false;
      newItemTitle := "";
    }
  }
}
