/**
 * The container of all cards: it reads the `getAllLists` query, chooses
 * between the loading placeholder, the error message and the content,
 * and keeps which card is expanded and whether the create form is open.
 */
module TodoListsContainer {
  import opened Api
  import TodoRouter

  const LoadErrorPrefix := "Error loading todo lists: "

  /** What the query hook reports. */
  datatype QueryState = QueryState(isLoading: bool, error: Option<string>, data: Option<seq<ListWithItems>>)

  /** One rendered card: its list and whether it is expanded. */
  datatype Card = Card(list: ListWithItems, isExpanded: bool)

  /** What the container shows. */
  datatype View =
    | Loading
    | LoadFailed(message: string)
    | Content(showCreateForm: bool, cards: seq<Card>, showCreateButton: bool)

  /**
   * The container's output: loading wins over an error, an error over the
   * content; absent data shows as no lists; only the selected card is
   * expanded; the create button shows exactly when the form does not.
   */
  function Render(query: QueryState, showCreateForm: bool, selectedListId: Option<ListId>): (v: View)
    ensures v.Loading? <==> query.isLoading
    ensures v.LoadFailed? <==> !query.isLoading && query.error.Some?
    ensures v.LoadFailed? ==> v.message == LoadErrorPrefix + query.error.value
    ensures v.Content? ==>
      var lists := if query.data.Some? then query.data.value else [];
      && |v.cards| == |lists|
      && (forall i :: 0 <= i < |lists| ==> v.cards[i].list == lists[i])
      && (forall i :: 0 <= i < |lists| ==>
            (v.cards[i].isExpanded <==> selectedListId == Some(lists[i].list.id)))
      && v.showCreateForm == showCreateForm
      && v.showCreateButton == !showCreateForm
  {
    if query.isLoading then Loading
    else if query.error.Some? then LoadFailed(LoadErrorPrefix + query.error.value)
    else
      var lists := if query.data.Some? then query.data.value else [];
      var cards := seq(|lists|, i requires 0 <= i < |lists| =>
                       Card(lists[i], selectedListId == Some(lists[i].list.id)));
      Content(showCreateForm, cards, !showCreateForm)
  }

  /**
   * With distinct list ids, as `getAllLists` returns them, at most one
   * card is expanded, and one is exactly when the selected list is shown.
   */
  lemma AtMostOneExpanded(query: QueryState, showCreateForm: bool,
                          selectedListId: Option<ListId>)
    requires query.data.Some? ==>
      forall i, j :: 0 <= i < j < |query.data.value| ==>
        query.data.value[i].list.id != query.data.value[j].list.id
    ensures var v := Render(query, showCreateForm, selectedListId);
      v.Content? ==>
        && (forall i, j ::
              0 <= i < |v.cards| && 0 <= j < |v.cards| && v.cards[i].isExpanded && v.cards[j].isExpanded
              ==> i == j)
        && ((exists i :: 0 <= i < |v.cards| && v.cards[i].isExpanded) <==>
              (selectedListId.Some? && exists i :: 0 <= i < |v.cards| && v.cards[i].list.list.id == selectedListId.value))
  {
    var v := Render(query, showCreateForm, selectedListId);
    if v.Content? {
      forall i, j | 0 <= i < |v.cards| && 0 <= j < |v.cards| && v.cards[i].isExpanded && v.cards[j].isExpanded
        ensures i == j
      {
        assert v.cards[i].list.list.id == v.cards[j].list.list.id;
      }
    }
  }

  /** Rendering what `getAllLists` returned expands at most the selected card. */
  lemma QueriedListsExpandAtMostOne(lists: map<ListId, TodoList>, items: map<ItemId, TodoItem>,
                                    caller: UserId, showCreateForm: bool, selectedListId: Option<ListId>)
    requires TodoRouter.WellKeyed(lists, items)
    ensures var data := TodoRouter.GetAllLists(lists, items, caller, false);
      var v := Render(QueryState(false, None, Some(data)), showCreateForm, selectedListId);
      && v.Content?
      && forall i, j ::
           0 <= i < |v.cards| && 0 <= j < |v.cards| && v.cards[i].isExpanded && v.cards[j].isExpanded
           ==> i == j
  {
    var data := TodoRouter.GetAllLists(lists, items, caller, false);
    AtMostOneExpanded(QueryState(false, None, Some(data)), showCreateForm, selectedListId);
  }

  /**
   * A store fault during `getAllLists` gives a successful, empty result. A
   * successful query reaches the container with no error, so the container
   * shows the empty state rather than the error message.
   */
  lemma StoreFaultShowsNoLists(lists: map<ListId, TodoList>, items: map<ItemId, TodoItem>,
                               caller: UserId, showCreateForm: bool, selectedListId: Option<ListId>)
    requires TodoRouter.WellKeyed(lists, items)
    ensures var data := TodoRouter.GetAllLists(lists, items, caller, true);
      Render(QueryState(false, None, Some(data)), showCreateForm, selectedListId)
        == Content(showCreateForm, [], !showCreateForm)
  {
  }

  /** The container's own state. */
  class ContainerState {
    var showCreateForm: bool
    var selectedListId: Option<ListId>

    constructor ()
      ensures !showCreateForm && selectedListId == None
    {
      showCreateForm, selectedListId := false, None;
    }

    /**
     * `handleListClick`: clicking the selected card collapses it, clicking
     * any other card selects that one (and so collapses the previous one).
     */
    method HandleListClick(listId: ListId)
      modifies this
      ensures selectedListId == if old(selectedListId) == Some(listId) then None else Some(listId)
      ensures (selectedListId == Some(listId)) <==> !(old(selectedListId) == Some(listId))
      ensures forall other :: other != listId ==> selectedListId != Some(other)
      ensures showCreateForm == old(showCreateForm)
    {
      selectedListId := if selectedListId == Some(listId) then None else Some(listId);
    }

    /** The create buttons open the form. */
    method OpenCreateForm()
      modifies this
      ensures showCreateForm && selectedListId == old(selectedListId)
    {
      showCreateForm := true;
    }

    /** `handleCreateSuccess` closes the form; the form's Cancel does the same. */
    method HandleCreateSuccess()
      modifies this
      ensures !showCreateForm && selectedListId == old(selectedListId)
    {
      showCreateForm := false;
    }
  }
}
