# To-do lists: server router and client components, in Dafny

This project models the core of a small to-do list web application. Authenticated users own lists; a list has a title, an optional description and items; an item has a title and a completed flag.

- **Server router** (`todo_router.dfy`, module `TodoRouter`). The router has one query, `getAllLists`, and five mutations: `createList`, `deleteList`, `addItem`, `toggleItem` and `deleteItem`. They act on an in-memory store. The store is a class `Store` whose fields are a map of lists and a map of items, both keyed by row id. `createList` validates its input, then writes. `addItem` validates its input, then checks that the caller owns the list, then writes. `deleteList`, `toggleItem` and `deleteItem` check that the caller owns the list (for an item, the list holding it), then write. Its contract gives the exact new maps and returns an `Outcome`. A failure carries the schema's field errors or the handler's message. On any failure the store is unchanged.
- **The query** (`GetAllLists`) is a function of the two maps, the caller and a `fault` flag that stands for a store exception. It returns the caller's lists and no other lists, each once, newest first. Each list carries all its items, each once, oldest first. On a fault it returns the empty sequence.
- **Create-list form** (`create_list_form.dfy`). `FormState` holds the title, the description and the per-field messages. Submitting trims the input. A blank title is reported on the form and sends nothing. Otherwise the form sends the trimmed title, and the trimmed description, or no description if it is blank. Server errors are mapped onto the two fields.
- **List card** (`todo_list_card.dfy`). This covers the completed/total counts and the add-item form state. The handlers issue the add, toggle and delete mutations; deletes are gated by the user's confirmation, which is an input.
- **Container** (`todo_lists_container.dfy`). It chooses between loading, error and content, and at most one card is expanded. It also holds the state of the create form and of the selection.
- **Shared types** are in `api.dfy`: the rows, the requests and the errors. `text.dfy` models JavaScript's `trim`. `sorting.dfy` orders row keys the way an `orderBy` clause does.

React's state hooks are modelled as class fields. Event handlers are methods. Calling a mutation is the request a handler returns. What a success callback does to the query cache is a returned `Effect`. `isPending` is a parameter.

Two facts come from the database schema, which is not part of this model, and are assumptions here:

- deleting a list deletes its items;
- a new item starts with `completed == false`.

Row ids are natural numbers from a counter in the store. Creation stamps come from a store clock that increases on every insert.

The client makes no optimistic updates and has no rollback. Each hook's only cache action is to invalidate `getAllLists` in `onSuccess`, and the model does the same. The create and add hooks also reset their form state.

## Model

| member | source | states |
|---|---|---|
| `Text.TrimStart` | src/app/_components/CreateListForm.tsx:47 | leading white space is cut: the result is the longest suffix of the input that does not start with white space |
| `Text.TrimEnd` | src/app/_components/CreateListForm.tsx:53 | trailing white space is cut: the result is the longest prefix of the input that does not end with white space |
| `Text.Trim` | src/app/_components/CreateListForm.tsx:47-54 | `trim`, as the forms apply it to titles and descriptions: the result is never longer than the input and neither starts nor ends with white space |
| `Text.TrimIsSlice` | src/app/_components/CreateListForm.tsx:53-54 | `trim` returns a contiguous slice of its input, and only white space is removed from the two ends |
| `Text.TrimEmptyIff` | src/app/_components/CreateListForm.tsx:47 | a string trims to "" exactly when it is all white space; this is the blank test of both forms |
| `Text.TrimIdempotent` | src/app/_components/CreateListForm.tsx:53 | `trim` is idempotent: trimming any string twice gives the same result as trimming it once |
| `Sorting.SortedBy` | src/server/api/routers/todo.ts:13-18 | an `orderBy` over a set of keys lists every key exactly once, with sort keys non-decreasing |
| `TodoRouter.ValidateCreateList` | src/server/api/routers/todo.ts:30-33 | the title is rejected exactly when its raw length is outside 1..100 ("List Title is Required" if empty, "Title is too long" otherwise); the description is rejected exactly when present and over 500 ("Description is too long"); no trimming, so an all-space title passes |
| `TodoRouter.ValidateAddItem` | src/server/api/routers/todo.ts:69-72 | the title is rejected exactly when its length is outside 1..200, with "Item Title is Required" or "Title is too long"; any list id passes |
| `TodoRouter.ItemsOf` | src/server/api/routers/todo.ts:13-17 | the nested items of a list are all its items and only them, each once, ordered by creation stamp ascending |
| `TodoRouter.GetAllLists` | src/server/api/routers/todo.ts:9-27 | on a store fault the result is []; otherwise it is exactly the caller's lists, each once, ordered by creation stamp descending, each with its items as `ItemsOf` gives them |
| `TodoRouter.Store.CreateList` | src/server/api/routers/todo.ts:29-45 | invalid input gives the field errors and leaves the store unchanged; otherwise one list is added under a fresh id, owned by the caller, with exactly the given title and description, no items, and a stamp later than every existing row; the returned list has no items and nothing else changes |
| `TodoRouter.Store.DeleteList` | src/server/api/routers/todo.ts:47-65 | it succeeds iff the list exists and the caller owns it; otherwise it fails with "List not found or you don't have permission" and the store is unchanged; on success exactly that list is removed, together with its items (schema cascade), and every other list and item is unchanged |
| `TodoRouter.Store.AddItem` | src/server/api/routers/todo.ts:68-92 | validation comes before ownership: a bad title fails with field errors even on a list the caller does not own; then a missing or foreign list fails with "List not found or you don't have permission"; on success exactly one incomplete item with the given title is added to that list under a fresh id and with the latest stamp, and the lists are unchanged |
| `TodoRouter.Store.ToggleItem` | src/server/api/routers/todo.ts:95-114 | it succeeds iff the item exists and the caller owns its list; otherwise it fails with "Item not found or you don't have permission" and the store is unchanged; on success only that item's `completed` is negated and the updated item is returned |
| `TodoRouter.Store.DeleteItem` | src/server/api/routers/todo.ts:117-135 | same ownership condition and message as toggle; on success exactly that item is removed and everything else is unchanged |
| `TodoRouter.CreatedListComesFirst` | src/server/api/routers/todo.ts:11-18 | after a list is created, it is the first entry of its owner's `getAllLists`, with no items; if the owner had no lists, the result is exactly that one list |
| `TodoRouter.AddedItemComesLast` | src/server/api/routers/todo.ts:13-16 | after an item is added, it is the last item of its list in the owner's `getAllLists` |
| `TodoRouter.DeletedListIsGone` | src/server/api/routers/todo.ts:62-64 | after a list is deleted with its items, no caller's `getAllLists` shows that list or any item of it |
| `TodoRouter.ToggleTwice` | src/server/api/routers/todo.ts:110-113 | toggling the same item twice restores the store exactly (both maps, the id counter and the clock); both calls succeed or both fail |
| `TodoRouter.AddItemTwice` | src/server/api/routers/todo.ts:86-91 | adding the same title twice adds two distinct items with that title, so the item count grows by two |
| `CreateListForm.Submission` | src/app/_components/CreateListForm.tsx:47-55 | nothing is sent iff the title is all white space; otherwise the request carries the trimmed, non-empty title and the trimmed description, or no description when it is all white space |
| `CreateListForm.SubmissionPassesValidation` | src/app/_components/CreateListForm.tsx:52-55 | while the inputs respect their `maxLength` (100 and 500), every request the form sends passes `createList`'s input validation |
| `CreateListForm.SubmitDisabled` | src/app/_components/CreateListForm.tsx:109 | the submit button is disabled iff a create is pending or the title is all white space; when it is enabled, submitting sends a request |
| `CreateListForm.LastMessage` | src/app/_components/CreateListForm.tsx:30-35 | the loop that overwrites a field once per message leaves it absent for no messages and equal to the last message otherwise |
| `CreateListForm.ErrorsFor` | src/app/_components/CreateListForm.tsx:26-40 | with field errors, each field shows the last of its messages and a field with none shows nothing; with any other error, its message shows on the title only |
| `CreateListForm.RejectionShownPerField` | src/app/_components/CreateListForm.tsx:28-36 | when the server rejects a `createList` input, exactly the rejected fields show a message, and it is the server's (first and only) message for that field |
| `CreateListForm.FormState.constructor` | src/app/_components/CreateListForm.tsx:12-14 | a new form has empty fields and no errors |
| `CreateListForm.FormState.ChangeTitle` | src/app/_components/CreateListForm.tsx:71 | typing sets the title only |
| `CreateListForm.FormState.ChangeDescription` | src/app/_components/CreateListForm.tsx:90 | typing sets the description only |
| `CreateListForm.FormState.HandleSubmit` | src/app/_components/CreateListForm.tsx:43-56 | errors are cleared first; a blank title ends with errors `{title: "Title is required"}` and no request; otherwise the `Submission` request is sent, with errors empty, and it passes server validation; the fields are left as typed |
| `CreateListForm.FormState.OnError` | src/app/_components/CreateListForm.tsx:26-40 | the errors become `ErrorsFor(error)`, built by the per-message loop; the fields are untouched |
| `CreateListForm.FormState.OnSuccess` | src/app/_components/CreateListForm.tsx:19-25 | the lists query is invalidated, title and description reset to "", errors to none, then the parent is notified |
| `TodoListCard.CompletedCount` | src/app/_components/TodoListCard.tsx:92-93 | the completed count is at most the total number of items; it equals the total iff every item is completed, and is 0 iff none is |
| `TodoListCard.CompletedCountCountsPositions` | src/app/_components/TodoListCard.tsx:92 | the completed count equals the number of positions holding a completed item |
| `TodoListCard.ToggleMovesCountByOne` | src/app/_components/TodoListCard.tsx:92 | flipping one item's flag, as `toggleItem` does, lowers or raises the completed count by exactly one |
| `TodoListCard.AddDisabled` | src/app/_components/TodoListCard.tsx:193 | the Add button is disabled iff the title is all white space or an add is pending |
| `TodoListCard.SentItemTitleNeverMissing` | src/app/_components/TodoListCard.tsx:68-73 | a title the card sends never fails the server's "required" check; it passes validation exactly when its trimmed form has at most 200 characters, and otherwise fails only with "Title is too long" |
| `TodoListCard.CardState.constructor` | src/app/_components/TodoListCard.tsx:34-35 | a new card has an empty, closed add form |
| `TodoListCard.CardState.OpenAddForm` | src/app/_components/TodoListCard.tsx:211 | "+ Add item" opens the add form and keeps the typed title |
| `TodoListCard.CardState.ChangeNewItemTitle` | src/app/_components/TodoListCard.tsx:186 | typing sets the new item's title only |
| `TodoListCard.CardState.HandleAddItem` | src/app/_components/TodoListCard.tsx:66-74 | a request is issued iff the title is not all white space; it carries this card's list id and the trimmed, non-empty title |
| `TodoListCard.CardState.HandleToggleItem` | src/app/_components/TodoListCard.tsx:76-78 | a toggle of that item is issued unconditionally |
| `TodoListCard.CardState.HandleDeleteItem` | src/app/_components/TodoListCard.tsx:80-84 | a delete of that item is issued iff the user confirmed |
| `TodoListCard.CardState.HandleDeleteList` | src/app/_components/TodoListCard.tsx:86-90 | a delete of this card's list is issued iff the user confirmed |
| `TodoListCard.CardState.OnAddItemSuccess` | src/app/_components/TodoListCard.tsx:40-46 | a successful add invalidates the lists query and nothing else, and resets the title to "" and closes the add form |
| `TodoListCard.CardState.OnToggleOrDeleteSuccess` | src/app/_components/TodoListCard.tsx:48-64 | a successful toggle, item delete or list delete invalidates the lists query and does nothing else |
| `TodoListCard.CardState.CancelAdd` | src/app/_components/TodoListCard.tsx:200-203 | Cancel closes the add form and resets its title to "", as a successful add does |
| `TodoListsContainer.Render` | src/app/_components/TodoListsContainer.tsx:42-95 | loading wins over an error, and an error over the content; the error shows "Error loading todo lists: " followed by its message; absent data shows as no lists; a card is expanded iff its list id equals the selected id; the create button shows iff the form is closed |
| `TodoListsContainer.AtMostOneExpanded` | src/app/_components/TodoListsContainer.tsx:92 | with distinct list ids, at most one card is expanded, and one is iff the selected list is among the shown lists |
| `TodoListsContainer.QueriedListsExpandAtMostOne` | src/app/_components/TodoListsContainer.tsx:86-95 | rendering what `getAllLists` returns shows content with at most one expanded card |
| `TodoListsContainer.StoreFaultShowsNoLists` | src/server/api/routers/todo.ts:23-26 | a store fault makes `getAllLists` return no lists; a successful query reaches the container with no error, so that result shows as the empty state and not as the error message |
| `TodoListsContainer.ContainerState.constructor` | src/app/_components/TodoListsContainer.tsx:29-30 | the form starts closed and nothing is selected |
| `TodoListsContainer.ContainerState.HandleListClick` | src/app/_components/TodoListsContainer.tsx:64-66 | clicking the selected list clears the selection, and clicking any other list selects it; afterwards that list is selected iff it was not before, and no other list is |
| `TodoListsContainer.ContainerState.OpenCreateForm` | src/app/_components/TodoListsContainer.tsx:99 | the create buttons open the form and keep the selection |
| `TodoListsContainer.ContainerState.HandleCreateSuccess` | src/app/_components/TodoListsContainer.tsx:68-70 | a successful create closes the form and keeps the selection |

## Left out

- Optimistic updates with a snapshot and a rollback are not in this code, so they are not modelled. No mutation hook has `onMutate` or `onError` rollback; each hook's only cache action is to invalidate the query on success, and the create and add hooks also reset their form state.
- `src/app/page.tsx` (session lookup, prefetch, markup), all JSX markup, CSS classes, icons and `toLocaleDateString` formatting are left out. They are rendering with no decision logic.
- Authentication is left out. `protectedProcedure` rejects callers with no session; this model always has a caller id.
- The gap between the ownership check and the write is left out. It is a race against a concurrent store; here each procedure runs atomically.
- tRPC, Prisma, React Query and zod are left out. The store is two maps, validation is length checks, and the cache invalidation is a returned `Effect`.
- StoreFaultShowsNoLists: the lemma builds the query state itself, with `isLoading == false` and `error == None`. That a successful query reaches the container in this state is React Query's behaviour, which is left out.
- Error transport is an assumption. `Api.ToClientError` assumes the usual error formatter: schema rejections reach the client with their flattened field errors, and a thrown `Error` keeps its message. The formatter's file is not part of this model.
- `updatedAt` stamps are not modelled. The database sets them on every write.
- Real row ids are database-generated strings. Here they are naturals from a counter, which keeps fresh ids provably unused.
- `console.error` is left out, and so are the actual exceptions inside `getAllLists`. A fault is the boolean `fault`.
- The `lists ?? []` guard is not modelled. A list query never yields null.
- The order among rows with equal creation stamps is unspecified, as in the database. The store's clock gives every new row a stamp later than all existing ones.
- Strings are `seq<char>`; length is counted in code points, not UTF-16 units.
- The `maxLength` attributes of the form's inputs (100 and 500) are the preconditions of `ChangeTitle` and `ChangeDescription`. The browser enforces them.
- The form's Cancel button calls the container's close handler. It is covered by `HandleCreateSuccess`, which does the same thing.
- React discards a form's state when the form unmounts. That is not modelled.
- `ErrorsFor`: a message that is the empty string is kept as present, but the markup hides empty messages. The model does not capture that hiding.
- Some buttons are disabled while their own mutation is pending: list delete, toggle and item delete (TodoListCard.tsx lines 121, 153 and 169). This only copies `isPending`, so it is not modelled.
- The query options `retry: 1` and `refetchOnWindowFocus: false` are left out. They belong to the cache library.
