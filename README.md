# Todo store and categorisation — a Dafny model

This project models the logic of a client-side to-do list application.
It has four parts:

- **The todo slice.** A list of `Todo` records and six reducers that change it:
  `addTodo`, `toggleTodo`, `deleteTodo`, `startEditTodo`, `cancelEditTodo` and `updateTodo`.
  `sortTodos` re-sorts the list after add, toggle and update.
  Two persistence transforms sit beside it: `in` writes every date as ISO text, and `out` parses the text back.
- **The selectors.** Five filters put each todo in a bucket: overdue, due today, upcoming, unscheduled or completed.
- **The list view's derived data.** It holds its own copy of the five filters and picks the tab it opens on.
- **The due-date badge.** It shows Overdue (red), Due Soon (yellow) or Upcoming (green).

Modules, one per source file:

| file | module | models |
|---|---|---|
| `type.dfy` | `TodoTypes` | the `Todo` record of `src/type.ts` |
| `lists.dfy` | `Lists` | `Array.prototype.filter`, and the subsequence relation |
| `date_fns.dfy` | `DateFns` | `isBefore`, `isAfter`, `isToday` on millisecond timestamps |
| `todo_slice.dfy` | `TodoSlice` | the comparator, `sortTodos`, and the `TodoStore` class with its six reducers |
| `todo_persist.dfy` | `TodoPersist` | the `in`/`out` transforms |
| `todo_selectors.dfy` | `TodoSelectors` | the six selectors, and a reference classification `BucketOf` |
| `todo_list.dfy` | `TodoList` | `categorizedTodos` and `defaultTab` |
| `time_status.dfy` | `TimeStatus` | `isOverdue`, `isDueSoon`, and the colour and text |
| `todo_slice_test.dfy` | `TodoSliceTests` | the slice's unit-test scenarios, stated as proved contracts |

Conventions:

- Timestamps are integer milliseconds.
- An absent optional field is `None`.
- Every clock reading is a parameter: `Date.now()`, `new Date()`, and the reading inside `isToday`.
- The local calendar day of an instant is the function parameter `dayOf`. So "today" means `dayOf(d) == dayOf(now)`.
- date-fns `addDays(now, 2)` is the function parameter `addDays`.
- `toISOString` and `new Date(text)` are the parameters `toIso` and `parseIso`.

The comparator is modelled exactly as written. It returns 1 when `a` is completed and `b` is not.
The reverse pair is not decided by completion: it falls through to the due-date rules.
So the comparator is inconsistent on some mixed pairs: an incomplete `a` and a completed `b` where `a` is not ahead of `b` by the due-date rules.
`ComparatorInconsistentAcrossCompletion` exhibits such a pair: the two items of the toggle test.
On a list where every incomplete item is ahead of every completed one (`Consistent`), the comparator is consistent, and a conforming sort must return comparator order.
With an inconsistent comparator, `Array.prototype.sort` leaves the order implementation-defined.
So `SortTodos` promises:

- the result is a permutation of the input;
- the result is in comparator order whenever the comparator is consistent on the input, which includes every list whose items share one completion status.

Its body is a stable insertion sort. Callers see only the contract.
Each reducer that sorts is specified through the predicate `IsSortOf`.

The model follows the code as written:

- `addTodo` and `updateTodo` do not trim or validate the title. The trim check lives in the form handlers.
- The id is the clock reading `Date.now()`. Nothing checks that it is unused.
- A completed item is not guaranteed to sort after the incomplete ones.
- The record type the slice imports (`src/type.ts`) has a mandatory `body`.

## Model

| member | source | states |
|---|---|---|
| `TodoSlice.Compare` | src/store/todo/todoSlice.ts:14-25 | a completed `a` against an incomplete `b` gives 1; for every other pair completion is ignored and the result is negative exactly when `a` is ahead of `b` in the reference order `Ahead`: dated before undated, later due date first, and between undated items the later creation first |
| `TodoSlice.IncompleteComparedFirstIgnoresCompletion` | src/store/todo/todoSlice.ts:15-24 | an incomplete `a` compared with a completed `b` gives what it would if `b` were incomplete: completion is ignored for that pair |
| `TodoSlice.ComparatorInconsistentAcrossCompletion` | src/store/todo/todoSlice.ts:15-24 | there exist an incomplete and a completed todo that the comparator asks to put after each other |
| `TodoSlice.SameCompletionOrder` | src/store/todo/todoSlice.ts:17-24 | within one completion group, "a first" holds exactly when a is dated and b is not, or both are dated and a is due later, or neither is dated and a was created later; the same rule decides "b first" |
| `TodoSlice.CompareAntisymmetric` | src/store/todo/todoSlice.ts:17-24 | within one completion group, swapping the arguments negates the result |
| `TodoSlice.CompareTransitive` | src/store/todo/todoSlice.ts:17-24 | within one completion group, "not after" is transitive, so the comparator is a total preorder there |
| `TodoSlice.SortTodos` | src/store/todo/todoSlice.ts:13-26 | the result is a permutation of the input, and it is in comparator order (every pair) whenever the comparator is consistent on the input: every incomplete item ahead of every completed one, as when all share a completion status; the input sequence is a value and cannot change |
| `TodoSlice.ConsistentFlip` | src/store/todo/todoSlice.ts:15-24 | on a pair where the comparator is consistent, a result of zero or more one way is zero or less the other way |
| `TodoSlice.ConsistentTransitive` | src/store/todo/todoSlice.ts:15-24 | on pairwise consistent items, "not after" is transitive, across completion groups too |
| `TodoSlice.SubseqKeepsOrder` | src/store/todo/todoSlice.ts:58-60 | any subsequence of an ordered list is ordered, so deleting without re-sorting keeps the list ordered |
| `TodoSlice.EditFlagKeepsOrder` | src/store/todo/todoSlice.ts:62-74 | changing only `isEditing` of one item keeps an ordered list ordered, so the edit-flag reducers need no re-sort |
| `TodoSlice.FindById` | src/store/todo/todoSlice.ts:50 | `find` by id: the index of the first item with the id, or `None` exactly when no item has it |
| `TodoSlice.WithoutId` | src/store/todo/todoSlice.ts:59 | the filter keeps exactly the items whose id differs, as a subsequence in original order; with no item bearing the id it returns the list unchanged; every copy of a kept item survives and no copy of a removed one (as multisets) |
| `TodoSlice.WithoutIdIdempotent` | src/store/todo/todoSlice.ts:58-60 | deleting the same id twice equals deleting it once |
| `TodoSlice.TodoStore.constructor` | src/store/todo/todoSlice.ts:31-33 | the initial state holds no todos |
| `TodoSlice.TodoStore.AddTodo` | src/store/todo/todoSlice.ts:35-47 | the new list is a sort of the old list plus one item built from the payload as given: id = `Date.now()` reading, not completed, not editing, both stamps from the clock; the length grows by one |
| `TodoSlice.TodoStore.ToggleTodo` | src/store/todo/todoSlice.ts:49-56 | with an absent id the list is unchanged and not re-sorted; otherwise the list is a sort of the old list with the first matching item's `completed` flipped and `updatedAt` stamped |
| `TodoSlice.TodoStore.DeleteTodo` | src/store/todo/todoSlice.ts:58-60 | the new list is the old one without the items bearing the id, in the original order, with no re-sort; an ordered list stays ordered |
| `TodoSlice.TodoStore.StartEditTodo` | src/store/todo/todoSlice.ts:62-67 | only `isEditing` of the first matching item becomes true; an absent id changes nothing; no re-sort, and an ordered list stays ordered |
| `TodoSlice.TodoStore.CancelEditTodo` | src/store/todo/todoSlice.ts:69-74 | only `isEditing` of the first matching item becomes false; an absent id changes nothing; no re-sort, and an ordered list stays ordered |
| `TodoSlice.TodoStore.UpdateTodo` | src/store/todo/todoSlice.ts:76-87 | with an absent id nothing changes; otherwise the list is a sort of the old list in which the first match has the payload's title, body and due date, a fresh `updatedAt` and `isEditing` cleared, keeping id, `completed` and `createdAt` |
| `TodoPersist.StoreTodo` | src/store/todo/todoSlice.ts:98-102 | one item through `in`: `createdAt` and `updatedAt` become their ISO text, a present due date becomes its ISO text and an absent one stays absent; every other field is copied |
| `TodoPersist.LoadTodo` | src/store/todo/todoSlice.ts:111-115 | one item through `out`: `createdAt` and `updatedAt` are parsed; the due date is present exactly when its text is present and non-empty, and then it is the parsed text; every other field is copied |
| `TodoPersist.StoreTodos` | src/store/todo/todoSlice.ts:98-103 | `in` maps item by item with the same length and order; it converts only `createdAt`, `updatedAt` and `dueDate` to ISO text; an absent due date stays absent; every other field is copied |
| `TodoPersist.LoadTodos` | src/store/todo/todoSlice.ts:111-117 | `out` maps item by item with the same length and order; it parses only the three date fields; the due date is present exactly when its text is present and non-empty, and then it is the parsed text |
| `TodoPersist.PersistIn` | src/store/todo/todoSlice.ts:95-106 | the `in` transform keeps the number of todos |
| `TodoPersist.PersistOut` | src/store/todo/todoSlice.ts:108-119 | the `out` transform keeps the number of todos |
| `TodoPersist.LoadStoreTodos` | src/store/todo/todoSlice.ts:94-121 | if parsing an ISO string gives back its instant and the string is never empty, then loading what was stored gives back the same list |
| `TodoPersist.PersistRoundTrip` | src/store/todo/todoSlice.ts:94-121 | `out(in(state)) == state`, under the same assumption about the ISO pair |
| `TodoPersist.EmptyIsoLosesDueDate` | src/store/todo/todoSlice.ts:115 | if a due date were written as the empty string, `out` would drop it, because an empty string is falsy |
| `TodoSelectors.SelectAllTodos` | src/store/todo/todoSelectors.ts:5 | the stored list itself, same items in the same order, with no filtering |
| `TodoSelectors.SelectCompletedTodos` | src/store/todo/todoSelectors.ts:7-10 | exactly the completed items, whatever their due date, as a subsequence of the stored list |
| `TodoSelectors.SelectOverdueTodos` | src/store/todo/todoSelectors.ts:12-18 | exactly the items in the reference bucket Overdue: not completed, dated, due before `now` and not today; a subsequence of the stored list |
| `TodoSelectors.SelectDueTodayTodos` | src/store/todo/todoSelectors.ts:20-25 | exactly the incomplete items due on today's calendar day, whether before or after `now`; a subsequence |
| `TodoSelectors.SelectUpcomingTodos` | src/store/todo/todoSelectors.ts:27-32 | exactly the incomplete items due after `now` and not today; a subsequence |
| `TodoSelectors.SelectUnscheduledTodos` | src/store/todo/todoSelectors.ts:34-39 | exactly the incomplete items with no due date; a subsequence |
| `TodoSelectors.SelectBucket` | src/store/todo/todoSelectors.ts:7-39 | the selector for bucket `b` lists exactly the stored items whose reference bucket is `b` |
| `TodoSelectors.OverdueFilterIsBucket` | src/store/todo/todoSelectors.ts:13-18 | the overdue filter, as written in the selector and in the list view, keeps exactly the reference Overdue bucket of any list, order and duplicates included |
| `TodoSelectors.DueTodayFilterIsBucket` | src/store/todo/todoSelectors.ts:21-25 | the due-today filter keeps exactly the reference DueToday bucket of any list, order and duplicates included |
| `TodoSelectors.UpcomingFilterIsBucket` | src/store/todo/todoSelectors.ts:28-33 | the upcoming filter keeps exactly the reference Upcoming bucket of any list, order and duplicates included |
| `TodoSelectors.UnscheduledFilterIsBucket` | src/store/todo/todoSelectors.ts:36-39 | the unscheduled filter keeps exactly the reference NoDueDate bucket of any list, order and duplicates included |
| `TodoSelectors.CompletedFilterIsBucket` | src/store/todo/todoSelectors.ts:8-10 | the completed filter keeps exactly the reference Completed bucket of any list, order and duplicates included |
| `TodoSelectors.SelectorIsBucket` | src/store/todo/todoSelectors.ts:7-39 | each selector equals the reference bucket's filter, order and duplicates included |
| `TodoSelectors.BucketsSplitList` | src/store/todo/todoSelectors.ts:7-39 | the five reference buckets of any list add up to that list as a multiset |
| `TodoSelectors.SelectorsDisjointAndCover` | src/store/todo/todoSelectors.ts:5-39 | with one `now`, no item is in two selectors, and every item of `selectAllTodos` is in one |
| `TodoSelectors.SelectorsPartition` | src/store/todo/todoSelectors.ts:5-39 | with one `now`, the five selectors add up to `selectAllTodos` as a multiset: every copy of every stored item is in exactly one of them |
| `TodoSelectors.SelectorSizesAddUp` | src/store/todo/todoSelectors.ts:5-39 | with one `now`, the five selectors' lengths sum to the length of `selectAllTodos` |
| `TodoList.CategorizeTodos` | src/components/TodoList.tsx:16-55 | each of the five inline buckets equals the reference bucket of the list: the same items, in list order, duplicates included |
| `TodoList.DefaultTab` | src/components/TodoList.tsx:62 | "overdue" exactly when the overdue bucket has an item; "dueToday" exactly when it is empty |
| `TodoList.TodoListView` | src/components/TodoList.tsx:57-62 | an empty list gives the empty state and no tab; otherwise the view opens on "overdue" exactly when some item is overdue, and on "dueToday" in every other case |
| `TodoList.CategoriesMatchSelectors` | src/components/TodoList.tsx:19-46 | for the same list and `now`, the inline buckets equal the five selectors, order included |
| `TodoList.CompletedPastDueIsCompleted` | src/components/TodoList.tsx:19-46 | a completed item with a past due date is in `completed` and not in `overdue` |
| `TodoList.EarlierTodayIsDueToday` | src/components/TodoList.tsx:19-30 | an incomplete item due earlier today, before `now`, is in `dueToday` and not in `overdue` |
| `TodoList.AllCompletedOpensOnDueToday` | src/components/TodoList.tsx:57-62 | when every item of a non-empty list is completed, the view opens on "dueToday" although that bucket is empty |
| `TimeStatus.IsOverdue` | src/components/TimeStatus.tsx:8 | overdue exactly when the due instant is before `now` and on another calendar day than `now` |
| `TimeStatus.IsDueSoon` | src/components/TimeStatus.tsx:9 | due soon implies not overdue; it holds exactly when the due instant is not before `now` or is on today's calendar day, and is before `addDays(now, 2)` |
| `TimeStatus.StatusColor` | src/components/TimeStatus.tsx:11-15 | red exactly when overdue; yellow exactly when due soon and not overdue; green exactly when neither |
| `TimeStatus.StatusText` | src/components/TimeStatus.tsx:17-21 | "Overdue" exactly when overdue; "Due Soon" exactly when due soon and not overdue; "Upcoming" exactly when neither, so text and colour always name the same status |
| `TimeStatus.TimeStatus` | src/components/TimeStatus.tsx:4-21 | nothing without a due date; otherwise exactly one of red/"Overdue", yellow/"Due Soon", green/"Upcoming"; red exactly when due before `now` and not today; yellow exactly when not red and due before `addDays(now, 2)` |
| `TimeStatus.OverdueExcludesDueSoon` | src/components/TimeStatus.tsx:8-9 | `isOverdue` and `isDueSoon` never hold together |
| `TimeStatus.EarlierTodayIsDueSoon` | src/components/TimeStatus.tsx:8-9 | an item due earlier today, already past, shows "Due Soon" and not "Overdue", given `addDays(now, 2)` is not before `now` |
| `TimeStatus.BadgeAgreesWithBuckets` | src/components/TimeStatus.tsx:8 | for an incomplete dated item, the badge says "Overdue" exactly when the overdue selector lists it; an item due today never shows "Overdue" |
| `TodoSliceTests.AddTodoTest` | src/store/todo/todoSlicer.test.ts:32-43 | after one add, for any clock: one item, the given title, not completed |
| `TodoSliceTests.ToggleTodoTest` | src/store/todo/todoSlicer.test.ts:45-59 | after toggling the only item it is completed and stamped with the toggle time |
| `TodoSliceTests.DeleteTodoTest` | src/store/todo/todoSlicer.test.ts:61-74 | deleting the only item empties the list |
| `TodoSliceTests.EditFlagTest` | src/store/todo/todoSlicer.test.ts:76-92 | start-edit sets the flag and cancel-edit clears it |
| `TodoSliceTests.UpdateTodoTest` | src/store/todo/todoSlicer.test.ts:94-116 | update stores the new title, body and due date, clears editing and stamps `updatedAt` |
| `TodoSliceTests.AddAndSortTest` | src/store/todo/todoSlicer.test.ts:118-138 | after adding items due 2024-02-01 and then 2024-01-01, the first one comes first, for any sort and any six clock readings (three per add) |
| `TodoSliceTests.CompletedEarlierSortsLastTest` | src/store/todo/todoSlice.ts:35-56 | completing an item due 2024-01-01 and then adding one due 2024-02-01 gives exactly [the new incomplete item, the completed one], for every conforming sort and every clock: a mixed list on which the comparator is consistent has one sorted order |
| `TodoSliceTests.ToggleResortTest` | src/store/todo/todoSlicer.test.ts:140-161 | for any six add readings and any toggle time: after completing the first item, the list holds the same two items in one of the two orders, and neither order is in comparator order; the test's expected order is the engine's choice |

## Left out

- `TodoSlice.SortTodos`: it does not state stability. It also does not state the order V8's algorithm produces on a mixed list where the comparator is inconsistent (some incomplete item not ahead of some completed one); the language standard leaves that order implementation-defined. So `TodoSliceTests.ToggleResortTest` proves that the two items are present, not which one comes first.
- `TodoSliceTests.ToggleResortTest`: it is weaker than the unit test, which expects the completed item at index 0. That outcome depends on the engine's sort algorithm.
- Clock reads: `addTodo` reads the clock three times. The model takes three parameters for them.
- Clock reads: `selectOverdueTodos` and `selectUpcomingTodos` call `new Date()` inside the filter callback, so they read the clock once per item; all three dated selectors also read it through `isToday`. `selectCompletedTodos` and `selectUnscheduledTodos` read no clock. The badge reads `new Date()` once and `isToday` reads the clock again. The model uses one `now` for the whole call, and the partition lemmas assume all five selectors see the same reading.
- Date library internals: time zones and daylight saving are not modelled. They stand behind `dayOf`, and `addDays` is a parameter. `EarlierTodayIsDueSoon` assumes only that `addDays(now, 2)` is not before `now`.
- Invalid dates: timestamps are integers. `new Date(text)` returning NaN for unparsable text is not modelled. Neither is the `RangeError` that `toISOString` throws beyond the representable range. Nor are NaN results of the comparator.
- ISO text: the format of `toISOString` and its parser are parameters. The round trip is proved under the assumption that parsing gives back the instant and the text is never empty.
- Store wiring: `persistReducer`, `persistStore`, local-storage I/O and `src/store/index.ts` are not part of this model. Whether the library invokes these transforms is also left out: the configuration lists them under the key `transform`.
- `src/store/errorMiddleware.ts` is not modelled: when a reducer throws, it logs the error, dispatches `{ type: 'ERROR', payload: error }` (which no reducer of the slice handles, so the state is unchanged) and re-throws.
- The list component reads `state.todos.items` (src/components/TodoList.tsx:14). The slice has no such field. The model categorises a list parameter instead.
- Rendering: all JSX and the other components are presentation and are not modelled. This includes the red border in `src/components/TodoItem.tsx:58-61`. It uses a different overdue test, without the "not today" exclusion, and affects only styling.
- Title trimming and empty-title rejection happen in the form handlers. They are not modelled (src/components/TodoInput.tsx:94-100, src/components/EditTodoSheet.tsx:91-102).
- The root state is modelled with only its `todos` key. Redux-persist bookkeeping keys are not modelled.
