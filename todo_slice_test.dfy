/** The slice's unit-test scenarios, stated as contracts about the model.
    The clock readings the reducers take are left as parameters, so each
    scenario holds for every clock. */
module TodoSliceTests {
  import opened TodoTypes
  import opened Lists
  import opened TodoSlice

  /** `new Date('2024-01-01')` and `new Date('2024-02-01')`, in milliseconds. */
  const Jan2024: int := 1704067200000
  const Feb2024: int := 1706745600000

  /** A permutation of one item is that item alone. */
  lemma PermutationOfOne(r: seq<Todo>, x: Todo)
    requires multiset(r) == multiset([x])
    ensures r == [x]
  {
  }

  /** A permutation of two distinct items is one of their two orders. */
  lemma PermutationOfTwo(r: seq<Todo>, x: Todo, y: Todo)
    requires x != y && multiset(r) == multiset([x, y])
    ensures r == [x, y] || r == [y, x]
  {
  }

  /** "should add a todo": one item, the given title, not completed. */
  method AddTodoTest(nowMs: int, created: int, updated: int) returns (count: int, title: string, completed: bool)
    ensures count == 1 && title == "Test Todo" && !completed
  {
    var store := new TodoStore();
    store.AddTodo(NewTodo("Test Todo", "Test Body", Some(Jan2024)), nowMs, created, updated);
    PermutationOfOne(store.todos, Todo(nowMs, "Test Todo", "Test Body", false, false, Some(Jan2024), created, updated));
    count := |store.todos|;
    title := store.todos[0].title;
    completed := store.todos[0].completed;
  }

  /** "should toggle todo completion": the item is completed and stamped. */
  method ToggleTodoTest(nowMs: int, created: int, updated: int, toggledAt: int) returns (completed: bool, updatedAt: int)
    ensures completed && updatedAt == toggledAt
  {
    var store := new TodoStore();
    store.AddTodo(NewTodo("Test Todo", "Test Body", Some(Jan2024)), nowMs, created, updated);
    var added := Todo(nowMs, "Test Todo", "Test Body", false, false, Some(Jan2024), created, updated);
    PermutationOfOne(store.todos, added);
    var id := store.todos[0].id;
    store.ToggleTodo(id, toggledAt);
    PermutationOfOne(store.todos, added.(completed := true, updatedAt := toggledAt));
    completed := store.todos[0].completed;
    updatedAt := store.todos[0].updatedAt;
  }

  /** "should delete a todo": nothing is left. */
  method DeleteTodoTest(nowMs: int, created: int, updated: int) returns (count: int)
    ensures count == 0
  {
    var store := new TodoStore();
    store.AddTodo(NewTodo("Test Todo", "Test Body", Some(Jan2024)), nowMs, created, updated);
    PermutationOfOne(store.todos, Todo(nowMs, "Test Todo", "Test Body", false, false, Some(Jan2024), created, updated));
    var id := store.todos[0].id;
    store.DeleteTodo(id);
    NonEmptyHasMember(store.todos);
    count := |store.todos|;
  }

  /** "should start and cancel editing a todo". */
  method EditFlagTest(nowMs: int, created: int, updated: int) returns (afterStart: bool, afterCancel: bool)
    ensures afterStart && !afterCancel
  {
    var store := new TodoStore();
    store.AddTodo(NewTodo("Test Todo", "Test Body", Some(Jan2024)), nowMs, created, updated);
    PermutationOfOne(store.todos, Todo(nowMs, "Test Todo", "Test Body", false, false, Some(Jan2024), created, updated));
    var id := store.todos[0].id;
    store.StartEditTodo(id);
    afterStart := store.todos[0].isEditing;
    store.CancelEditTodo(id);
    afterCancel := store.todos[0].isEditing;
  }

  /** "should update a todo": new title, body and due date, editing cleared,
      `updatedAt` stamped. */
  method UpdateTodoTest(nowMs: int, created: int, updated: int, editedAt: int) returns (t: Todo)
    ensures t.title == "Updated Title" && t.body == "Updated Body" && t.dueDate == Some(Feb2024)
    ensures !t.isEditing && t.updatedAt == editedAt
  {
    var store := new TodoStore();
    store.AddTodo(NewTodo("Test Todo", "Test Body", Some(Jan2024)), nowMs, created, updated);
    var added := Todo(nowMs, "Test Todo", "Test Body", false, false, Some(Jan2024), created, updated);
    PermutationOfOne(store.todos, added);
    var id := store.todos[0].id;
    store.UpdateTodo(TodoUpdate(id, "Updated Title", "Updated Body", Some(Feb2024)), editedAt);
    PermutationOfOne(store.todos, added.(title := "Updated Title", body := "Updated Body",
                                         dueDate := Some(Feb2024), updatedAt := editedAt, isEditing := false));
    t := store.todos[0];
  }

  /** The two adds both sorting tests start with: "Todo 1" due 2024-02-01,
      then "Todo 2" due 2024-01-01, each add with its own three clock readings
      (`Date.now()` for the id, then `createdAt` and `updatedAt`). Every sort
      leaves the later due date first. */
  method AddTwo(now1: int, created1: int, updated1: int, now2: int, created2: int, updated2: int)
    returns (store: TodoStore)
    ensures fresh(store)
    ensures store.todos == [Todo(now1, "Todo 1", "description 1", false, false, Some(Feb2024), created1, updated1),
                            Todo(now2, "Todo 2", "description 2", false, false, Some(Jan2024), created2, updated2)]
  {
    store := new TodoStore();
    var t1 := Todo(now1, "Todo 1", "description 1", false, false, Some(Feb2024), created1, updated1);
    var t2 := Todo(now2, "Todo 2", "description 2", false, false, Some(Jan2024), created2, updated2);
    store.AddTodo(NewTodo("Todo 1", "description 1", Some(Feb2024)), now1, created1, updated1);
    PermutationOfOne(store.todos, t1);
    store.AddTodo(NewTodo("Todo 2", "description 2", Some(Jan2024)), now2, created2, updated2);
    assert [t1] + [t2] == [t1, t2];
    PermutationOfTwo(store.todos, t1, t2);
    assert Consistent([t1, t2]);
    assert Compare(t2, t1) > 0;
  }

  /** "should add a new todo and sort todos": the later due date comes first,
      whatever order the sort visits the two items in and whatever the six
      clock readings are. */
  method AddAndSortTest(now1: int, created1: int, updated1: int, now2: int, created2: int, updated2: int)
    returns (titles: seq<string>)
    ensures titles == ["Todo 1", "Todo 2"]
  {
    var store := AddTwo(now1, created1, updated1, now2, created2, updated2);
    titles := [store.todos[0].title, store.todos[1].title];
  }

  /** Two items that the comparator asks to put after each other are in
      comparator order neither way round. */
  lemma NeitherOrderIsInOrder(a: Todo, b: Todo)
    requires Compare(a, b) > 0 && Compare(b, a) > 0
    ensures !InOrder([a, b]) && !InOrder([b, a])
  {
    assert Compare([a, b][0], [a, b][1]) > 0;
    assert Compare([b, a][0], [b, a][1]) > 0;
  }

  /** "should resort todos after toggling completion": after the first item
      is completed the list holds the same two items, but no order of them is
      in comparator order, so the order the test observes is the engine's
      choice and not a consequence of the comparator. */
  method ToggleResortTest(now1: int, created1: int, updated1: int, now2: int, created2: int, updated2: int,
                          toggledAt: int) returns (todos: seq<Todo>)
    ensures var t1 := Todo(now1, "Todo 1", "description 1", true, false, Some(Feb2024), created1, toggledAt);
            var t2 := Todo(now2, "Todo 2", "description 2", false, false, Some(Jan2024), created2, updated2);
            && (todos == [t1, t2] || todos == [t2, t1])
            && !InOrder([t1, t2]) && !InOrder([t2, t1])
  {
    var store := AddTwo(now1, created1, updated1, now2, created2, updated2);
    var t1 := Todo(now1, "Todo 1", "description 1", false, false, Some(Feb2024), created1, updated1);
    var t2 := Todo(now2, "Todo 2", "description 2", false, false, Some(Jan2024), created2, updated2);
    var id := store.todos[0].id;
    store.ToggleTodo(id, toggledAt);
    var done := t1.(completed := true, updatedAt := toggledAt);
    assert [t1, t2][0 := done] == [done, t2];
    PermutationOfTwo(store.todos, done, t2);
    NeitherOrderIsInOrder(done, t2);
    todos := store.todos;
  }

  /** A mixed list on which the comparator is consistent has one sorted
      order: completing an item due 2024-01-01 and then adding one due
      2024-02-01 leaves the incomplete, later-due item first, for every
      conforming sort and every clock. */
  method CompletedEarlierSortsLastTest(now1: int, created1: int, updated1: int, toggledAt: int,
                                       now2: int, created2: int, updated2: int) returns (todos: seq<Todo>)
    ensures todos == [Todo(now2, "Todo 2", "description 2", false, false, Some(Feb2024), created2, updated2),
                      Todo(now1, "Todo 1", "description 1", true, false, Some(Jan2024), created1, toggledAt)]
  {
    var store := new TodoStore();
    var t1 := Todo(now1, "Todo 1", "description 1", false, false, Some(Jan2024), created1, updated1);
    store.AddTodo(NewTodo("Todo 1", "description 1", Some(Jan2024)), now1, created1, updated1);
    PermutationOfOne(store.todos, t1);
    store.ToggleTodo(now1, toggledAt);
    var done := t1.(completed := true, updatedAt := toggledAt);
    PermutationOfOne(store.todos, done);
    var t2 := Todo(now2, "Todo 2", "description 2", false, false, Some(Feb2024), created2, updated2);
    store.AddTodo(NewTodo("Todo 2", "description 2", Some(Feb2024)), now2, created2, updated2);
    assert [done] + [t2] == [done, t2];
    PermutationOfTwo(store.todos, t2, done);
    assert Consistent([done, t2]);
    assert Compare([done, t2][0], [done, t2][1]) > 0;
    todos := store.todos;
  }
}
