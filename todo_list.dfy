/** The list view's derived data: the five buckets it computes inline (a
    copy of the selectors' rules) and the tab it opens on. `new Date()` is
    the parameter `now`; the rendering itself is not modelled. */
module TodoList {
  import opened TodoTypes
  import opened Lists
  import opened DateFns
  import opened TodoSelectors

  /** The `categorizedTodos` record. */
  datatype Categories = Categories(
    overdue: seq<Todo>,
    dueToday: seq<Todo>,
    upcoming: seq<Todo>,
    noDueDate: seq<Todo>,
    completed: seq<Todo>)

  /** The two tabs the view can open on. */
  datatype Tab = OverdueTab | DueTodayTab

  /** What the component shows: the empty state, or tabs opened on a tab. */
  datatype View = EmptyState | Tabs(defaultTab: Tab, categories: Categories)

  /** The memoised categorisation: five filters over the list, each keeping
      exactly its reference bucket in list order. */
  function CategorizeTodos(todos: seq<Todo>, now: int, dayOf: int -> int): (c: Categories)
    ensures c.overdue == InBucket(todos, Overdue, now, dayOf)
    ensures c.dueToday == InBucket(todos, DueToday, now, dayOf)
    ensures c.upcoming == InBucket(todos, Upcoming, now, dayOf)
    ensures c.noDueDate == InBucket(todos, NoDueDate, now, dayOf)
    ensures c.completed == InBucket(todos, Completed, now, dayOf)
  {
    OverdueFilterIsBucket(todos, now, dayOf);
    DueTodayFilterIsBucket(todos, now, dayOf);
    UpcomingFilterIsBucket(todos, now, dayOf);
    UnscheduledFilterIsBucket(todos, now, dayOf);
    CompletedFilterIsBucket(todos, now, dayOf);
    var overdue := Filter(todos, (todo: Todo) =>
      !todo.completed && todo.dueDate.Some? &&
      IsBefore(todo.dueDate.value, now) && !IsToday(todo.dueDate.value, now, dayOf));
    var dueToday := Filter(todos, (todo: Todo) =>
      !todo.completed && todo.dueDate.Some? && IsToday(todo.dueDate.value, now, dayOf));
    var upcoming := Filter(todos, (todo: Todo) =>
      !todo.completed && todo.dueDate.Some? &&
      IsAfter(todo.dueDate.value, now) && !IsToday(todo.dueDate.value, now, dayOf));
    var noDueDate := Filter(todos, (todo: Todo) => !todo.completed && todo.dueDate.None?);
    var completed := Filter(todos, (todo: Todo) => todo.completed);
    Categories(overdue, dueToday, upcoming, noDueDate, completed)
  }

  /** `defaultTab`: overdue when anything is overdue, otherwise due today,
      even when that bucket is empty too. */
  function DefaultTab(c: Categories): (r: Tab)
    ensures r == OverdueTab <==> exists t :: t in c.overdue
    ensures r == DueTodayTab <==> c.overdue == []
  {
    NonEmptyHasMember(c.overdue);
    if |c.overdue| > 0 then OverdueTab else DueTodayTab
  }

  /** The component's decision: an empty list shows the empty state and
      selects no tab; otherwise the tabs open on the overdue tab exactly when
      some item is overdue. */
  function TodoListView(todos: seq<Todo>, now: int, dayOf: int -> int): (v: View)
    ensures v.EmptyState? <==> |todos| == 0
    ensures v.Tabs? ==> (v.defaultTab == OverdueTab <==> exists t :: t in todos && BucketOf(t, now, dayOf) == Overdue)
  {
    if |todos| == 0 then EmptyState
    else
      var c := CategorizeTodos(todos, now, dayOf);
      Tabs(DefaultTab(c), c)
  }

  /** The inline buckets are the selectors' buckets, order included, for the
      same list and the same `now`. */
  lemma CategoriesMatchSelectors(state: RootState, now: int, dayOf: int -> int)
    ensures CategorizeTodos(SelectAllTodos(state), now, dayOf) == Categories(
      SelectOverdueTodos(state, now, dayOf), SelectDueTodayTodos(state, now, dayOf),
      SelectUpcomingTodos(state, now, dayOf), SelectUnscheduledTodos(state),
      SelectCompletedTodos(state))
  {
  }

  /** Completion wins: a completed item with a past due date is listed as
      completed and never as overdue. */
  lemma CompletedPastDueIsCompleted(todos: seq<Todo>, t: Todo, now: int, dayOf: int -> int)
    requires t in todos && t.completed && t.dueDate.Some? && t.dueDate.value < now
    ensures t in CategorizeTodos(todos, now, dayOf).completed
    ensures t !in CategorizeTodos(todos, now, dayOf).overdue
  {
  }

  /** An item due earlier today, already past, is due today and not overdue. */
  lemma EarlierTodayIsDueToday(todos: seq<Todo>, t: Todo, now: int, dayOf: int -> int)
    requires t in todos && !t.completed && t.dueDate.Some?
    requires t.dueDate.value < now && dayOf(t.dueDate.value) == dayOf(now)
    ensures t in CategorizeTodos(todos, now, dayOf).dueToday
    ensures t !in CategorizeTodos(todos, now, dayOf).overdue
  {
  }

  /** When every item is completed the view opens on "due today", although
      that bucket is empty as well. */
  lemma AllCompletedOpensOnDueToday(todos: seq<Todo>, now: int, dayOf: int -> int)
    requires |todos| > 0 && forall t :: t in todos ==> t.completed
    ensures TodoListView(todos, now, dayOf) == Tabs(DueTodayTab, CategorizeTodos(todos, now, dayOf))
    ensures CategorizeTodos(todos, now, dayOf).dueToday == []
  {
    var c := CategorizeTodos(todos, now, dayOf);
    NonEmptyHasMember(c.overdue);
    NonEmptyHasMember(c.dueToday);
  }
}
