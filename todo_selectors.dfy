/** The selectors over the todo slice: the full list and the five buckets
    (completed, overdue, due today, upcoming, unscheduled), each one
    `filter` over the stored list. `new Date()` is the parameter `now`. */
module TodoSelectors {
  import opened TodoTypes
  import opened Lists
  import opened DateFns
  import opened TodoSlice

  /** The root state: the todo slice under the key `todos`. */
  datatype RootState = RootState(todos: TodoState)

  /** The five view buckets. */
  datatype Bucket = Overdue | DueToday | Upcoming | NoDueDate | Completed

  /** Reference classification of one todo: completion first, then whether
      it has a due date, then today, then past or future. */
  function BucketOf(t: Todo, now: int, dayOf: int -> int): Bucket
  {
    if t.completed then Completed
    else match t.dueDate
      case None => NoDueDate
      case Some(d) =>
        if dayOf(d) == dayOf(now) then DueToday
        else if d < now then Overdue
        else Upcoming
  }

  /** The items of `s` in bucket `b`, in list order. */
  function InBucket(s: seq<Todo>, b: Bucket, now: int, dayOf: int -> int): (r: seq<Todo>)
    ensures forall t :: t in r <==> t in s && BucketOf(t, now, dayOf) == b
  {
    Filter(s, (t: Todo) => BucketOf(t, now, dayOf) == b)
  }

  /** `selectAllTodos`: the slice's list itself, no copy, same order. */
  function SelectAllTodos(state: RootState): (r: seq<Todo>)
    ensures r == state.todos.todos
  {
    state.todos.todos
  }

  /** `selectCompletedTodos`: the completed items, whatever their due date. */
  function SelectCompletedTodos(state: RootState): (r: seq<Todo>)
    ensures forall t :: t in r <==> t in SelectAllTodos(state) && t.completed
    ensures Subseq(r, SelectAllTodos(state))
  {
    Filter(state.todos.todos, (todo: Todo) => todo.completed)
  }

  /** `selectOverdueTodos`: incomplete, dated, due before now and not today. */
  function SelectOverdueTodos(state: RootState, now: int, dayOf: int -> int): (r: seq<Todo>)
    ensures forall t :: t in r <==> t in SelectAllTodos(state) && BucketOf(t, now, dayOf) == Overdue
    ensures Subseq(r, SelectAllTodos(state))
  {
    Filter(state.todos.todos, (todo: Todo) =>
      !todo.completed && todo.dueDate.Some? &&
      IsBefore(todo.dueDate.value, now) && !IsToday(todo.dueDate.value, now, dayOf))
  }

  /** `selectDueTodayTodos`: incomplete and due on today's calendar day,
      earlier or later than now. */
  function SelectDueTodayTodos(state: RootState, now: int, dayOf: int -> int): (r: seq<Todo>)
    ensures forall t :: t in r <==> t in SelectAllTodos(state) && BucketOf(t, now, dayOf) == DueToday
    ensures Subseq(r, SelectAllTodos(state))
  {
    Filter(state.todos.todos, (todo: Todo) =>
      !todo.completed && todo.dueDate.Some? && IsToday(todo.dueDate.value, now, dayOf))
  }

  /** `selectUpcomingTodos`: incomplete, dated, due after now and not today. */
  function SelectUpcomingTodos(state: RootState, now: int, dayOf: int -> int): (r: seq<Todo>)
    ensures forall t :: t in r <==> t in SelectAllTodos(state) && BucketOf(t, now, dayOf) == Upcoming
    ensures Subseq(r, SelectAllTodos(state))
  {
    Filter(state.todos.todos, (todo: Todo) =>
      !todo.completed && todo.dueDate.Some? &&
      IsAfter(todo.dueDate.value, now) && !IsToday(todo.dueDate.value, now, dayOf))
  }

  /** `selectUnscheduledTodos`: incomplete with no due date. */
  function SelectUnscheduledTodos(state: RootState): (r: seq<Todo>)
    ensures forall t :: t in r <==> t in SelectAllTodos(state) && !t.completed && t.dueDate.None?
    ensures Subseq(r, SelectAllTodos(state))
  {
    Filter(state.todos.todos, (todo: Todo) => !todo.completed && todo.dueDate.None?)
  }

  /** The selector for one bucket. */
  function SelectBucket(state: RootState, b: Bucket, now: int, dayOf: int -> int): (r: seq<Todo>)
    ensures forall t :: t in r <==> t in SelectAllTodos(state) && BucketOf(t, now, dayOf) == b
  {
    match b
    case Overdue => SelectOverdueTodos(state, now, dayOf)
    case DueToday => SelectDueTodayTodos(state, now, dayOf)
    case Upcoming => SelectUpcomingTodos(state, now, dayOf)
    case NoDueDate => SelectUnscheduledTodos(state)
    case Completed => SelectCompletedTodos(state)
  }

  /** The overdue filter (of `selectOverdueTodos`, and of the list view) keeps
      exactly the reference overdue bucket, order included. */
  lemma OverdueFilterIsBucket(s: seq<Todo>, now: int, dayOf: int -> int)
    ensures Filter(s, (todo: Todo) =>
      !todo.completed && todo.dueDate.Some? &&
      IsBefore(todo.dueDate.value, now) && !IsToday(todo.dueDate.value, now, dayOf))
      == InBucket(s, Overdue, now, dayOf)
  {
    FilterExtensional(s, (todo: Todo) =>
      !todo.completed && todo.dueDate.Some? &&
      IsBefore(todo.dueDate.value, now) && !IsToday(todo.dueDate.value, now, dayOf),
      (t: Todo) => BucketOf(t, now, dayOf) == Overdue);
  }

  /** The due-today filter keeps exactly the reference due-today bucket. */
  lemma DueTodayFilterIsBucket(s: seq<Todo>, now: int, dayOf: int -> int)
    ensures Filter(s, (todo: Todo) =>
      !todo.completed && todo.dueDate.Some? && IsToday(todo.dueDate.value, now, dayOf))
      == InBucket(s, DueToday, now, dayOf)
  {
    FilterExtensional(s, (todo: Todo) =>
      !todo.completed && todo.dueDate.Some? && IsToday(todo.dueDate.value, now, dayOf),
      (t: Todo) => BucketOf(t, now, dayOf) == DueToday);
  }

  /** The upcoming filter keeps exactly the reference upcoming bucket. */
  lemma UpcomingFilterIsBucket(s: seq<Todo>, now: int, dayOf: int -> int)
    ensures Filter(s, (todo: Todo) =>
      !todo.completed && todo.dueDate.Some? &&
      IsAfter(todo.dueDate.value, now) && !IsToday(todo.dueDate.value, now, dayOf))
      == InBucket(s, Upcoming, now, dayOf)
  {
    FilterExtensional(s, (todo: Todo) =>
      !todo.completed && todo.dueDate.Some? &&
      IsAfter(todo.dueDate.value, now) && !IsToday(todo.dueDate.value, now, dayOf),
      (t: Todo) => BucketOf(t, now, dayOf) == Upcoming);
  }

  /** The unscheduled filter keeps exactly the reference no-due-date bucket. */
  lemma UnscheduledFilterIsBucket(s: seq<Todo>, now: int, dayOf: int -> int)
    ensures Filter(s, (todo: Todo) => !todo.completed && todo.dueDate.None?)
      == InBucket(s, NoDueDate, now, dayOf)
  {
    FilterExtensional(s, (todo: Todo) => !todo.completed && todo.dueDate.None?,
      (t: Todo) => BucketOf(t, now, dayOf) == NoDueDate);
  }

  /** The completed filter keeps exactly the reference completed bucket. */
  lemma CompletedFilterIsBucket(s: seq<Todo>, now: int, dayOf: int -> int)
    ensures Filter(s, (todo: Todo) => todo.completed) == InBucket(s, Completed, now, dayOf)
  {
    FilterExtensional(s, (todo: Todo) => todo.completed,
      (t: Todo) => BucketOf(t, now, dayOf) == Completed);
  }

  /** Each selector yields exactly its reference bucket, order included. */
  lemma SelectorIsBucket(state: RootState, b: Bucket, now: int, dayOf: int -> int)
    ensures SelectBucket(state, b, now, dayOf) == InBucket(SelectAllTodos(state), b, now, dayOf)
  {
    match b
    case Overdue => OverdueFilterIsBucket(state.todos.todos, now, dayOf);
    case DueToday => DueTodayFilterIsBucket(state.todos.todos, now, dayOf);
    case Upcoming => UpcomingFilterIsBucket(state.todos.todos, now, dayOf);
    case NoDueDate => UnscheduledFilterIsBucket(state.todos.todos, now, dayOf);
    case Completed => CompletedFilterIsBucket(state.todos.todos, now, dayOf);
  }

  /** The five reference buckets split a list exactly, multiplicities included. */
  lemma BucketsSplitList(s: seq<Todo>, now: int, dayOf: int -> int)
    ensures multiset(InBucket(s, Overdue, now, dayOf)) + multiset(InBucket(s, DueToday, now, dayOf))
          + multiset(InBucket(s, Upcoming, now, dayOf)) + multiset(InBucket(s, NoDueDate, now, dayOf))
          + multiset(InBucket(s, Completed, now, dayOf)) == multiset(s)
  {
    var o, d, u, n, c := InBucket(s, Overdue, now, dayOf), InBucket(s, DueToday, now, dayOf),
      InBucket(s, Upcoming, now, dayOf), InBucket(s, NoDueDate, now, dayOf), InBucket(s, Completed, now, dayOf);
    FilterMultiplicity(s, (x: Todo) => BucketOf(x, now, dayOf) == Overdue);
    FilterMultiplicity(s, (x: Todo) => BucketOf(x, now, dayOf) == DueToday);
    FilterMultiplicity(s, (x: Todo) => BucketOf(x, now, dayOf) == Upcoming);
    FilterMultiplicity(s, (x: Todo) => BucketOf(x, now, dayOf) == NoDueDate);
    FilterMultiplicity(s, (x: Todo) => BucketOf(x, now, dayOf) == Completed);
    forall t ensures (multiset(o) + multiset(d) + multiset(u) + multiset(n) + multiset(c))[t] == multiset(s)[t] {
      var b := BucketOf(t, now, dayOf);
      assert multiset(o)[t] == if b == Overdue then multiset(s)[t] else 0;
      assert multiset(d)[t] == if b == DueToday then multiset(s)[t] else 0;
      assert multiset(u)[t] == if b == Upcoming then multiset(s)[t] else 0;
      assert multiset(n)[t] == if b == NoDueDate then multiset(s)[t] else 0;
      assert multiset(c)[t] == if b == Completed then multiset(s)[t] else 0;
    }
    assert multiset(o) + multiset(d) + multiset(u) + multiset(n) + multiset(c) == multiset(s);
  }

  /** With one reading of the clock, every stored item is selected by exactly
      one of the five selectors. */
  lemma SelectorsDisjointAndCover(state: RootState, now: int, dayOf: int -> int)
    ensures forall t, b1, b2 :: t in SelectBucket(state, b1, now, dayOf) && t in SelectBucket(state, b2, now, dayOf) ==> b1 == b2
    ensures forall t :: t in SelectAllTodos(state) ==> t in SelectBucket(state, BucketOf(t, now, dayOf), now, dayOf)
  {
  }

  /** With one reading of the clock the five selectors together account for
      the whole list, multiplicities included. */
  lemma SelectorsPartition(state: RootState, now: int, dayOf: int -> int)
    ensures multiset(SelectOverdueTodos(state, now, dayOf)) + multiset(SelectDueTodayTodos(state, now, dayOf))
          + multiset(SelectUpcomingTodos(state, now, dayOf)) + multiset(SelectUnscheduledTodos(state))
          + multiset(SelectCompletedTodos(state)) == multiset(SelectAllTodos(state))
  {
    OverdueFilterIsBucket(state.todos.todos, now, dayOf);
    DueTodayFilterIsBucket(state.todos.todos, now, dayOf);
    UpcomingFilterIsBucket(state.todos.todos, now, dayOf);
    UnscheduledFilterIsBucket(state.todos.todos, now, dayOf);
    CompletedFilterIsBucket(state.todos.todos, now, dayOf);
    BucketsSplitList(SelectAllTodos(state), now, dayOf);
  }

  /** So the five selectors' sizes add up to the length of the list. */
  lemma SelectorSizesAddUp(state: RootState, now: int, dayOf: int -> int)
    ensures |SelectOverdueTodos(state, now, dayOf)| + |SelectDueTodayTodos(state, now, dayOf)|
          + |SelectUpcomingTodos(state, now, dayOf)| + |SelectUnscheduledTodos(state)|
          + |SelectCompletedTodos(state)| == |SelectAllTodos(state)|
  {
    var o, d, u := SelectOverdueTodos(state, now, dayOf), SelectDueTodayTodos(state, now, dayOf),
      SelectUpcomingTodos(state, now, dayOf);
    var n, c := SelectUnscheduledTodos(state), SelectCompletedTodos(state);
    SelectorsPartition(state, now, dayOf);
    calc {
      |o| + |d| + |u| + |n| + |c|;
      |multiset(o)| + |multiset(d)| + |multiset(u)| + |multiset(n)| + |multiset(c)|;
      |multiset(o) + multiset(d) + multiset(u) + multiset(n) + multiset(c)|;
      |multiset(SelectAllTodos(state))|;
      |SelectAllTodos(state)|;
    }
  }
}
