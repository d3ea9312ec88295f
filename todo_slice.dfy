/** The todo slice: the comparator and sort applied after add, toggle and
    update, and the store whose six reducers change the list of todos. */
module TodoSlice {
  import opened TodoTypes
  import opened Lists

  /** The slice's state, `{ todos: Todo[] }`. */
  datatype TodoState = TodoState(todos: seq<Todo>)

  /** Payload of `addTodo`. */
  datatype NewTodo = NewTodo(title: string, body: string, dueDate: Option<int>)

  /** Payload of `updateTodo`. */
  datatype TodoUpdate = TodoUpdate(id: int, title: string, body: string, dueDate: Option<int>)

  // ---------------------------------------------------------------------------
  // The comparator
  // ---------------------------------------------------------------------------

  /** The comparator given to `sort`: negative puts `a` first, positive puts
      `b` first. Only (completed, not completed) is decided by completion; the
      reverse pair falls through to the due-date rules. */
  function Compare(a: Todo, b: Todo): (r: int)
    ensures a.completed && !b.completed ==> r == 1
    ensures !(a.completed && !b.completed) ==> (r < 0 <==> Ahead(a, b))
  {
    if a.completed && !b.completed then 1
    else if a.dueDate.None? && b.dueDate.None? then b.createdAt - a.createdAt
    else if a.dueDate.None? then 1
    else if b.dueDate.None? then -1
    else b.dueDate.value - a.dueDate.value
  }

  /** Reference statement of "`a` strictly ahead of `b`" within one completion
      group: dated before undated, later due date first, and between undated
      items the later creation first. */
  predicate Ahead(a: Todo, b: Todo)
  {
    || (a.dueDate.Some? && b.dueDate.None?)
    || (a.dueDate.Some? && b.dueDate.Some? && a.dueDate.value > b.dueDate.value)
    || (a.dueDate.None? && b.dueDate.None? && a.createdAt > b.createdAt)
  }

  /** An incomplete item compared with a completed one ignores completion:
      the result is what it would be if both were incomplete. */
  lemma IncompleteComparedFirstIgnoresCompletion(a: Todo, b: Todo)
    requires !a.completed && b.completed
    ensures Compare(a, b) == Compare(a, b.(completed := false))
  {
  }

  /** Within one completion group the comparator orders exactly by `Ahead`. */
  lemma SameCompletionOrder(a: Todo, b: Todo)
    requires a.completed == b.completed
    ensures Compare(a, b) < 0 <==> Ahead(a, b)
    ensures Compare(a, b) > 0 <==> Ahead(b, a)
  {
  }

  /** Within one completion group the comparator is antisymmetric ... */
  lemma CompareAntisymmetric(a: Todo, b: Todo)
    requires a.completed == b.completed
    ensures Compare(a, b) == -Compare(b, a)
  {
  }

  /** ... and "not after" is transitive, so it is a total preorder there. */
  lemma CompareTransitive(a: Todo, b: Todo, c: Todo)
    requires a.completed == b.completed == c.completed
    requires Compare(a, b) <= 0 && Compare(b, c) <= 0
    ensures Compare(a, c) <= 0
  {
  }

  /** Across completion groups the comparator is inconsistent: there are an
      incomplete `a` and a completed `b` that it asks to put after each other
      (the pair of the toggle test: due 2024-01-01 and 2024-02-01). */
  lemma ComparatorInconsistentAcrossCompletion()
    ensures exists a: Todo, b: Todo :: !a.completed && b.completed && Compare(a, b) > 0 && Compare(b, a) > 0
  {
    var jan := Todo(2, "Todo 2", "description 2", false, false, Some(1704067200000), 0, 0);
    var feb := Todo(1, "Todo 1", "description 1", true, false, Some(1706745600000), 0, 0);
    assert Compare(jan, feb) > 0 && Compare(feb, jan) > 0;
  }

  // ---------------------------------------------------------------------------
  // Sorting
  // ---------------------------------------------------------------------------

  /** Every pair is in comparator order (not only neighbours). */
  predicate InOrder(s: seq<Todo>)
  {
    forall i, j :: 0 <= i < j < |s| ==> Compare(s[i], s[j]) <= 0
  }

  /** The comparator is consistent on the pair `a`, `b`: line 15 puts a
      completed item after an incomplete one, and the due-date rules agree
      whenever the incomplete one is `Ahead` of the completed one. */
  predicate ConsistentPair(a: Todo, b: Todo)
  {
    && (!a.completed && b.completed ==> Ahead(a, b))
    && (!b.completed && a.completed ==> Ahead(b, a))
  }

  /** The comparator is consistent on every pair of `s`; this holds in
      particular when all items share one completion status. */
  predicate Consistent(s: seq<Todo>)
  {
    forall x, y :: x in s && y in s ==> ConsistentPair(x, y)
  }

  /** On a consistent pair, "not before" one way is "not after" the other. */
  lemma ConsistentFlip(a: Todo, b: Todo)
    requires ConsistentPair(a, b) && Compare(a, b) >= 0
    ensures Compare(b, a) <= 0
  {
  }

  /** On pairwise consistent items, "not after" is transitive. */
  lemma ConsistentTransitive(a: Todo, b: Todo, c: Todo)
    requires ConsistentPair(a, b) && ConsistentPair(b, c) && ConsistentPair(a, c)
    requires Compare(a, b) <= 0 && Compare(b, c) <= 0
    ensures Compare(a, c) <= 0
  {
  }

  /** What any conforming sort with this comparator guarantees: `r` is a
      permutation of `s`, and it is in comparator order whenever the
      comparator is consistent on `s`. */
  predicate IsSortOf(r: seq<Todo>, s: seq<Todo>)
  {
    multiset(r) == multiset(s) && (Consistent(s) ==> InOrder(r))
  }

  /** Inserting `x` before the first item it must precede keeps an ordered
      list in order, when the comparator is consistent on the items. */
  lemma InsertInOrder(r: seq<Todo>, x: Todo, j: int)
    requires 0 <= j <= |r|
    requires InOrder(r)
    requires forall y :: y in r ==> ConsistentPair(x, y)
    requires forall y, z :: y in r && z in r ==> ConsistentPair(y, z)
    requires forall k :: 0 <= k < j ==> Compare(x, r[k]) >= 0
    requires j < |r| ==> Compare(x, r[j]) < 0
    ensures InOrder(r[..j] + [x] + r[j..])
  {
    var res := r[..j] + [x] + r[j..];
    forall p, q | 0 <= p < q < |res|
      ensures Compare(res[p], res[q]) <= 0
    {
      if q < j || p > j {
        var p', q' := if p < j then p else p - 1, if q < j then q else q - 1;
        assert res[p] == r[p'] && res[q] == r[q'];
      } else if p == j {
        assert res[q] == r[q - 1] && r[j] in r && r[q - 1] in r;
        if q - 1 > j {
          ConsistentTransitive(x, r[j], r[q - 1]);
        }
      } else if q == j {
        assert res[p] == r[p] && r[p] in r;
        ConsistentFlip(x, r[p]);
      } else {
        assert res[p] == r[p] && res[q] == r[q - 1];
      }
    }
  }

  /** Where the insertion sort puts `x`: after every item it does not have to
      precede, before the first one it must precede. */
  method InsertionPoint(sorted: seq<Todo>, x: Todo) returns (j: int)
    ensures 0 <= j <= |sorted|
    ensures forall k :: 0 <= k < j ==> Compare(x, sorted[k]) >= 0
    ensures j < |sorted| ==> Compare(x, sorted[j]) < 0
  {
    j := 0;
    while j < |sorted| && Compare(x, sorted[j]) >= 0
      invariant 0 <= j <= |sorted|
      invariant forall k :: 0 <= k < j ==> Compare(x, sorted[k]) >= 0
    {
      j := j + 1;
    }
  }

  /** One step of the insertion sort keeps the sorted prefix a permutation of
      the input read so far. */
  lemma InsertKeepsItems(todos: seq<Todo>, i: int, sorted: seq<Todo>, j: int)
    requires 0 <= i < |todos| && 0 <= j <= |sorted|
    requires multiset(sorted) == multiset(todos[..i])
    ensures multiset(sorted[..j] + [todos[i]] + sorted[j..]) == multiset(todos[..i + 1])
  {
    calc {
      multiset(sorted[..j] + [todos[i]] + sorted[j..]);
      multiset(sorted[..j]) + multiset{todos[i]} + multiset(sorted[j..]);
      { assert sorted[..j] + sorted[j..] == sorted; }
      multiset(sorted) + multiset{todos[i]};
      { assert todos[..i + 1] == todos[..i] + [todos[i]]; }
      multiset(todos[..i + 1]);
    }
  }

  /** One step of the insertion sort keeps the sorted prefix ordered when the
      comparator is consistent on the whole input. */
  lemma InsertKeepsOrder(todos: seq<Todo>, i: int, sorted: seq<Todo>, j: int)
    requires 0 <= i < |todos| && 0 <= j <= |sorted|
    requires multiset(sorted) == multiset(todos[..i])
    requires Consistent(todos) && InOrder(sorted)
    requires forall k :: 0 <= k < j ==> Compare(todos[i], sorted[k]) >= 0
    requires j < |sorted| ==> Compare(todos[i], sorted[j]) < 0
    ensures InOrder(sorted[..j] + [todos[i]] + sorted[j..])
  {
    forall y | y in sorted
      ensures y in todos
    {
      assert y in multiset(todos[..i]);
    }
    InsertInOrder(sorted, todos[i], j);
  }

  /** One step of the insertion sort: `todos[i]` goes in at its insertion
      point, so the result holds the first `i + 1` inputs and stays ordered
      when the comparator is consistent on the whole input. */
  method InsertNext(todos: seq<Todo>, i: int, sorted: seq<Todo>) returns (next: seq<Todo>)
    requires 0 <= i < |todos|
    requires multiset(sorted) == multiset(todos[..i])
    requires Consistent(todos) ==> InOrder(sorted)
    ensures multiset(next) == multiset(todos[..i + 1])
    ensures Consistent(todos) ==> InOrder(next)
  {
    var j := InsertionPoint(sorted, todos[i]);
    InsertKeepsItems(todos, i, sorted, j);
    if Consistent(todos) {
      InsertKeepsOrder(todos, i, sorted, j);
    }
    next := sorted[..j] + [todos[i]] + sorted[j..];
  }

  /** `sortTodos`: sorts a copy, so the argument is untouched. The body is an
      insertion sort; callers may rely only on the contract, which is what
      every conforming sort guarantees with this comparator. */
  method SortTodos(todos: seq<Todo>) returns (sorted: seq<Todo>)
    ensures multiset(sorted) == multiset(todos)
    ensures Consistent(todos) ==> InOrder(sorted)
  {
    sorted := [];
    var i := 0;
    while i < |todos|
      invariant 0 <= i <= |todos|
      invariant multiset(sorted) == multiset(todos[..i])
      invariant Consistent(todos) ==> InOrder(sorted)
    {
      sorted := InsertNext(todos, i, sorted);
      i := i + 1;
    }
    assert todos[..i] == todos;
  }

  /** A subsequence of an ordered list is ordered. */
  lemma {:induction false} SubseqKeepsOrder(r: seq<Todo>, s: seq<Todo>)
    requires Subseq(r, s) && InOrder(s)
    ensures InOrder(r)
  {
    if r != [] && s != [] {
      assert InOrder(s[1..]) by {
        forall i, j | 0 <= i < j < |s[1..]| ensures Compare(s[1..][i], s[1..][j]) <= 0 {
          assert s[1..][i] == s[i + 1] && s[1..][j] == s[j + 1];
        }
      }
      if r[0] == s[0] {
        SubseqKeepsOrder(r[1..], s[1..]);
        SubseqMembers(r[1..], s[1..]);
        forall i, j | 0 <= i < j < |r| ensures Compare(r[i], r[j]) <= 0 {
          if i == 0 {
            assert r[j] == r[1..][j - 1] && r[j] in r[1..];
            var k :| 0 <= k < |s[1..]| && s[1..][k] == r[j];
            assert s[k + 1] == r[j];
          } else {
            assert r[i] == r[1..][i - 1] && r[j] == r[1..][j - 1];
          }
        }
      } else {
        SubseqKeepsOrder(r, s[1..]);
      }
    }
  }

  /** Changing only the editing flag of one item keeps an ordered list ordered:
      the comparator never reads `isEditing`. */
  lemma EditFlagKeepsOrder(s: seq<Todo>, k: int, editing: bool)
    requires 0 <= k < |s| && InOrder(s)
    ensures InOrder(s[k := s[k].(isEditing := editing)])
  {
  }

  // ---------------------------------------------------------------------------
  // Lookup and removal
  // ---------------------------------------------------------------------------

  /** `todos.find(todo => todo.id === id)`, as the index of the first match. */
  function FindById(s: seq<Todo>, id: int): (r: Option<nat>)
    ensures r.None? <==> forall k :: 0 <= k < |s| ==> s[k].id != id
    ensures r.Some? ==> r.value < |s| && s[r.value].id == id
    ensures r.Some? ==> forall k :: 0 <= k < r.value ==> s[k].id != id
  {
    if s == [] then None
    else if s[0].id == id then Some(0)
    else match FindById(s[1..], id)
      case None => None
      case Some(k) => Some(k + 1)
  }

  /** `todos.filter(todo => todo.id !== id)`. */
  function WithoutId(s: seq<Todo>, id: int): (r: seq<Todo>)
    ensures forall t :: t in r <==> t in s && t.id != id
    ensures Subseq(r, s)
    ensures (forall t :: t in s ==> t.id != id) ==> r == s
    ensures forall t :: multiset(r)[t] == if t.id != id then multiset(s)[t] else 0
  {
    FilterMultiplicity(s, (t: Todo) => t.id != id);
    Filter(s, (t: Todo) => t.id != id)
  }

  /** Deleting the same id twice is the same as deleting it once. */
  lemma WithoutIdIdempotent(s: seq<Todo>, id: int)
    ensures WithoutId(WithoutId(s, id), id) == WithoutId(s, id)
  {
  }

  // ---------------------------------------------------------------------------
  // The store
  // ---------------------------------------------------------------------------

  /** The slice state as the reducers see it: a draft whose list is changed in
      place or replaced. The clock readings (`Date.now()`, `new Date()`) are
      parameters. */
  class TodoStore {
    var todos: seq<Todo>

    /** `initialState`: no todos. */
    constructor ()
      ensures todos == []
    {
      todos := [];
    }

    /** `addTodo`: push a fresh, incomplete, non-editing item built from the
        payload as given (no trimming, no check that the id is unused), then
        sort. `nowMs` is `Date.now()`; `created` and `updated` are the two
        `new Date()` readings. */
    method AddTodo(payload: NewTodo, nowMs: int, created: int, updated: int)
      modifies this
      ensures IsSortOf(todos, old(todos) + [Todo(nowMs, payload.title, payload.body, false, false, payload.dueDate, created, updated)])
      ensures |todos| == |old(todos)| + 1
    {
      var added := Todo(nowMs, payload.title, payload.body, false, false, payload.dueDate, created, updated);
      todos := todos + [added];
      ghost var pushed := todos;
      todos := SortTodos(todos);
      assert |todos| == |multiset(todos)| == |multiset(pushed)| == |pushed|;
    }

    /** `toggleTodo`: flip `completed` of the first item with the id, stamp
        `updatedAt` and sort; an absent id leaves the list as it was, unsorted. */
    method ToggleTodo(id: int, now: int)
      modifies this
      ensures match FindById(old(todos), id)
        case None => todos == old(todos)
        case Some(k) =>
          var t := old(todos)[k];
          IsSortOf(todos, old(todos)[k := t.(completed := !t.completed, updatedAt := now)])
    {
      var found := FindById(todos, id);
      if found.Some? {
        var k := found.value;
        ghost var t := todos[k];
        todos := todos[k := todos[k].(completed := !todos[k].completed)];
        todos := todos[k := todos[k].(updatedAt := now)];
        assert todos == old(todos)[k := t.(completed := !t.completed, updatedAt := now)];
        todos := SortTodos(todos);
      }
    }

    /** `deleteTodo`: keep every item whose id differs, in order; no sort. */
    method DeleteTodo(id: int)
      modifies this
      ensures todos == WithoutId(old(todos), id)
      ensures InOrder(old(todos)) ==> InOrder(todos)
    {
      todos := WithoutId(todos, id);
      if InOrder(old(todos)) {
        SubseqKeepsOrder(todos, old(todos));
      }
    }

    /** `startEditTodo`: set `isEditing` on the first item with the id; no sort. */
    method StartEditTodo(id: int)
      modifies this
      ensures match FindById(old(todos), id)
        case None => todos == old(todos)
        case Some(k) => todos == old(todos)[k := old(todos)[k].(isEditing := true)]
      ensures InOrder(old(todos)) ==> InOrder(todos)
    {
      var found := FindById(todos, id);
      if found.Some? {
        var k := found.value;
        if InOrder(todos) {
          EditFlagKeepsOrder(todos, k, true);
        }
        todos := todos[k := todos[k].(isEditing := true)];
      }
    }

    /** `cancelEditTodo`: clear `isEditing` on the first item with the id; no sort. */
    method CancelEditTodo(id: int)
      modifies this
      ensures match FindById(old(todos), id)
        case None => todos == old(todos)
        case Some(k) => todos == old(todos)[k := old(todos)[k].(isEditing := false)]
      ensures InOrder(old(todos)) ==> InOrder(todos)
    {
      var found := FindById(todos, id);
      if found.Some? {
        var k := found.value;
        if InOrder(todos) {
          EditFlagKeepsOrder(todos, k, false);
        }
        todos := todos[k := todos[k].(isEditing := false)];
      }
    }

    /** `updateTodo`: overwrite title, body and due date of the first item with
        the id, stamp `updatedAt`, clear `isEditing`, then sort; id,
        `completed` and `createdAt` stay. An absent id changes nothing. */
    method UpdateTodo(payload: TodoUpdate, now: int)
      modifies this
      ensures match FindById(old(todos), payload.id)
        case None => todos == old(todos)
        case Some(k) =>
          var t := old(todos)[k];
          IsSortOf(todos, old(todos)[k := t.(title := payload.title, body := payload.body,
                                             dueDate := payload.dueDate, updatedAt := now,
                                             isEditing := false)])
    {
      var found := FindById(todos, payload.id);
      if found.Some? {
        var k := found.value;
        ghost var t := todos[k];
        ghost var edited := t.(title := payload.title, body := payload.body,
                               dueDate := payload.dueDate, updatedAt := now, isEditing := false);
        todos := todos[k := todos[k].(title := payload.title)];
        todos := todos[k := todos[k].(body := payload.body)];
        todos := todos[k := todos[k].(dueDate := payload.dueDate)];
        todos := todos[k := todos[k].(updatedAt := now)];
        todos := todos[k := todos[k].(isEditing := false)];
        assert todos[k] == edited;
        assert todos == old(todos)[k := edited];
        todos := SortTodos(todos);
      }
    }
  }
}
