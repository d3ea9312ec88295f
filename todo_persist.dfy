/** The persistence transforms of the todo slice: `in` turns every `Date`
    field into its ISO-8601 text before storage, `out` parses it back when
    the state is loaded. `Date.prototype.toISOString` and `new Date(text)`
    are library code; they are the parameters `toIso` and `parseIso`. */
module TodoPersist {
  import opened TodoTypes
  import opened TodoSlice

  /** A stored item: the dates are text, everything else as in `Todo`. */
  datatype StoredTodo = StoredTodo(
    id: int,
    title: string,
    body: string,
    completed: bool,
    isEditing: bool,
    dueDate: Option<string>,
    createdAt: string,
    updatedAt: string)

  /** The stored slice state. */
  datatype StoredState = StoredState(todos: seq<StoredTodo>)

  /** What the transforms need from the date library: parsing an ISO string
      gives back the instant it was made from, and that string is never empty
      (an empty string is falsy, which `out` reads as "no due date"). */
  ghost predicate IsoRoundTrips(toIso: int -> string, parseIso: string -> int)
  {
    forall t :: parseIso(toIso(t)) == t && toIso(t) != ""
  }

  /** One item through `in`. */
  function StoreTodo(t: Todo, toIso: int -> string): (r: StoredTodo)
    ensures r.id == t.id && r.title == t.title && r.body == t.body
    ensures r.completed == t.completed && r.isEditing == t.isEditing
    ensures r.createdAt == toIso(t.createdAt) && r.updatedAt == toIso(t.updatedAt)
    ensures r.dueDate.Some? <==> t.dueDate.Some?
    ensures t.dueDate.Some? ==> r.dueDate.value == toIso(t.dueDate.value)
  {
    StoredTodo(t.id, t.title, t.body, t.completed, t.isEditing,
               match t.dueDate case None => None case Some(d) => Some(toIso(d)),
               toIso(t.createdAt), toIso(t.updatedAt))
  }

  /** One item through `out`: `createdAt` and `updatedAt` are always parsed;
      `dueDate` only when it is present and not the empty string. */
  function LoadTodo(w: StoredTodo, parseIso: string -> int): (r: Todo)
    ensures r.id == w.id && r.title == w.title && r.body == w.body
    ensures r.completed == w.completed && r.isEditing == w.isEditing
    ensures r.createdAt == parseIso(w.createdAt) && r.updatedAt == parseIso(w.updatedAt)
    ensures r.dueDate.Some? <==> w.dueDate.Some? && w.dueDate.value != ""
    ensures r.dueDate.Some? ==> r.dueDate.value == parseIso(w.dueDate.value)
  {
    Todo(w.id, w.title, w.body, w.completed, w.isEditing,
         if w.dueDate.Some? && w.dueDate.value != "" then Some(parseIso(w.dueDate.value)) else None,
         parseIso(w.createdAt), parseIso(w.updatedAt))
  }

  /** `todos.map(...)` of `in`: item by item, same length and order; only the
      three date fields change, and an absent due date stays absent. */
  function StoreTodos(s: seq<Todo>, toIso: int -> string): (r: seq<StoredTodo>)
    ensures |r| == |s|
    ensures forall i :: 0 <= i < |s| ==>
      && r[i].id == s[i].id && r[i].title == s[i].title && r[i].body == s[i].body
      && r[i].completed == s[i].completed && r[i].isEditing == s[i].isEditing
      && r[i].createdAt == toIso(s[i].createdAt) && r[i].updatedAt == toIso(s[i].updatedAt)
      && (r[i].dueDate.Some? <==> s[i].dueDate.Some?)
      && (s[i].dueDate.Some? ==> r[i].dueDate.value == toIso(s[i].dueDate.value))
  {
    if s == [] then [] else [StoreTodo(s[0], toIso)] + StoreTodos(s[1..], toIso)
  }

  /** `todos.map(...)` of `out`: item by item, same length and order; only the
      three date fields change. */
  function LoadTodos(s: seq<StoredTodo>, parseIso: string -> int): (r: seq<Todo>)
    ensures |r| == |s|
    ensures forall i :: 0 <= i < |s| ==>
      && r[i].id == s[i].id && r[i].title == s[i].title && r[i].body == s[i].body
      && r[i].completed == s[i].completed && r[i].isEditing == s[i].isEditing
      && r[i].createdAt == parseIso(s[i].createdAt) && r[i].updatedAt == parseIso(s[i].updatedAt)
      && (r[i].dueDate.Some? <==> s[i].dueDate.Some? && s[i].dueDate.value != "")
      && (r[i].dueDate.Some? ==> r[i].dueDate.value == parseIso(s[i].dueDate.value))
  {
    if s == [] then [] else [LoadTodo(s[0], parseIso)] + LoadTodos(s[1..], parseIso)
  }

  /** The `in` transform: the state with its list stored. */
  function PersistIn(state: TodoState, toIso: int -> string): (r: StoredState)
    ensures |r.todos| == |state.todos|
  {
    StoredState(StoreTodos(state.todos, toIso))
  }

  /** The `out` transform: the stored state with its list loaded. */
  function PersistOut(stored: StoredState, parseIso: string -> int): (r: TodoState)
    ensures |r.todos| == |stored.todos|
  {
    TodoState(LoadTodos(stored.todos, parseIso))
  }

  /** Loading what was stored gives back the list exactly, item by item. */
  lemma {:induction false} LoadStoreTodos(s: seq<Todo>, toIso: int -> string, parseIso: string -> int)
    requires IsoRoundTrips(toIso, parseIso)
    ensures LoadTodos(StoreTodos(s, toIso), parseIso) == s
  {
    if s != [] {
      LoadStoreTodos(s[1..], toIso, parseIso);
      var t := s[0];
      assert parseIso(toIso(t.createdAt)) == t.createdAt;
      assert parseIso(toIso(t.updatedAt)) == t.updatedAt;
      if t.dueDate.Some? {
        assert parseIso(toIso(t.dueDate.value)) == t.dueDate.value;
        assert toIso(t.dueDate.value) != "";
      }
      assert LoadTodo(StoreTodo(t, toIso), parseIso) == t;
    }
  }

  /** `out(in(state)) == state` whenever the ISO pair round-trips. */
  lemma PersistRoundTrip(state: TodoState, toIso: int -> string, parseIso: string -> int)
    requires IsoRoundTrips(toIso, parseIso)
    ensures PersistOut(PersistIn(state, toIso), parseIso) == state
  {
    LoadStoreTodos(state.todos, toIso, parseIso);
  }

  /** Without the non-empty guarantee the round trip can lose a due date: an
      encoder that writes some instant as "" makes `out` drop it. */
  lemma EmptyIsoLosesDueDate(t: Todo, toIso: int -> string, parseIso: string -> int)
    requires t.dueDate.Some? && toIso(t.dueDate.value) == ""
    ensures LoadTodo(StoreTodo(t, toIso), parseIso).dueDate.None?
  {
  }
}
