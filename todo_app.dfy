/** The root component: owns the list of todos and the operations on it. */
module App {
  import opened Todos
  import Form

  /** The index of the first todo in `s` whose id is `id`, if any. */
  function FirstIndexOf(s: seq<Todo>, id: string): (r: Option<nat>)
    ensures r.Some? ==> r.value < |s| && s[r.value].id == id && IdAbsentBefore(s, id, r.value)
    ensures r.None? ==> IdAbsentBefore(s, id, |s|)
  {
    if s == [] then None
    else if s[0].id == id then Some(0)
    else match FirstIndexOf(s[1..], id)
      case None => None
      case Some(k) => Some(k + 1)
  }

  /** The list after `update(updatedTodo)`: the first todo with the same id is
      replaced by a record built from the four fields of `updatedTodo`; a list
      without that id is left as it is. */
  function Updated(s: seq<Todo>, updatedTodo: Todo): (r: seq<Todo>)
    ensures |r| == |s|
    ensures forall j :: 0 <= j < |s| ==> r[j].id == s[j].id
    ensures forall j :: 0 <= j < |s| ==> r[j] == s[j] || r[j] == updatedTodo
  {
    match FirstIndexOf(s, updatedTodo.id)
    case None => s
    case Some(k) => s[k := updatedTodo]
  }

  /** Only the first todo carrying the id changes, and it changes to the
      updated record; every other position, later duplicates included, keeps
      its value. */
  lemma UpdateReplacesFirstMatch(s: seq<Todo>, updatedTodo: Todo, k: nat)
    requires k < |s| && s[k].id == updatedTodo.id
    requires IdAbsentBefore(s, updatedTodo.id, k)
    ensures Updated(s, updatedTodo) == s[k := updatedTodo]
    ensures forall j :: 0 <= j < |s| && j != k ==> Updated(s, updatedTodo)[j] == s[j]
  {
  }

  /** An update whose id is not in the list changes nothing. */
  lemma UpdateMissIsIdentity(s: seq<Todo>, updatedTodo: Todo)
    requires IdAbsentBefore(s, updatedTodo.id, |s|)
    ensures Updated(s, updatedTodo) == s
  {
  }

  /** Repeating an update changes nothing more. */
  lemma UpdateIdempotent(s: seq<Todo>, updatedTodo: Todo)
    ensures Updated(Updated(s, updatedTodo), updatedTodo) == Updated(s, updatedTodo)
  {
  }

  /** The root component's state: `todos` is the array React holds. */
  class TodoApp {
    var todos: array<Todo>

    /** `useState(initialTodos)` keeps the caller's array itself as the
        state, so a later in-place edit by `Update` lands in that array. */
    constructor (initialTodos: array<Todo>)
      ensures todos == initialTodos
    {
      todos := initialTodos;
    }

    /** A stub: it builds an empty local list and sets no state. */
    method Create(newTodo: Form.FormData)
      ensures todos == old(todos) && todos[..] == old(todos[..])
    {
      var newTodoList: seq<Todo> := [];
    }

    /** Edit the first todo carrying `updatedTodo.id` in place in the current
        array, then make a copy of that array the new state. */
    method Update(updatedTodo: Todo)
      modifies this, todos
      ensures fresh(todos)
      ensures todos[..] == Updated(old(todos[..]), updatedTodo)
      ensures old(todos)[..] == todos[..]
    {
      var i := 0;
      while i < todos.Length
        invariant 0 <= i <= todos.Length
        invariant todos[..] == old(todos[..])
        invariant IdAbsentBefore(todos[..], updatedTodo.id, i)
      {
        if todos[i].id == updatedTodo.id {
          UpdateReplacesFirstMatch(todos[..], updatedTodo, i);
          todos[i] := Todo(updatedTodo.id, updatedTodo.title, updatedTodo.description, updatedTodo.priority);
          break;
        }
        i := i + 1;
      }
      if i == todos.Length {
        UpdateMissIsIdentity(todos[..], updatedTodo);
      }
      var spread := todos[..];
      todos := new Todo[|spread|](j requires 0 <= j < |spread| => spread[j]);
    }

    /** A stub: its body is empty, so the list never changes. */
    method Remove(id: JsId)
      ensures todos == old(todos) && todos[..] == old(todos[..])
    {
    }
  }
}
