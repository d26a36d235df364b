/** The values shared by every component of the todo app. */
module Todos {

  datatype Option<T> = None | Some(value: T)

  /** A todo as the app stores it. A lower `priority` number is more urgent
      (1 is the most urgent level the form offers). */
  datatype Todo = Todo(id: string, title: string, description: string, priority: int)

  /** A JavaScript value handed to `remove` as an id: a string, or `undefined`. */
  datatype JsId = Undefined | Defined(id: string)

  /** No todo among the first `n` of `s` carries `id`. */
  predicate IdAbsentBefore(s: seq<Todo>, id: string, n: nat)
    requires n <= |s|
  {
    forall j :: 0 <= j < n ==> s[j].id != id
  }
}
