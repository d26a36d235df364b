# productiv: a model of the todo app's state logic

The app keeps a list of todos. Each todo has an id, a title, a description and
a priority, where a lower number is more urgent. The root component `TodoApp`
owns the list and defines `update` and two empty stubs, `create` and
`remove`. Its markup is an unfinished skeleton: it renders `EditableTodoList`
and `TopTodo` without any props, so neither `todos` nor the callbacks reach
them. `TopTodo` shows the most urgent todo of the list it is given. Each `EditableTodo` switches
between a read-only view and an edit form. `TodoForm` keeps a draft that the
user changes one input at a time, hands it to a save callback on submit, and
then resets it.

The model has one Dafny module per component:

- `Todos` (`todos.dfy`): the `Todo` record and the `undefined`-or-string id
  value passed to `remove`.
- `App` (`todo_app.dfy`): the class `TodoApp`, whose state `todos` is an
  array; initially it is the caller's `initialTodos` array itself. `Update` edits the first todo with a matching id in that array and
  then makes a fresh copy of it the new state. It is proved against the
  function `Updated`, and the update properties are lemmas about `Updated`.
- `Top` (`top_todo.dfy`): `TopTodo` is the `reduce` as a left fold seeded with
  the first todo. Its contract says the result belongs to the list, that no
  todo is more urgent, and that ties go to the earliest todo.
- `Form` (`todo_form.dfy`): the draft record, the single-field updater
  `WithInput`, and the class `TodoForm` with its draft and a ghost trace of the
  drafts it passed to `handleSave`.
- `Editable` (`editable_todo.dfy`): the class `EditableTodo` with
  `isEditing` and a ghost trace of its calls to `update` and `remove`. It also
  holds the record `SaveRecord` that `handleSave` builds, and the wiring
  between the edit form and `handleSave`.

React's state setters are modelled as immediate assignments. The callbacks a
component receives as props (`update`, `remove`, `handleSave`) are recorded in
ghost traces of calls, because the source does not connect `TodoApp`'s
operations to any child. `Editable.SaveEditsOwnTodo` composes `update` with the
record `handleSave` builds, as the props documented at src/EditableTodo.js:7-10
(`update(): fn to call to update a todo`) and the component hierarchy at
src/TodoApp.js:15 describe it, not as the source wires it.
`Editable.SubmitEditForm` does follow the source's own wiring of the edit form
to `handleSave`.

## Model

| member | source | states |
|---|---|---|
| App.FirstIndexOf | src/TodoApp.js:31-32 | the scan's result: the first index holding the id, and no earlier index holds it; if there is none, no index holds it |
| App.Updated | src/TodoApp.js:30-44 | update keeps the length and the id at every position, and every position holds either its old todo or the updated record |
| App.UpdateReplacesFirstMatch | src/TodoApp.js:31-41 | when `k` is the first position with the id, the result is the old list with only position `k` replaced; later duplicates and all other positions keep their values (the `break`) |
| App.UpdateMissIsIdentity | src/TodoApp.js:31-43 | an update whose id is in no todo leaves the list equal by value |
| App.UpdateIdempotent | src/TodoApp.js:30-44 | applying the same update twice gives the same list as applying it once |
| App.TodoApp.constructor | src/TodoApp.js:18-20 | the state is the caller's `initialTodos` array itself, not a copy, so the first `Update` edits that array in place |
| App.TodoApp.Create | src/TodoApp.js:23-27 | the stub changes neither the state reference nor its contents |
| App.TodoApp.Update | src/TodoApp.js:30-44 | the new state is a fresh array equal to `Updated(old list, updatedTodo)`, and the previous state array was edited in place to the same contents |
| App.TodoApp.Remove | src/TodoApp.js:47-48 | the empty stub changes neither the state reference nor its contents |
| Top.Step | src/TopTodo.js:17-18 | the reducer returns the accumulator or the current todo; its priority is at most both; on equal priority it keeps the accumulator |
| Top.Reduce | src/TopTodo.js:17-18 | the fold returns the seed or a todo of the rest, and its priority is at most the seed's and every todo's of the rest |
| Top.FirstMinimumUnique | src/TopTodo.js:18 | a list has at most one position that holds the least priority with no earlier position holding it |
| Top.ReduceReachesFirstMinimum | src/TopTodo.js:17-18 | folding the reducer over the rest of the list, with the accumulator at the first minimum of the prefix seen so far, ends at the first minimum of the whole list |
| Top.TopTodo | src/TopTodo.js:15-18 | for a non-empty list, the result is a todo of the list, its priority is at most every todo's, and it sits at the list's first-minimum position, which exists and is unique: the earliest todo with the least priority |
| Top.TopOfSingleton | src/TopTodo.js:17-18 | a one-todo list yields that todo |
| Top.TopTieGoesToEarliest | src/TopTodo.js:18 | with priorities 3, 1, 2, 1 the second todo is selected, not the fourth, because replacement needs a strictly smaller priority |
| Form.WithInput | src/TodoForm.js:26-29 | the field named by the input takes the input's value, and every other field keeps its value |
| Form.LastInputWins | src/TodoForm.js:26-29 | two changes of the same field give the result of the later change alone |
| Form.InputsCommute | src/TodoForm.js:26-29 | changes of different fields give the same draft in either order |
| Form.TodoForm.constructor | src/TodoForm.js:12-20 | the draft starts as `initialFormData`, which defaults to title "", description "" and priority 1; no save has happened yet |
| Form.TodoForm.HandleChange | src/TodoForm.js:23-30 | the draft becomes the old draft with only the named field overwritten |
| Form.TodoForm.HandleSubmit | src/TodoForm.js:33-39 | `handleSave` receives the draft exactly once, as it was before the reset, and then the draft equals `initialFormData` |
| Editable.SaveRecord | src/EditableTodo.js:37-41 | the record passed to `update` carries the todo's own id, and its title, description and priority are those of the draft |
| Editable.SaveUnchangedDraft | src/EditableTodo.js:41 | saving a draft that holds the todo's own fields gives back the todo itself |
| Editable.SaveEditsOwnTodo | src/EditableTodo.js:37-43 | applying `update` to the saved record of the `k`-th todo replaces that todo's fields, keeps its id, and changes no other position (the composition the props documented at src/EditableTodo.js:7-10 describe; the source passes no `update` to the items) |
| Editable.EditKeepsOnlyChangedFields | src/EditableTodo.js:48 | the edit form starts from the default draft, not from the todo, so saving after changing only the title sends that title with description "" and priority 1 |
| Editable.EditableTodo.constructor | src/EditableTodo.js:19-21 | `isEditing` starts false and no callback has been called |
| Editable.EditableTodo.ToggleEdit | src/EditableTodo.js:24-29 | `isEditing` becomes its negation |
| Editable.EditableTodo.HandleDelete | src/EditableTodo.js:32-34 | `remove` is called exactly once, with `undefined` and not the todo's id; `isEditing` is unchanged |
| Editable.EditableTodo.HandleDeleteById | src/EditableTodo.js:32-34 | the corrected handler calls `remove` exactly once with the todo's id and leaves `isEditing` unchanged |
| Editable.EditableTodo.HandleSave | src/EditableTodo.js:37-43 | `update` is called exactly once with `SaveRecord(todo, formData)`, and then `isEditing` is negated |
| Editable.ToggleTwice | src/EditableTodo.js:24-26 | two toggles restore `isEditing` and make no callback call |
| Editable.SubmitEditForm | src/EditableTodo.js:47-49 | for the edit form, whose initial draft is the default one because it is given no `initialFormData`, submitting while editing calls `update` once with the pre-reset draft under the item's id, resets the draft to the default, and returns the item to the read-only view |

## Findings

| source | as written | input that shows it | evidently intended | confidence | as-written member | corrected member |
|---|---|---|---|---|---|---|
| src/EditableTodo.js:32-33 | `handleDelete(todo)` is bound as `onClick`, so its parameter is the click event and shadows the `todo` prop; it calls `remove(event.id)`, which is `remove(undefined)` | any click on the "Del" button of any todo | `remove(todo.id)` with the prop's id | not executed; high (the event has no `id` property) | Editable.EditableTodo.HandleDelete | Editable.EditableTodo.HandleDeleteById |

`remove` is an empty stub, so with either handler the list does not change.

## Left out

- Rendering, markup and CSS are left out. This includes the form inputs whose
  displayed value is bound to `initialFormData` rather than `formData`
  (src/TodoForm.js:51, 63, 75). Because React restores the bound value after
  every change, each change event carries the initial value with only the
  last keystroke applied. The select keeps showing the initial level, so that
  level cannot be picked again once another one has been chosen. The model
  lets an `Input` carry any value, so its properties also cover these.
- React hook machinery (scheduling, batching, re-rendering, the timing of
  functional updaters) is left out. Each setter is an immediate assignment.
- Browser events are left out, including `preventDefault`. A change event is
  reduced to its `name`/`value` pair, written as one `Input` constructor per
  form element.
- Id generation (`uuid`) is left out. Nothing in the modelled code calls it.
- `create` and `remove` have empty bodies, so they are modelled as operations
  that change nothing. No append or delete semantics are invented for them.
- The components `Todo`, `EditableTodoList` and `App` are not part of this
  model. `TodoApp` renders its children without props (src/TodoApp.js:55,
  src/TodoApp.js:63), so no `update` or `remove` reaches an item. Each item's
  callback calls are therefore a ghost trace.
- Priority is an `int`. A priority select sends its value as a string
  (src/TodoForm.js:79-81), so a draft saved after touching the select carries
  a string priority, while the default draft's priority is the number 1
  (src/TodoForm.js:15). The model does not represent a string priority in the
  list. At the `<` in src/TopTodo.js:18, only a string-versus-string
  comparison is textual; a number against a string compares both as numbers.
  For the values the form offers ("1", "2", "3"), text order and numeric order
  agree, so the selected todo is the same either way.
- Top.TopTodo: the empty list is excluded by its precondition. In the source,
  `todos.reduce(f, todos[0])` on an empty array returns `undefined` without
  throwing, because the seed argument is given, and `<Todo todo={undefined}/>`
  is rendered. The note at src/TodoApp.js:60 says the section should be
  omitted then, but the skeleton renders `<TopTodo />` unconditionally.
- App.Updated: todos are typed records with exactly four fields. So extra
  properties on the object passed to `update` are not representable. The
  source drops them by building a fresh four-field record (src/TodoApp.js:33-38).
- Editable.SaveRecord: the draft is a record with only title, description
  and priority. So a draft carrying its own `id` key, which the spread in
  src/EditableTodo.js:41 would let override `todo.id`, is not representable.
  The default draft and the three form inputs never add such a key.
