/** One todo of the list, shown read-only or as an edit form. */
module Editable {
  import opened Todos
  import opened Form
  import App

  /** A call the item makes to a callback its parent supplied. */
  datatype Call = UpdateCall(todo: Todo) | RemoveCall(id: JsId)

  /** The editable fields of a todo, as a form draft. */
  function DraftOf(t: Todo): (d: FormData)
  {
    FormData(t.title, t.description, t.priority)
  }

  /** The record `{id: todo.id, ...formData}` handed to `update`. The draft
      has no `id` key, so the spread keeps the todo's id, and every other
      field comes from the draft. */
  function SaveRecord(todo: Todo, formData: FormData): (r: Todo)
    ensures r.id == todo.id
    ensures DraftOf(r) == formData
  {
    Todo(todo.id, formData.title, formData.description, formData.priority)
  }

  /** Saving a draft equal to the todo's own fields gives the todo back. The
      edit form never starts from such a draft: see EditKeepsOnlyChangedFields. */
  lemma SaveUnchangedDraft(todo: Todo)
    ensures SaveRecord(todo, DraftOf(todo)) == todo
  {
  }

  /** Saving the edit of the `k`-th todo, when no earlier todo shares its id,
      replaces exactly that todo by one with the same id and the draft's fields. */
  lemma SaveEditsOwnTodo(s: seq<Todo>, k: nat, formData: FormData)
    requires k < |s| && IdAbsentBefore(s, s[k].id, k)
    ensures App.Updated(s, SaveRecord(s[k], formData))
            == s[k := Todo(s[k].id, formData.title, formData.description, formData.priority)]
  {
  }

  /** The edit form is mounted as `<TodoForm todo={todo} .../>`, but the form
      reads no `todo` prop, so its draft starts from `DefaultTodoFormData`.
      Changing only the title and saving therefore sends description "" and
      priority 1 to `update`, whatever the todo held before. */
  lemma EditKeepsOnlyChangedFields(todo: Todo, title: string)
    ensures SaveRecord(todo, WithInput(DefaultTodoFormData, TitleInput(title)))
            == Todo(todo.id, title, "", 1)
  {
  }

  /** The editable wrapper of one todo. `calls` records, in order, the calls
      it has made to its `update` and `remove` callbacks. */
  class EditableTodo {
    const todo: Todo
    var isEditing: bool
    ghost var calls: seq<Call>

    constructor (todo: Todo)
      ensures this.todo == todo
      ensures !isEditing && calls == []
    {
      this.todo := todo;
      isEditing := false;
      calls := [];
    }

    /** Switch between the read-only view and the edit form. */
    method ToggleEdit()
      modifies this`isEditing
      ensures isEditing == !old(isEditing)
    {
      var status := if isEditing then false else true;
      isEditing := status;
    }

    /** The delete button's handler, as written: its parameter is the click
        event React passes, which has no `id` property, so `remove` is called
        once with `undefined` rather than with this todo's id. */
    method HandleDelete()
      modifies this`calls
      ensures calls == old(calls) + [RemoveCall(Undefined)]
      ensures isEditing == old(isEditing)
    {
      calls := calls + [RemoveCall(Undefined)];
    }

    /** The delete handler with the evident intent: `remove(todo.id)`. */
    method HandleDeleteById()
      modifies this`calls
      ensures calls == old(calls) + [RemoveCall(Defined(todo.id))]
      ensures isEditing == old(isEditing)
    {
      calls := calls + [RemoveCall(Defined(todo.id))];
    }

    /** The edit form was saved: call `update` once with the draft under this
        todo's id, then toggle. */
    method HandleSave(formData: FormData)
      modifies this`isEditing, this`calls
      ensures calls == old(calls) + [UpdateCall(SaveRecord(todo, formData))]
      ensures isEditing == !old(isEditing)
    {
      calls := calls + [UpdateCall(SaveRecord(todo, formData))];
      ToggleEdit();
    }
  }

  /** Toggling twice restores the original mode. */
  method ToggleTwice(item: EditableTodo)
    modifies item
    ensures item.isEditing == old(item.isEditing)
    ensures item.calls == old(item.calls)
  {
    item.ToggleEdit();
    item.ToggleEdit();
  }

  /** The edit form shown while editing has `handleSave` as its save callback
      and, having no `initialFormData` prop, the default draft as its initial
      draft: submitting it makes the item call `update` once with the
      submitted draft under the item's id, resets the form to the default
      draft and, starting from editing, returns the item to the read-only view. */
  method SubmitEditForm(item: EditableTodo, form: TodoForm)
    requires item.isEditing
    requires form.initialFormData == DefaultTodoFormData
    modifies item, form
    ensures form.saved == old(form.saved) + [old(form.formData)]
    ensures form.formData == DefaultTodoFormData
    ensures item.calls == old(item.calls) + [UpdateCall(SaveRecord(item.todo, old(form.formData)))]
    ensures !item.isEditing
  {
    item.HandleSave(form.formData);
    form.HandleSubmit();
  }
}
