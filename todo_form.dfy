/** The add/edit form: a draft of a todo's three editable fields, changed one
    input at a time and handed to a save callback on submit. */
module Form {

  /** The form's draft: the three fields a user can edit. It has no `id`. */
  datatype FormData = FormData(title: string, description: string, priority: int)

  /** The draft a form starts from when its owner supplies none. */
  const DefaultTodoFormData := FormData("", "", 1)

  /** The `name` attribute of each form element. */
  datatype Field = Title | Description | Priority

  /** What a field holds: text, or a priority level. */
  datatype FieldValue = Text(text: string) | Level(level: int)

  /** A change event's `name`/`value` pair, one constructor per form element:
      the title input, the description textarea and the priority select. */
  datatype Input = TitleInput(text: string) | DescriptionInput(text: string) | PriorityInput(level: int)

  function NameOf(input: Input): (name: Field)
  {
    match input
    case TitleInput(_) => Title
    case DescriptionInput(_) => Description
    case PriorityInput(_) => Priority
  }

  function ValueOf(input: Input): (value: FieldValue)
  {
    match input
    case TitleInput(t) => Text(t)
    case DescriptionInput(t) => Text(t)
    case PriorityInput(p) => Level(p)
  }

  /** The draft read as a record keyed by field name. */
  function Get(d: FormData, f: Field): (value: FieldValue)
  {
    match f
    case Title => Text(d.title)
    case Description => Text(d.description)
    case Priority => Level(d.priority)
  }

  /** The state updater `fData => ({...fData, [name]: value})`: the named
      field takes the input's value and every other field keeps its own. */
  function WithInput(d: FormData, input: Input): (r: FormData)
    ensures Get(r, NameOf(input)) == ValueOf(input)
    ensures forall f :: f != NameOf(input) ==> Get(r, f) == Get(d, f)
  {
    match input
    case TitleInput(t) => d.(title := t)
    case DescriptionInput(t) => d.(description := t)
    case PriorityInput(p) => d.(priority := p)
  }

  /** Two changes of the same field: the later value wins. */
  lemma LastInputWins(d: FormData, first: Input, second: Input)
    requires NameOf(first) == NameOf(second)
    ensures WithInput(WithInput(d, first), second) == WithInput(d, second)
  {
  }

  /** Changes of different fields commute. */
  lemma InputsCommute(d: FormData, a: Input, b: Input)
    requires NameOf(a) != NameOf(b)
    ensures WithInput(WithInput(d, a), b) == WithInput(WithInput(d, b), a)
  {
  }

  /** One mounted form. `saved` records, in order, the drafts it has passed
      to its `handleSave` callback. */
  class TodoForm {
    const initialFormData: FormData
    var formData: FormData
    ghost var saved: seq<FormData>

    constructor (initialFormData: FormData := DefaultTodoFormData)
      ensures this.initialFormData == initialFormData
      ensures formData == initialFormData && saved == []
    {
      this.initialFormData := initialFormData;
      formData := initialFormData;
      saved := [];
    }

    /** Overwrite the one field named by the input. */
    method HandleChange(input: Input)
      modifies this`formData
      ensures formData == WithInput(old(formData), input)
      ensures Get(formData, NameOf(input)) == ValueOf(input)
      ensures forall f :: f != NameOf(input) ==> Get(formData, f) == Get(old(formData), f)
    {
      formData := WithInput(formData, input);
    }

    /** Hand the current draft to `handleSave` once, then reset the draft. */
    method HandleSubmit()
      modifies this`formData, this`saved
      ensures saved == old(saved) + [old(formData)]
      ensures formData == initialFormData
    {
      saved := saved + [formData];
      formData := initialFormData;
    }
  }
}
