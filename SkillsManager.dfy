/** The skills dashboard form: its `formData`, `editing` and `currentId` state
    and the handlers that change it. The service calls are not made here: a
    submit returns the call it would make, and whether that call succeeded is
    a parameter. */
module SkillsManager {
  import opened JsValues
  import opened Sections
  import opened UserModel
  import Text

  /** `formData`; a `level` of `None` is the NaN that `parseInt` gives for text without digits. */
  datatype SkillForm = SkillForm(name: string, level: Option<int>, category: string)

  /** The `name` attribute of the input that fired `handleChange`. */
  datatype Field = NameField | LevelField | CategoryField

  /** The service call a submit makes. */
  datatype Call = AddSkill(data: SkillForm) | UpdateSkill(id: Id, data: SkillForm)

  /** `{ name: '', level: 75, category: '' }` */
  const EmptyForm := SkillForm("", Some(75), "")
  const SaveFailed := "Failed to save skill. Please try again."

  class SkillsEditor {
    var form: SkillForm
    var editing: bool
    var currentId: Option<Id>
    var error: Option<string>

    /** The form is editing exactly when it holds the id of the skill being edited. */
    predicate Valid()
      reads this
    {
      editing <==> currentId.Some?
    }

    constructor ()
      ensures Valid()
      ensures form == EmptyForm && !editing && currentId.None? && error.None?
    {
      form, editing, currentId, error := EmptyForm, false, None, None;
    }

    /** `handleChange`: the named field takes the input's value, `level` through
        `parseInt`; the other fields keep theirs. */
    method HandleChange(field: Field, value: string)
      modifies this`form
      ensures field == NameField ==> form == old(form).(name := value)
      ensures field == LevelField ==> form == old(form).(level := Text.ParseInt(value))
      ensures field == CategoryField ==> form == old(form).(category := value)
    {
      match field {
        case NameField => form := form.(name := value);
        case LevelField => form := form.(level := Text.ParseInt(value));
        case CategoryField => form := form.(category := value);
      }
    }

    /** `handleSliderChange`: the slider sets the level directly. */
    method HandleSliderChange(newValue: int)
      modifies this`form
      ensures form == old(form).(level := Some(newValue))
    {
      form := form.(level := Some(newValue));
    }

    /** `handleSubmit`: updates the skill being edited, or adds a new one. On success
        the form is reset and editing ends; on failure the error is set and the
        form is kept. */
    method HandleSubmit(succeeded: bool) returns (call: Call)
      requires Valid()
      modifies this
      ensures Valid()
      ensures call == if old(editing) then UpdateSkill(old(currentId).value, old(form)) else AddSkill(old(form))
      ensures succeeded ==> form == EmptyForm && !editing && currentId.None? && error == old(error)
      ensures !succeeded ==>
        form == old(form) && editing == old(editing) && currentId == old(currentId) && error == Some(SaveFailed)
    {
      if editing {
        call := UpdateSkill(currentId.value, form);
      } else {
        call := AddSkill(form);
      }
      if succeeded {
        form := EmptyForm;
        editing := false;
        currentId := None;
      } else {
        error := Some(SaveFailed);
      }
    }

    /** `handleEdit`: loads a stored skill into the form and remembers its id. */
    method HandleEdit(skill: Entry<Skill>)
      modifies this`form, this`editing, this`currentId
      ensures Valid()
      ensures editing && currentId == Some(skill.id)
      ensures form == SkillForm(skill.data.name, Some(skill.data.level), skill.data.category)
    {
      editing := true;
      currentId := Some(skill.id);
      form := SkillForm(skill.data.name, Some(skill.data.level), skill.data.category);
    }

    /** `handleCancel`: the same reset as a successful submit, without a call. */
    method HandleCancel()
      modifies this`form, this`editing, this`currentId
      ensures Valid()
      ensures form == EmptyForm && !editing && currentId.None?
    {
      editing := false;
      currentId := None;
      form := EmptyForm;
    }
  }
}
