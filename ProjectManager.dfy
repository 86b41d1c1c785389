/** The projects dashboard form. Technologies are edited as one comma-separated
    text: submit splits it on ',' and trims each piece, edit joins the stored
    list with ", ". */
module ProjectManager {
  import opened JsValues
  import opened Sections
  import opened UserModel
  import Text

  datatype ProjectForm = ProjectForm(
    title: string, description: string, technologies: string, link: string, image: string)

  datatype Field = TitleField | DescriptionField | TechnologiesField | LinkField | ImageField

  /** `projectData`: the form with the technologies text turned into a list. */
  datatype ProjectData = ProjectData(
    title: string, description: string, technologies: seq<string>, link: string, image: string)

  datatype Call = AddProject(data: ProjectData) | UpdateProject(id: Id, data: ProjectData)

  const EmptyForm := ProjectForm("", "", "", "", "")
  const SaveFailed := "Failed to save project. Please try again."

  /** `.map(tech => tech.trim())` */
  function TrimAll(pieces: seq<string>): (r: seq<string>)
    ensures |r| == |pieces|
    ensures forall k :: 0 <= k < |r| ==> r[k] == Text.Trim(pieces[k])
  {
    if |pieces| == 0 then [] else [Text.Trim(pieces[0])] + TrimAll(pieces[1..])
  }

  /** `technologies.split(',').map(tech => tech.trim())`: at least one entry, each
      trimmed and comma-free; empty pieces are kept, so "" gives [""]. */
  function ParseTechnologies(text: string): (r: seq<string>)
    ensures |r| == |Text.Split(text, ',')| >= 1
    ensures forall k :: 0 <= k < |r| ==> r[k] == Text.Trim(Text.Split(text, ',')[k])
    ensures forall k :: 0 <= k < |r| ==> Text.Trimmed(r[k]) && ',' !in r[k]
  {
    var pieces := Text.Split(text, ',');
    forall k | 0 <= k < |pieces| ensures Text.Trimmed(Text.Trim(pieces[k])) && ',' !in Text.Trim(pieces[k]) {
      Text.TrimIdempotent(pieces[k]);
      Text.TrimChars(pieces[k]);
    }
    TrimAll(pieces)
  }

  /** `project.technologies.join(', ')` */
  function FormatTechnologies(technologies: seq<string>): (r: string)
    ensures |technologies| == 1 ==> r == technologies[0]
    ensures technologies == [] ==> r == ""
  {
    Text.Join(technologies, ", ")
  }

  lemma EmptyTextGivesOneEmptyEntry()
    ensures ParseTechnologies("") == [""]
  {
    assert Text.Trim("") == "";
  }

  /** `", "` between two entries is a comma followed by a space before the next one. */
  lemma JoinSpaced(xs: seq<string>)
    requires |xs| >= 2
    ensures Text.Join(xs, ", ") == xs[0] + [','] + (" " + Text.Join(xs[1..], ", "))
  {
  }

  /** A space in front of the first piece disappears when the pieces are trimmed. */
  lemma TrimAllLeadingSpace(p: seq<string>)
    requires |p| >= 1
    ensures TrimAll([" " + p[0]] + p[1..]) == TrimAll(p)
  {
    var q := [" " + p[0]] + p[1..];
    assert q[0] == [' '] + p[0];
    Text.TrimLeadingSpace(' ', p[0]);
    assert q[1..] == p[1..];
    assert TrimAll(q) == [Text.Trim(q[0])] + TrimAll(q[1..]);
    assert TrimAll(p) == [Text.Trim(p[0])] + TrimAll(p[1..]);
  }

  /** Editing and resubmitting without a change gives the stored technologies back,
      when there is at least one and each is trimmed and comma-free. An empty list
      comes back as [""]. */
  lemma {:induction false} TechnologiesRoundTrip(technologies: seq<string>)
    requires |technologies| >= 1
    requires forall k :: 0 <= k < |technologies| ==> Text.Trimmed(technologies[k]) && ',' !in technologies[k]
    ensures ParseTechnologies(FormatTechnologies(technologies)) == technologies
  {
    var xs := technologies;
    if |xs| == 1 {
      Text.SplitNoSep(xs[0], ',');
    } else {
      var rest := Text.Join(xs[1..], ", ");
      TechnologiesRoundTrip(xs[1..]);
      JoinSpaced(xs);
      Text.SplitCons(xs[0], " " + rest, ',');
      Text.SplitPrefix(" ", rest, ',');
      var p := Text.Split(rest, ',');
      var q := Text.Split(" " + rest, ',');
      TrimAllLeadingSpace(p);
      assert TrimAll(q) == xs[1..];
      assert TrimAll([xs[0]] + q) == [Text.Trim(xs[0])] + TrimAll(q);
      assert [xs[0]] + xs[1..] == xs;
    }
  }

  /** `{ ...formData, technologies: ... }` */
  function ToData(f: ProjectForm): (d: ProjectData)
    ensures d.title == f.title && d.description == f.description && d.link == f.link && d.image == f.image
    ensures d.technologies == ParseTechnologies(f.technologies)
  {
    ProjectData(f.title, f.description, ParseTechnologies(f.technologies), f.link, f.image)
  }

  /** The form `handleEdit` loads: `link` and `image` become '' when absent or empty. */
  function EditForm(p: Project): (f: ProjectForm)
    ensures f.title == p.title && f.description == p.description
    ensures f.technologies == FormatTechnologies(p.technologies)
    ensures f.link == (if TruthyStr(p.link) then p.link.v else "")
    ensures f.image == (if TruthyStr(p.image) then p.image.v else "")
  {
    ProjectForm(p.title, p.description, FormatTechnologies(p.technologies), OrStr(p.link, ""), OrStr(p.image, ""))
  }

  class ProjectEditor {
    var form: ProjectForm
    var editing: bool
    var currentId: Option<Id>
    var error: Option<string>

    predicate Valid()
      reads this
    {
      editing <==> currentId.Some?
    }

    constructor ()
      ensures Valid()
      ensures form == EmptyForm && !editing && currentId.None? && error.None?
    {
      form, editing, currentId, error := EmptyForm, false, None, None;
    }

    /** `handleChange`: `{ ...formData, [name]: value }`. */
    method HandleChange(field: Field, value: string)
      modifies this`form
      ensures form == match field
        case TitleField => old(form).(title := value)
        case DescriptionField => old(form).(description := value)
        case TechnologiesField => old(form).(technologies := value)
        case LinkField => old(form).(link := value)
        case ImageField => old(form).(image := value)
    {
      match field {
        case TitleField => form := form.(title := value);
        case DescriptionField => form := form.(description := value);
        case TechnologiesField => form := form.(technologies := value);
        case LinkField => form := form.(link := value);
        case ImageField => form := form.(image := value);
      }
    }

    /** `handleSubmit`: sends the parsed form to update (when editing) or add; on
        success resets the form, on failure sets the error and keeps the form. */
    method HandleSubmit(succeeded: bool) returns (call: Call)
      requires Valid()
      modifies this
      ensures Valid()
      ensures call == if old(editing) then UpdateProject(old(currentId).value, ToData(old(form)))
                      else AddProject(ToData(old(form)))
      ensures succeeded ==> form == EmptyForm && !editing && currentId.None? && error == old(error)
      ensures !succeeded ==>
        form == old(form) && editing == old(editing) && currentId == old(currentId) && error == Some(SaveFailed)
    {
      var data := ToData(form);
      if editing {
        call := UpdateProject(currentId.value, data);
      } else {
        call := AddProject(data);
      }
      if succeeded {
        form := EmptyForm;
        editing := false;
        currentId := None;
      } else {
        error := Some(SaveFailed);
      }
    }

    /** `handleEdit` */
    method HandleEdit(project: Entry<Project>)
      modifies this`form, this`editing, this`currentId
      ensures Valid()
      ensures editing && currentId == Some(project.id)
      ensures form == EditForm(project.data)
    {
      editing := true;
      currentId := Some(project.id);
      form := EditForm(project.data);
    }

    /** `handleCancel` */
    method HandleCancel()
      modifies this`form, this`editing, this`currentId
      ensures Valid()
      ensures form == EmptyForm && !editing && currentId.None?
    {
      editing := false;
      currentId := None;
      form := EmptyForm;
    }
  }
}
