/** The experience dashboard form. Achievements are edited as one text with a
    line per achievement: submit splits the text on '\n' and drops blank lines,
    edit joins the stored list with '\n'. */
module ExperienceManager {
  import opened JsValues
  import opened Sections
  import opened UserModel
  import Text

  /** `formData`: every field is the text of an input. */
  datatype ExperienceForm = ExperienceForm(
    company: string, position: string, startDate: string, endDate: string,
    description: string, achievements: string)

  datatype Field = CompanyField | PositionField | StartDateField | EndDateField | DescriptionField | AchievementsField

  /** `experienceData`: the form with the achievements text turned into a list. */
  datatype ExperienceData = ExperienceData(
    company: string, position: string, startDate: string, endDate: string,
    description: string, achievements: seq<string>)

  datatype Call = AddExperience(data: ExperienceData) | UpdateExperience(id: Id, data: ExperienceData)

  const EmptyForm := ExperienceForm("", "", "", "", "", "")
  const SaveFailed := "Failed to save experience. Please try again."

  /** A line `item.trim() !== ''` keeps. */
  predicate NonBlank(line: string)
  {
    Text.Trim(line) != ""
  }

  /** `.filter(item => item.trim() !== '')`: the non-blank lines, in order and untrimmed. */
  function FilterNonBlank(lines: seq<string>): (r: seq<string>)
    ensures |r| <= |lines|
    ensures forall x :: x in r <==> x in lines && NonBlank(x)
    ensures |lines| == 1 ==> r == (if NonBlank(lines[0]) then lines else [])
  {
    if |lines| == 0 then []
    else (if NonBlank(lines[0]) then [lines[0]] else []) + FilterNonBlank(lines[1..])
  }

  /** Filtering keeps the order of the lines: the filter of two runs of lines is
      the filter of the first followed by the filter of the second. */
  lemma {:induction false} FilterNonBlankAppend(a: seq<string>, b: seq<string>)
    ensures FilterNonBlank(a + b) == FilterNonBlank(a) + FilterNonBlank(b)
  {
    if |a| > 0 {
      FilterNonBlankAppend(a[1..], b);
      assert (a + b)[1..] == a[1..] + b;
    } else {
      assert a + b == b;
    }
  }

  /** Filtering lines that are all non-blank keeps them all. */
  lemma {:induction false} FilterKeepsNonBlank(lines: seq<string>)
    requires forall k :: 0 <= k < |lines| ==> NonBlank(lines[k])
    ensures FilterNonBlank(lines) == lines
  {
    if |lines| > 0 {
      FilterKeepsNonBlank(lines[1..]);
      assert [lines[0]] + lines[1..] == lines;
    }
  }

  /** `achievements ? achievements.split('\n').filter(item => item.trim() !== '') : []` */
  function ParseAchievements(text: string): (r: seq<string>)
    ensures text == "" ==> r == []
    ensures forall k :: 0 <= k < |r| ==> NonBlank(r[k]) && '\n' !in r[k]
    ensures forall x :: x in r <==> text != "" && x in Text.Split(text, '\n') && NonBlank(x)
  {
    if text == "" then [] else FilterNonBlank(Text.Split(text, '\n'))
  }

  /** A single line gives itself when it is not blank, and nothing otherwise. */
  lemma ParseAchievementsLine(line: string)
    requires '\n' !in line
    ensures ParseAchievements(line) == if NonBlank(line) then [line] else []
  {
    if line != "" {
      Text.SplitNoSep(line, '\n');
    }
  }

  /** The achievements of a text are those of its first line followed, in order, by
      those of the rest of the text. */
  lemma ParseAchievementsCons(line: string, rest: string)
    requires '\n' !in line
    ensures ParseAchievements(line + "\n" + rest) ==
      (if NonBlank(line) then [line] else []) + ParseAchievements(rest)
  {
    Text.SplitCons(line, rest, '\n');
    FilterNonBlankAppend([line], Text.Split(rest, '\n'));
    if rest == "" {
      assert Text.Split(rest, '\n') == [""];
      assert Text.Trim("") == "";
    }
  }

  /** `experience.achievements ? experience.achievements.join('\n') : ''` */
  function FormatAchievements(achievements: seq<string>): (r: string)
    ensures achievements == [] ==> r == ""
    ensures |achievements| == 1 ==> r == achievements[0]
  {
    Text.Join(achievements, "\n")
  }

  /** The join of a non-empty list starts with its first element. */
  lemma JoinStartsWithFirst(xs: seq<string>, sep: string)
    requires |xs| >= 1
    ensures |Text.Join(xs, sep)| >= |xs[0]|
  {
  }

  /** Editing and resubmitting without a change gives the stored achievements back,
      when no achievement holds a newline or is blank. */
  lemma AchievementsRoundTrip(achievements: seq<string>)
    requires forall k :: 0 <= k < |achievements| ==> '\n' !in achievements[k] && NonBlank(achievements[k])
    ensures ParseAchievements(FormatAchievements(achievements)) == achievements
  {
    if |achievements| > 0 {
      JoinStartsWithFirst(achievements, "\n");
      assert Text.Trim("") == "";
      assert achievements[0] != "";
      Text.SplitJoin(achievements, '\n');
      FilterKeepsNonBlank(achievements);
    }
  }

  /** A text of blank lines only submits no achievements. */
  lemma BlankTextGivesNone(text: string)
    requires forall x :: x in Text.Split(text, '\n') ==> !NonBlank(x)
    ensures ParseAchievements(text) == []
  {
  }

  /** `{ ...formData, achievements: ... }` */
  function ToData(f: ExperienceForm): (d: ExperienceData)
    ensures d.company == f.company && d.position == f.position && d.description == f.description
    ensures d.startDate == f.startDate && d.endDate == f.endDate
    ensures d.achievements == ParseAchievements(f.achievements)
  {
    ExperienceData(f.company, f.position, f.startDate, f.endDate, f.description, ParseAchievements(f.achievements))
  }

  /** `new Date(d).toISOString().split('T')[0]` for a date the server sent as an ISO
      timestamp: its calendar-day part. */
  function DayPart(date: string): (r: string)
    ensures 'T' !in r
    ensures |r| <= |date| && r == date[..|r|]
  {
    var pieces := Text.Split(date, 'T');
    Text.JoinSplit(date, 'T');
    assert pieces[0] == date[..|pieces[0]|] by {
      if |pieces| > 1 {
        assert date == pieces[0] + "T" + Text.Join(pieces[1..], "T");
      }
    }
    pieces[0]
  }

  /** A day part is its own day part, so a date that went through the form once
      comes back the same the next time. */
  lemma DayPartIdempotent(date: string)
    ensures DayPart(DayPart(date)) == DayPart(date)
  {
    Text.SplitNoSep(DayPart(date), 'T');
  }

  /** The form `handleEdit` loads for a stored experience. */
  function EditForm(e: Experience): (f: ExperienceForm)
    ensures f.company == e.company && f.position == e.position && f.description == e.description
    ensures f.startDate == DayPart(e.startDate)
    ensures f.endDate == (if TruthyStr(e.endDate) then DayPart(e.endDate.v) else "")
    ensures f.achievements == FormatAchievements(e.achievements)
  {
    ExperienceForm(
      e.company, e.position,
      if e.startDate != "" then DayPart(e.startDate) else "",
      if TruthyStr(e.endDate) then DayPart(e.endDate.v) else "",
      e.description,
      FormatAchievements(e.achievements))
  }

  /** Submitting the form `handleEdit` loaded sends the stored experience back
      unchanged, when its dates are day strings and its achievements are
      single non-blank lines. */
  lemma EditThenSubmitUnchanged(e: Experience)
    requires 'T' !in e.startDate && (e.endDate.Val? ==> 'T' !in e.endDate.v)
    requires forall k :: 0 <= k < |e.achievements| ==> '\n' !in e.achievements[k] && NonBlank(e.achievements[k])
    ensures var d := ToData(EditForm(e));
      d.company == e.company && d.position == e.position && d.description == e.description
      && d.startDate == e.startDate && d.achievements == e.achievements
      && d.endDate == (if e.endDate.Val? then e.endDate.v else "")
  {
    Text.SplitNoSep(e.startDate, 'T');
    if e.endDate.Val? {
      Text.SplitNoSep(e.endDate.v, 'T');
    }
    AchievementsRoundTrip(e.achievements);
  }

  /** For any stored dates, including full ISO timestamps: submitting the form
      `handleEdit` loaded sends the day parts of the dates, and the other fields
      unchanged; a second edit and submit sends the same dates again. */
  lemma EditThenSubmitDays(e: Experience)
    requires forall k :: 0 <= k < |e.achievements| ==> '\n' !in e.achievements[k] && NonBlank(e.achievements[k])
    ensures var d := ToData(EditForm(e));
      && d.company == e.company && d.position == e.position && d.description == e.description
      && d.achievements == e.achievements
      && d.startDate == DayPart(e.startDate)
      && d.endDate == (if TruthyStr(e.endDate) then DayPart(e.endDate.v) else "")
      && DayPart(d.startDate) == d.startDate && DayPart(d.endDate) == d.endDate
  {
    AchievementsRoundTrip(e.achievements);
    DayPartIdempotent(e.startDate);
    if TruthyStr(e.endDate) {
      DayPartIdempotent(e.endDate.v);
    } else {
      assert DayPart("") == "";
    }
  }

  class ExperienceEditor {
    var form: ExperienceForm
    var editing: bool
    var currentId: Option<Id>
    var error: Option<string>

    predicate Valid()
      reads this
    {
      editing <==> currentId.Some?
    }

    constructor ()
      ensures Valid()
      ensures form == EmptyForm && !editing && currentId.None? && error.None?
    {
      form, editing, currentId, error := EmptyForm, false, None, None;
    }

    /** `handleChange`: `{ ...formData, [name]: value }`. */
    method HandleChange(field: Field, value: string)
      modifies this`form
      ensures form == match field
        case CompanyField => old(form).(company := value)
        case PositionField => old(form).(position := value)
        case StartDateField => old(form).(startDate := value)
        case EndDateField => old(form).(endDate := value)
        case DescriptionField => old(form).(description := value)
        case AchievementsField => old(form).(achievements := value)
    {
      match field {
        case CompanyField => form := form.(company := value);
        case PositionField => form := form.(position := value);
        case StartDateField => form := form.(startDate := value);
        case EndDateField => form := form.(endDate := value);
        case DescriptionField => form := form.(description := value);
        case AchievementsField => form := form.(achievements := value);
      }
    }

    /** `handleSubmit`: sends the parsed form to update (when editing) or add; on
        success resets the form, on failure sets the error and keeps the form. */
    method HandleSubmit(succeeded: bool) returns (call: Call)
      requires Valid()
      modifies this
      ensures Valid()
      ensures call == if old(editing) then UpdateExperience(old(currentId).value, ToData(old(form)))
                      else AddExperience(ToData(old(form)))
      ensures succeeded ==> form == EmptyForm && !editing && currentId.None? && error == old(error)
      ensures !succeeded ==>
        form == old(form) && editing == old(editing) && currentId == old(currentId) && error == Some(SaveFailed)
    {
      var data := ToData(form);
      if editing {
        call := UpdateExperience(currentId.value, data);
      } else {
        call := AddExperience(data);
      }
      if succeeded {
        form := EmptyForm;
        editing := false;
        currentId := None;
      } else {
        error := Some(SaveFailed);
      }
    }

    /** `handleEdit` */
    method HandleEdit(experience: Entry<Experience>)
      modifies this`form, this`editing, this`currentId
      ensures Valid()
      ensures editing && currentId == Some(experience.id)
      ensures form == EditForm(experience.data)
    {
      editing := true;
      currentId := Some(experience.id);
      form := EditForm(experience.data);
    }

    /** `handleCancel` */
    method HandleCancel()
      modifies this`form, this`editing, this`currentId
      ensures Valid()
      ensures form == EmptyForm && !editing && currentId.None?
    {
      editing := false;
      currentId := None;
      form := EmptyForm;
    }
  }
}
