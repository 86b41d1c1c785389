/** The mongoose `User` model: the embedded sub-document schemas, the
    validators that `save()` runs, the email setters, the role enum and the
    `pre('save')` password hook. */
module UserModel {
  import opened JsValues
  import opened Text
  import opened Sections

  /** A date as the client sends it (`'YYYY-MM-DD'`); mongoose's Date casting is not modelled. */
  type DateText = string

  /** EducationSchema. It has no `description` path, so a `description` given
      for an education entry is never stored. */
  datatype Education = Education(
    institution: string, degree: string, field: string,
    startDate: DateText, endDate: JsVal<DateText>)

  datatype Experience = Experience(
    company: string, position: string, startDate: DateText, endDate: JsVal<DateText>,
    description: string, achievements: seq<string>)

  datatype Skill = Skill(name: string, level: int, category: string)

  datatype Project = Project(
    title: string, description: string, technologies: seq<string>,
    link: JsVal<string>, image: JsVal<string>)

  /** ContactSchema; `date` is a timestamp in milliseconds. */
  datatype ContactMessage = ContactMessage(
    name: string, email: string, phone: JsVal<string>, message: string, date: int)

  datatype SocialLinks = SocialLinks(linkedin: JsVal<string>, github: JsVal<string>, twitter: JsVal<string>)

  /** The personal-information paths of the user document. */
  datatype Profile = Profile(
    name: JsVal<string>, title: JsVal<string>, summary: JsVal<string>, phone: JsVal<string>,
    location: JsVal<string>, website: JsVal<string>, socialLinks: JsVal<SocialLinks>)

  datatype Role = Admin | User

  /** What the public and dashboard reads return: every path except `password`. */
  datatype UserView = UserView(
    email: string, role: Role, profile: Profile,
    education: seq<Entry<Education>>, experience: seq<Entry<Experience>>,
    skills: seq<Entry<Skill>>, projects: seq<Entry<Project>>, contacts: seq<Entry<ContactMessage>>)

  // ---------------------------------------------------------------------------
  // Validators run by save()

  /** mongoose's `required` on a String path: `''` fails it as well as a missing value. */
  predicate Required(s: string)
  {
    s != ""
  }

  predicate ValidEducation(e: Education)
  {
    Required(e.institution) && Required(e.degree) && Required(e.field) && Required(e.startDate)
  }

  predicate ValidExperience(e: Experience)
  {
    Required(e.company) && Required(e.position) && Required(e.startDate) && Required(e.description)
  }

  /** `level: { required: true, min: 0, max: 100 }`: 0 itself is a valid level. */
  predicate ValidSkill(s: Skill)
  {
    Required(s.name) && 0 <= s.level <= 100 && Required(s.category)
  }

  predicate ValidProject(p: Project)
  {
    Required(p.title) && Required(p.description)
  }

  predicate ValidContact(c: ContactMessage)
  {
    Required(c.name) && Required(c.email) && Required(c.message)
  }

  /** `email: { required: true }` and `password: { required: true, minlength: 6 }`. */
  predicate ValidCredentials(email: string, password: string)
  {
    Required(email) && |password| >= 6
  }

  /** Every sub-document of a section passes the section's validators. */
  predicate AllValid<T>(s: seq<Entry<T>>, valid: T -> bool)
  {
    forall i :: 0 <= i < |s| ==> valid(s[i].data)
  }

  /** Every validator of the schema accepts the document. */
  predicate DocumentValid(
    email: string, password: string,
    education: seq<Entry<Education>>, experience: seq<Entry<Experience>>,
    skills: seq<Entry<Skill>>, projects: seq<Entry<Project>>, contacts: seq<Entry<ContactMessage>>)
  {
    && ValidCredentials(email, password)
    && AllValid(education, ValidEducation)
    && AllValid(experience, ValidExperience)
    && AllValid(skills, ValidSkill)
    && AllValid(projects, ValidProject)
    && AllValid(contacts, ValidContact)
  }

  /** In a section that passes validation, an edit keeps it passing exactly when the
      added or patched sub-document passes, and a removal always keeps it passing:
      on a valid document, the save of an add or update fails only because of the
      item the request built. */
  lemma EditsKeepSectionValid<T>(s: seq<Entry<T>>, valid: T -> bool, e: Entry<T>, k: nat)
    requires AllValid(s, valid)
    ensures AllValid([e] + s, valid) <==> valid(e.data)
    ensures AllValid(s + [e], valid) <==> valid(e.data)
    ensures k < |s| ==> (AllValid(UpdateAt(s, k, e.data), valid) <==> valid(e.data))
    ensures k < |s| ==> AllValid(RemoveAt(s, k), valid)
  {
    assert ([e] + s)[0] == e && (s + [e])[|s|] == e;
    assert forall i :: 0 <= i < |s| ==> ([e] + s)[i + 1] == s[i] && (s + [e])[i] == s[i];
    if k < |s| {
      assert UpdateAt(s, k, e.data)[k].data == e.data;
    }
  }

  // ---------------------------------------------------------------------------
  // Setters and defaults

  /** `email: { lowercase: true, trim: true }`: the stored form of an email. */
  function NormalizeEmail(s: string): (r: string)
    ensures r == Trim(Lower(s))
    ensures NoUpper(r)
    ensures |r| > 0 ==> !IsJsSpace(r[0]) && !IsJsSpace(r[|r| - 1])
  {
    LowerNoUpper(s);
    TrimChars(Lower(s));
    TrimSlice(Lower(s));
    Trim(Lower(s))
  }

  /** Storing an already stored email changes nothing. */
  lemma NormalizeEmailIdempotent(s: string)
    ensures NormalizeEmail(NormalizeEmail(s)) == NormalizeEmail(s)
  {
    var n := NormalizeEmail(s);
    LowerFixesNoUpper(n);
    TrimmedWhenNoEdgeSpace(n);
  }

  /** `role: { enum: ['admin', 'user'], default: 'user' }`: an absent role becomes
      `User`; any other string than the two names fails validation (`None`). */
  function ParseRole(role: JsVal<string>): (r: Option<Role>)
    ensures r == Some(User) <==> role == Undefined || role == Val("user")
    ensures r == Some(Admin) <==> role == Val("admin")
  {
    match role
    case Undefined => Some(User)
    case Null => None
    case Val(s) => if s == "admin" then Some(Admin) else if s == "user" then Some(User) else None
  }

  // ---------------------------------------------------------------------------
  // The document

  /** One stored user document. The route handlers load it, change one section
      in place and save it back. */
  class UserDocument {
    var email: string
    var password: string
    /** mongoose's `isModified('password')` since the document was loaded or saved. */
    var passwordModified: bool
    var role: Role
    var profile: Profile
    var education: seq<Entry<Education>>
    var experience: seq<Entry<Experience>>
    var skills: seq<Entry<Skill>>
    var projects: seq<Entry<Project>>
    var contacts: seq<Entry<ContactMessage>>

    /** `new User({ email, password, role })`: the email setters run, the password
        counts as modified and every section starts empty. */
    constructor (email: string, password: string, role: Role)
      ensures this.email == NormalizeEmail(email) && this.password == password && this.role == role
      ensures passwordModified
      ensures profile == Profile(Undefined, Undefined, Undefined, Undefined, Undefined, Undefined, Undefined)
      ensures education == [] && experience == [] && skills == [] && projects == [] && contacts == []
    {
      this.email := NormalizeEmail(email);
      this.password := password;
      this.role := role;
      passwordModified := true;
      profile := Profile(Undefined, Undefined, Undefined, Undefined, Undefined, Undefined, Undefined);
      education, experience, skills, projects, contacts := [], [], [], [], [];
    }

    /** The validators `save()` runs, on the current state. */
    predicate Valid()
      reads this
    {
      DocumentValid(email, password, education, experience, skills, projects, contacts)
    }

    /** The document as reads return it, without the password. */
    function View(): UserView
      reads this
    {
      UserView(email, role, profile, education, experience, skills, projects, contacts)
    }

    /** The `pre('save')` hook: the password is replaced by its salted hash when,
        and only when, it was modified; the modified flag is cleared by the save. */
    method HashPasswordIfModified(salt: string, hash: (string, string) -> string)
      modifies this`password, this`passwordModified
      ensures old(passwordModified) ==> password == hash(old(password), salt)
      ensures !old(passwordModified) ==> password == old(password)
      ensures !passwordModified
    {
      if passwordModified {
        password := hash(password, salt);
      }
      passwordModified := false;
    }

    /** `comparePassword`: the candidate is checked against the stored hash by the
        hashing library's compare, which is a parameter here. */
    function ComparePassword(candidate: string, compare: (string, string) -> bool): bool
      reads this
    {
      compare(candidate, password)
    }
  }
}
