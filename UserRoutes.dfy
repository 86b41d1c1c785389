/** The `/api/user` router: profile update, the public contact form, and
    add / update / delete / list for the projects, experience, education,
    skills and contacts sections embedded in the user document.

    Every handler runs after `auth` on the document of `req.user.id`, loaded
    fresh, so its password is not modified and the `pre('save')` hook leaves it
    as it is; no handler here assigns the password. `save()` runs the schema
    validators over the whole document; when they fail the handler answers 500
    and nothing is persisted. */
module UserRoutes {
  import opened JsValues
  import opened Sections
  import opened UserModel
  import Text

  /** A JSON response: a success status with its body, or an error status with `{ message }`. */
  datatype Reply<T> = Ok(status: int, body: T) | Fail(status: int, message: string)

  const ServerError := "Server error"

  // ===========================================================================
  // Request bodies

  datatype ProjectBody = ProjectBody(
    title: JsVal<string>, description: JsVal<string>, technologies: JsVal<seq<string>>,
    link: JsVal<string>, image: JsVal<string>)

  datatype ExperienceBody = ExperienceBody(
    company: JsVal<string>, position: JsVal<string>, startDate: JsVal<string>,
    endDate: JsVal<string>, description: JsVal<string>, achievements: JsVal<seq<string>>)

  datatype EducationBody = EducationBody(
    institution: JsVal<string>, degree: JsVal<string>, field: JsVal<string>,
    startDate: JsVal<string>, endDate: JsVal<string>, description: JsVal<string>)

  /** A skill level as a body carries it: a JSON number, or a string. */
  datatype LevelArg = Num(n: int) | Str(s: string)

  datatype SkillBody = SkillBody(name: JsVal<string>, level: JsVal<LevelArg>, category: JsVal<string>)

  datatype ContactBody = ContactBody(
    name: JsVal<string>, email: JsVal<string>, phone: JsVal<string>, message: JsVal<string>)

  datatype ProfileBody = ProfileBody(
    name: JsVal<string>, title: JsVal<string>, summary: JsVal<string>, phone: JsVal<string>,
    location: JsVal<string>, website: JsVal<string>, socialLinks: JsVal<SocialLinks>,
    skills: JsVal<seq<Entry<Skill>>>, education: JsVal<seq<Entry<Education>>>,
    experience: JsVal<seq<Entry<Experience>>>, projects: JsVal<seq<Entry<Project>>>)

  // ===========================================================================
  // Required-field checks (the 400 answers)

  predicate ProjectComplete(b: ProjectBody)
  {
    TruthyStr(b.title) && TruthyStr(b.description)
  }

  predicate ExperienceComplete(b: ExperienceBody)
  {
    TruthyStr(b.company) && TruthyStr(b.position) && TruthyStr(b.startDate) && TruthyStr(b.description)
  }

  predicate EducationComplete(b: EducationBody)
  {
    TruthyStr(b.institution) && TruthyStr(b.degree) && TruthyStr(b.field) && TruthyStr(b.startDate)
  }

  /** `!!level`: the number 0 and the empty string are falsy, the string "0" is not. */
  predicate TruthyLevel(x: JsVal<LevelArg>)
  {
    x.Val? && match x.v
      case Num(n) => n != 0
      case Str(t) => t != ""
  }

  /** `parseInt(level)`; `None` stands for NaN. */
  function ParseLevel(a: LevelArg): (r: Option<int>)
    ensures a.Num? ==> r == Some(a.n)
    ensures a.Str? && a.s == "" ==> r.None?
    ensures a.Str? && |a.s| > 0 && (forall k :: 0 <= k < |a.s| ==> Text.IsDigit(a.s[k])) ==>
      r == Some(Text.DigitsValue(a.s, 10))
  {
    match a
    case Num(n) => Some(n)
    case Str(t) => Text.ParseInt(t)
  }

  /** `!name || !level || !category`: a level of 0 counts as missing. */
  predicate SkillComplete(b: SkillBody)
  {
    TruthyStr(b.name) && TruthyLevel(b.level) && TruthyStr(b.category)
  }

  predicate ContactComplete(b: ContactBody)
  {
    TruthyStr(b.name) && TruthyStr(b.email) && TruthyStr(b.message)
  }

  /** The skill check rejects the number 0 as a level although the schema accepts
      it, while the string "0" passes the check and is stored as level 0. */
  lemma SkillLevelZero(name: string, category: string)
    requires name != "" && category != ""
    ensures !SkillComplete(SkillBody(Val(name), Val(Num(0)), Val(category)))
    ensures ValidSkill(Skill(name, 0, category))
    ensures NewSkill(SkillBody(Val(name), Val(Str("0")), Val(category))) == Some(Skill(name, 0, category))
  {
    Text.ParseIntOfNatToString(0);
  }

  /** A level text with a "0x" prefix is read in base 16, and the prefix alone is
      NaN, which the save refuses. */
  lemma HexLevelText(name: string, category: string)
    requires name != "" && category != ""
    ensures NewSkill(SkillBody(Val(name), Val(Str("0x1f")), Val(category))) == Some(Skill(name, 31, category))
    ensures SkillComplete(SkillBody(Val(name), Val(Str("0X")), Val(category)))
    ensures NewSkill(SkillBody(Val(name), Val(Str("0X")), Val(category))).None?
  {
    Text.HexLevels();
  }

  /** A level text with a fraction is cut at the '.', as `parseInt` reads it. */
  lemma FractionalLevelText(name: string, category: string)
    requires name != "" && category != ""
    ensures NewSkill(SkillBody(Val(name), Val(Str("50.5")), Val(category))) == Some(Skill(name, 50, category))
  {
    assert "50.5" == "50" + ".5";
    Text.ParseIntStopsAtNonDigit("50", ".5");
    assert "50"[..1] == "5" && "5"[..0] == "";
  }

  /** A level sent as the decimal text of a number is stored exactly as the number would be. */
  lemma LevelTextAgrees(name: JsVal<string>, category: JsVal<string>, n: nat)
    requires n != 0
    ensures var asText := SkillBody(name, Val(Str(Text.NatToString(n))), category);
      var asNum := SkillBody(name, Val(Num(n)), category);
      SkillComplete(asText) <==> SkillComplete(asNum)
    ensures var asText := SkillBody(name, Val(Str(Text.NatToString(n))), category);
      var asNum := SkillBody(name, Val(Num(n)), category);
      SkillComplete(asNum) ==> NewSkill(asText) == NewSkill(asNum)
    ensures forall s :: PatchSkill(s, SkillBody(name, Val(Str(Text.NatToString(n))), category))
                     == PatchSkill(s, SkillBody(name, Val(Num(n)), category))
  {
    Text.ParseIntOfNatToString(n);
  }

  // ===========================================================================
  // New sub-documents with their defaults

  /** `{ title, description, technologies: technologies || [], link: link || '', image: image || '' }` */
  function NewProject(b: ProjectBody): (p: Project)
    requires ProjectComplete(b)
    ensures ValidProject(p)
    ensures p.title == b.title.v && p.description == b.description.v
    ensures !b.technologies.Val? ==> p.technologies == []
    ensures b.technologies.Val? ==> p.technologies == b.technologies.v
    ensures TruthyStr(b.link) ==> p.link == b.link
    ensures !TruthyStr(b.link) ==> p.link == Val("")
    ensures TruthyStr(b.image) ==> p.image == b.image
    ensures !TruthyStr(b.image) ==> p.image == Val("")
  {
    Project(b.title.v, b.description.v, OrEmpty(b.technologies), Val(OrStr(b.link, "")), Val(OrStr(b.image, "")))
  }

  /** `{ company, position, startDate, endDate: endDate || null, description, achievements: achievements || [] }` */
  function NewExperience(b: ExperienceBody): (e: Experience)
    requires ExperienceComplete(b)
    ensures ValidExperience(e)
    ensures e.company == b.company.v && e.position == b.position.v
    ensures e.startDate == b.startDate.v && e.description == b.description.v
    ensures TruthyStr(b.endDate) ==> e.endDate == b.endDate
    ensures !TruthyStr(b.endDate) ==> e.endDate == Null
    ensures b.achievements.Val? ==> e.achievements == b.achievements.v
    ensures !b.achievements.Val? ==> e.achievements == []
  {
    Experience(b.company.v, b.position.v, b.startDate.v, OrNull(b.endDate), b.description.v, OrEmpty(b.achievements))
  }

  /** `{ institution, degree, field, startDate, endDate: endDate || null, description: description || '' }`;
      the schema has no `description` path, so the description is dropped. */
  function NewEducation(b: EducationBody): (e: Education)
    requires EducationComplete(b)
    ensures ValidEducation(e)
    ensures e.institution == b.institution.v && e.degree == b.degree.v
    ensures e.field == b.field.v && e.startDate == b.startDate.v
    ensures TruthyStr(b.endDate) ==> e.endDate == b.endDate
    ensures !TruthyStr(b.endDate) ==> e.endDate == Null
  {
    Education(b.institution.v, b.degree.v, b.field.v, b.startDate.v, OrNull(b.endDate))
  }

  /** `{ name, level: parseInt(level), category }`. `None` is a level that parses
      to NaN, which the Number path cannot cast, so the save fails. */
  function NewSkill(b: SkillBody): (r: Option<Skill>)
    requires SkillComplete(b)
    ensures r.Some? <==> ParseLevel(b.level.v).Some?
    ensures r.Some? ==> r.value.name == b.name.v && r.value.category == b.category.v
                        && r.value.level == ParseLevel(b.level.v).value
    ensures r.Some? ==> (ValidSkill(r.value) <==> 0 <= r.value.level <= 100)
    ensures b.level.v.Num? ==> r.Some? && (ValidSkill(r.value) <==> 0 < b.level.v.n <= 100)
  {
    match ParseLevel(b.level.v)
    case None => None
    case Some(level) => Some(Skill(b.name.v, level, b.category.v))
  }

  /** `{ name, email, phone, message, date: new Date() }` */
  function NewContact(b: ContactBody, now: int): (c: ContactMessage)
    requires ContactComplete(b)
    ensures ValidContact(c)
    ensures c.name == b.name.v && c.email == b.email.v && c.message == b.message.v
    ensures c.phone == b.phone && c.date == now
  {
    ContactMessage(b.name.v, b.email.v, b.phone, b.message.v, now)
  }

  // ===========================================================================
  // Per-field patches of the update routes

  /** Project update: `title`, `description`, `technologies` are taken only when
      truthy; `link` and `image` whenever they are not `undefined` ('' and null included). */
  function PatchProject(p: Project, b: ProjectBody): (r: Project)
    ensures TruthyStr(b.title) ==> r.title == b.title.v
    ensures !TruthyStr(b.title) ==> r.title == p.title
    ensures TruthyStr(b.description) ==> r.description == b.description.v
    ensures !TruthyStr(b.description) ==> r.description == p.description
    ensures b.technologies.Val? ==> r.technologies == b.technologies.v
    ensures !b.technologies.Val? ==> r.technologies == p.technologies
    ensures b.link != Undefined ==> r.link == b.link
    ensures b.link == Undefined ==> r.link == p.link
    ensures b.image != Undefined ==> r.image == b.image
    ensures b.image == Undefined ==> r.image == p.image
    ensures ValidProject(p) ==> ValidProject(r)
  {
    Project(
      if TruthyStr(b.title) then b.title.v else p.title,
      if TruthyStr(b.description) then b.description.v else p.description,
      if TruthyObj(b.technologies) then b.technologies.v else p.technologies,
      if b.link != Undefined then b.link else p.link,
      if b.image != Undefined then b.image else p.image)
  }

  /** Experience update: `endDate` whenever not `undefined`, every other field only when truthy. */
  function PatchExperience(e: Experience, b: ExperienceBody): (r: Experience)
    ensures TruthyStr(b.company) ==> r.company == b.company.v
    ensures !TruthyStr(b.company) ==> r.company == e.company
    ensures TruthyStr(b.position) ==> r.position == b.position.v
    ensures !TruthyStr(b.position) ==> r.position == e.position
    ensures TruthyStr(b.startDate) ==> r.startDate == b.startDate.v
    ensures !TruthyStr(b.startDate) ==> r.startDate == e.startDate
    ensures b.endDate != Undefined ==> r.endDate == b.endDate
    ensures b.endDate == Undefined ==> r.endDate == e.endDate
    ensures TruthyStr(b.description) ==> r.description == b.description.v
    ensures !TruthyStr(b.description) ==> r.description == e.description
    ensures b.achievements.Val? ==> r.achievements == b.achievements.v
    ensures !b.achievements.Val? ==> r.achievements == e.achievements
    ensures ValidExperience(e) ==> ValidExperience(r)
  {
    Experience(
      if TruthyStr(b.company) then b.company.v else e.company,
      if TruthyStr(b.position) then b.position.v else e.position,
      if TruthyStr(b.startDate) then b.startDate.v else e.startDate,
      if b.endDate != Undefined then b.endDate else e.endDate,
      if TruthyStr(b.description) then b.description.v else e.description,
      if TruthyObj(b.achievements) then b.achievements.v else e.achievements)
  }

  /** Education update: `endDate` whenever not `undefined`, the four required fields
      only when truthy. The `description` assignment targets a path the schema does
      not have, so it is never stored. */
  function PatchEducation(e: Education, b: EducationBody): (r: Education)
    ensures TruthyStr(b.institution) ==> r.institution == b.institution.v
    ensures !TruthyStr(b.institution) ==> r.institution == e.institution
    ensures TruthyStr(b.degree) ==> r.degree == b.degree.v
    ensures !TruthyStr(b.degree) ==> r.degree == e.degree
    ensures TruthyStr(b.field) ==> r.field == b.field.v
    ensures !TruthyStr(b.field) ==> r.field == e.field
    ensures TruthyStr(b.startDate) ==> r.startDate == b.startDate.v
    ensures !TruthyStr(b.startDate) ==> r.startDate == e.startDate
    ensures b.endDate != Undefined ==> r.endDate == b.endDate
    ensures b.endDate == Undefined ==> r.endDate == e.endDate
    ensures ValidEducation(e) ==> ValidEducation(r)
  {
    Education(
      if TruthyStr(b.institution) then b.institution.v else e.institution,
      if TruthyStr(b.degree) then b.degree.v else e.degree,
      if TruthyStr(b.field) then b.field.v else e.field,
      if TruthyStr(b.startDate) then b.startDate.v else e.startDate,
      if b.endDate != Undefined then b.endDate else e.endDate)
  }

  /** Skill update: each field only when truthy, so a level of 0 never overwrites;
      a truthy level is stored as `parseInt(level)`. `None` is a level that parses
      to NaN, which makes the save fail. */
  function PatchSkill(s: Skill, b: SkillBody): (r: Option<Skill>)
    ensures r.None? <==> TruthyLevel(b.level) && ParseLevel(b.level.v).None?
    ensures r.Some? && TruthyStr(b.name) ==> r.value.name == b.name.v
    ensures r.Some? && !TruthyStr(b.name) ==> r.value.name == s.name
    ensures r.Some? && TruthyLevel(b.level) ==> r.value.level == ParseLevel(b.level.v).value
    ensures r.Some? && !TruthyLevel(b.level) ==> r.value.level == s.level
    ensures r.Some? && TruthyStr(b.category) ==> r.value.category == b.category.v
    ensures r.Some? && !TruthyStr(b.category) ==> r.value.category == s.category
    ensures r.Some? && ValidSkill(s) && !TruthyLevel(b.level) ==> ValidSkill(r.value)
  {
    var level := if TruthyLevel(b.level) then ParseLevel(b.level.v) else Some(s.level);
    match level
    case None => None
    case Some(l) => Some(Skill(
      if TruthyStr(b.name) then b.name.v else s.name,
      l,
      if TruthyStr(b.category) then b.category.v else s.category))
  }

  /** Applying a patch a second time changes nothing. */
  lemma PatchesIdempotent(p: Project, pb: ProjectBody, x: Experience, xb: ExperienceBody,
                          e: Education, eb: EducationBody, s: Skill, sb: SkillBody)
    ensures PatchProject(PatchProject(p, pb), pb) == PatchProject(p, pb)
    ensures PatchExperience(PatchExperience(x, xb), xb) == PatchExperience(x, xb)
    ensures PatchEducation(PatchEducation(e, eb), eb) == PatchEducation(e, eb)
    ensures PatchSkill(s, sb).Some? ==> PatchSkill(PatchSkill(s, sb).value, sb) == PatchSkill(s, sb)
  {
  }

  /** The education `description` of a request has no effect on what is stored. */
  lemma EducationDescriptionIgnored(e: Education, b: EducationBody, d: JsVal<string>)
    ensures PatchEducation(e, b.(description := d)) == PatchEducation(e, b)
    ensures EducationComplete(b) ==> NewEducation(b.(description := d)) == NewEducation(b)
  {
  }

  /** Updating a section twice with the same body gives the section the first update gave. */
  lemma {:induction false} UpdateTwiceSame<T>(s: seq<Entry<T>>, id: Id, patch: T -> T)
    requires FindIndex(s, id) >= 0
    requires patch(patch(s[FindIndex(s, id)].data)) == patch(s[FindIndex(s, id)].data)
    ensures var k := FindIndex(s, id);
      var once := UpdateAt(s, k, patch(s[k].data));
      FindIndex(once, id) == k && UpdateAt(once, k, patch(once[k].data)) == once
  {
    var k := FindIndex(s, id);
    UpdateAtKeepsIds(s, k, patch(s[k].data), id);
  }

  // ===========================================================================
  // Profile: PUT /

  /** `$set` of the personal fields whose body value is truthy. */
  function PatchProfile(p: Profile, b: ProfileBody): (r: Profile)
    ensures TruthyStr(b.name) ==> r.name == b.name
    ensures !TruthyStr(b.name) ==> r.name == p.name
    ensures TruthyStr(b.title) ==> r.title == b.title
    ensures !TruthyStr(b.title) ==> r.title == p.title
    ensures TruthyStr(b.summary) ==> r.summary == b.summary
    ensures !TruthyStr(b.summary) ==> r.summary == p.summary
    ensures TruthyStr(b.phone) ==> r.phone == b.phone
    ensures !TruthyStr(b.phone) ==> r.phone == p.phone
    ensures TruthyStr(b.location) ==> r.location == b.location
    ensures !TruthyStr(b.location) ==> r.location == p.location
    ensures TruthyStr(b.website) ==> r.website == b.website
    ensures !TruthyStr(b.website) ==> r.website == p.website
    ensures b.socialLinks.Val? ==> r.socialLinks == b.socialLinks
    ensures !b.socialLinks.Val? ==> r.socialLinks == p.socialLinks
  {
    Profile(
      if TruthyStr(b.name) then b.name else p.name,
      if TruthyStr(b.title) then b.title else p.title,
      if TruthyStr(b.summary) then b.summary else p.summary,
      if TruthyStr(b.phone) then b.phone else p.phone,
      if TruthyStr(b.location) then b.location else p.location,
      if TruthyStr(b.website) then b.website else p.website,
      if TruthyObj(b.socialLinks) then b.socialLinks else p.socialLinks)
  }

  /** PUT /: `findByIdAndUpdate` with `$set` of the truthy fields. It runs no
      validators and no save hook; password, email, role and contacts are not
      among the fields it can set. */
  method UpdateProfile(doc: UserDocument, body: ProfileBody) returns (reply: Reply<UserView>)
    modifies doc`profile, doc`skills, doc`education, doc`experience, doc`projects
    ensures doc.profile == PatchProfile(old(doc.profile), body)
    ensures doc.skills == (if body.skills.Val? then body.skills.v else old(doc.skills))
    ensures doc.education == (if body.education.Val? then body.education.v else old(doc.education))
    ensures doc.experience == (if body.experience.Val? then body.experience.v else old(doc.experience))
    ensures doc.projects == (if body.projects.Val? then body.projects.v else old(doc.projects))
    ensures reply == Ok(200, doc.View())
  {
    doc.profile := PatchProfile(doc.profile, body);
    if body.skills.Val? { doc.skills := body.skills.v; }
    if body.education.Val? { doc.education := body.education.v; }
    if body.experience.Val? { doc.experience := body.experience.v; }
    if body.projects.Val? { doc.projects := body.projects.v; }
    reply := Ok(200, doc.View());
  }

  /** GET / and GET /me: the document without its password, or 404 when there is none. */
  method GetProfile(doc: UserDocument?) returns (reply: Reply<UserView>)
    ensures doc == null ==> reply == Fail(404, "User not found")
    ensures doc != null ==> reply == Ok(200, doc.View())
  {
    if doc == null {
      return Fail(404, "User not found");
    }
    reply := Ok(200, doc.View());
  }

  // ===========================================================================
  // Whole-section replacement: PUT /projects, /experience, /skills

  method ReplaceProjects(doc: UserDocument, items: seq<Entry<Project>>) returns (reply: Reply<UserView>)
    modifies doc`projects
    ensures doc.projects == items && reply == Ok(200, doc.View())
  {
    doc.projects := items;
    reply := Ok(200, doc.View());
  }

  method ReplaceExperience(doc: UserDocument, items: seq<Entry<Experience>>) returns (reply: Reply<UserView>)
    modifies doc`experience
    ensures doc.experience == items && reply == Ok(200, doc.View())
  {
    doc.experience := items;
    reply := Ok(200, doc.View());
  }

  method ReplaceSkills(doc: UserDocument, items: seq<Entry<Skill>>) returns (reply: Reply<UserView>)
    modifies doc`skills
    ensures doc.skills == items && reply == Ok(200, doc.View())
  {
    doc.skills := items;
    reply := Ok(200, doc.View());
  }

  // ===========================================================================
  // Public contact form: POST /contact

  /** Validates the body (400), finds the admin (404), appends the message and saves.
      `admin` is what `findOne({ role: 'admin' })` found, or null. */
  method PostContact(admin: UserDocument?, body: ContactBody, newId: Id, now: int) returns (reply: Reply<string>)
    requires admin != null ==> admin.role == Admin && newId !in IdsOf(admin.contacts)
    modifies admin
    ensures !ContactComplete(body) ==> reply == Fail(400, "Please provide name, email, and message")
    ensures ContactComplete(body) && admin == null ==> reply == Fail(404, "Admin user not found")
    ensures admin != null ==>
      unchanged(admin`email, admin`password, admin`passwordModified, admin`role, admin`profile)
      && unchanged(admin`education, admin`experience, admin`skills, admin`projects)
    ensures admin != null && !ContactComplete(body) ==> admin.contacts == old(admin.contacts)
    ensures admin != null && ContactComplete(body) ==>
      var added := old(admin.contacts) + [Entry(newId, NewContact(body, now))];
      if DocumentValid(admin.email, admin.password, admin.education, admin.experience, admin.skills, admin.projects, added)
      then reply == Ok(201, "Contact message sent successfully") && admin.contacts == added
      else reply == Fail(500, ServerError) && admin.contacts == old(admin.contacts)
    ensures admin != null && UniqueIds(old(admin.contacts)) ==> UniqueIds(admin.contacts)
  {
    if !ContactComplete(body) {
      return Fail(400, "Please provide name, email, and message");
    }
    if admin == null {
      return Fail(404, "Admin user not found");
    }
    var added := admin.contacts + [Entry(newId, NewContact(body, now))];
    if !DocumentValid(admin.email, admin.password, admin.education, admin.experience, admin.skills, admin.projects, added) {
      return Fail(500, ServerError);
    }
    if UniqueIds(admin.contacts) {
      AppendFresh(admin.contacts, Entry(newId, NewContact(body, now)));
    }
    admin.contacts := added;
    reply := Ok(201, "Contact message sent successfully");
  }

  // ===========================================================================
  // Projects

  /** POST /projects/add: the new project goes to the FRONT of the section. */
  method AddProject(doc: UserDocument, body: ProjectBody, newId: Id) returns (reply: Reply<seq<Entry<Project>>>)
    requires newId !in IdsOf(doc.projects)
    modifies doc`projects
    ensures !ProjectComplete(body) ==>
      reply == Fail(400, "Title and description are required") && doc.projects == old(doc.projects)
    ensures ProjectComplete(body) ==>
      var added := [Entry(newId, NewProject(body))] + old(doc.projects);
      if DocumentValid(doc.email, doc.password, doc.education, doc.experience, doc.skills, added, doc.contacts)
      then reply == Ok(201, added) && doc.projects == added
      else reply == Fail(500, ServerError) && doc.projects == old(doc.projects)
    ensures UniqueIds(old(doc.projects)) ==> UniqueIds(doc.projects)
  {
    if !ProjectComplete(body) {
      return Fail(400, "Title and description are required");
    }
    var item := Entry(newId, NewProject(body));
    var added := [item] + doc.projects;
    if !DocumentValid(doc.email, doc.password, doc.education, doc.experience, doc.skills, added, doc.contacts) {
      return Fail(500, ServerError);
    }
    if UniqueIds(doc.projects) {
      PrependFresh(doc.projects, item);
    }
    doc.projects := added;
    reply := Ok(201, doc.projects);
  }

  /** PUT /projects/:id: patches the first project with that id in place. */
  method UpdateProject(doc: UserDocument, id: Id, body: ProjectBody) returns (reply: Reply<seq<Entry<Project>>>)
    modifies doc`projects
    ensures var k := FindIndex(old(doc.projects), id);
      if k < 0 then reply == Fail(404, "Project not found") && doc.projects == old(doc.projects)
      else
        var updated := UpdateAt(old(doc.projects), k, PatchProject(old(doc.projects)[k].data, body));
        if DocumentValid(doc.email, doc.password, doc.education, doc.experience, doc.skills, updated, doc.contacts)
        then reply == Ok(200, updated) && doc.projects == updated
        else reply == Fail(500, ServerError) && doc.projects == old(doc.projects)
    ensures IdsOf(doc.projects) == IdsOf(old(doc.projects))
    ensures UniqueIds(old(doc.projects)) ==> UniqueIds(doc.projects)
  {
    var k := FindIndex(doc.projects, id);
    if k < 0 {
      return Fail(404, "Project not found");
    }
    var patched := PatchProject(doc.projects[k].data, body);
    var updated := UpdateAt(doc.projects, k, patched);
    UpdateAtKeepsIds(doc.projects, k, patched, id);
    if !DocumentValid(doc.email, doc.password, doc.education, doc.experience, doc.skills, updated, doc.contacts) {
      return Fail(500, ServerError);
    }
    doc.projects := updated;
    reply := Ok(200, doc.projects);
  }

  /** DELETE /projects/:id: `splice`s out the first project with that id. */
  method DeleteProject(doc: UserDocument, id: Id) returns (reply: Reply<seq<Entry<Project>>>)
    modifies doc`projects
    ensures var k := FindIndex(old(doc.projects), id);
      if k < 0 then reply == Fail(404, "Project not found") && doc.projects == old(doc.projects)
      else
        var removed := RemoveAt(old(doc.projects), k);
        if DocumentValid(doc.email, doc.password, doc.education, doc.experience, doc.skills, removed, doc.contacts)
        then reply == Ok(200, removed) && doc.projects == removed
        else reply == Fail(500, ServerError) && doc.projects == old(doc.projects)
    ensures UniqueIds(old(doc.projects)) && reply.Ok? ==> UniqueIds(doc.projects) && id !in IdsOf(doc.projects)
  {
    var k := FindIndex(doc.projects, id);
    if k < 0 {
      return Fail(404, "Project not found");
    }
    var removed := RemoveAt(doc.projects, k);
    if !DocumentValid(doc.email, doc.password, doc.education, doc.experience, doc.skills, removed, doc.contacts) {
      return Fail(500, ServerError);
    }
    if UniqueIds(doc.projects) {
      RemoveFound(doc.projects, id);
    }
    doc.projects := removed;
    reply := Ok(200, doc.projects);
  }

  // ===========================================================================
  // Experience

  /** POST /experience/add: the new entry goes to the FRONT of the section. */
  method AddExperience(doc: UserDocument, body: ExperienceBody, newId: Id) returns (reply: Reply<seq<Entry<Experience>>>)
    requires newId !in IdsOf(doc.experience)
    modifies doc`experience
    ensures !ExperienceComplete(body) ==>
      reply == Fail(400, "Company, position, start date, and description are required")
      && doc.experience == old(doc.experience)
    ensures ExperienceComplete(body) ==>
      var added := [Entry(newId, NewExperience(body))] + old(doc.experience);
      if DocumentValid(doc.email, doc.password, doc.education, added, doc.skills, doc.projects, doc.contacts)
      then reply == Ok(201, added) && doc.experience == added
      else reply == Fail(500, ServerError) && doc.experience == old(doc.experience)
    ensures UniqueIds(old(doc.experience)) ==> UniqueIds(doc.experience)
  {
    if !ExperienceComplete(body) {
      return Fail(400, "Company, position, start date, and description are required");
    }
    var item := Entry(newId, NewExperience(body));
    var added := [item] + doc.experience;
    if !DocumentValid(doc.email, doc.password, doc.education, added, doc.skills, doc.projects, doc.contacts) {
      return Fail(500, ServerError);
    }
    if UniqueIds(doc.experience) {
      PrependFresh(doc.experience, item);
    }
    doc.experience := added;
    reply := Ok(201, doc.experience);
  }

  /** PUT /experience/:id */
  method UpdateExperience(doc: UserDocument, id: Id, body: ExperienceBody) returns (reply: Reply<seq<Entry<Experience>>>)
    modifies doc`experience
    ensures var k := FindIndex(old(doc.experience), id);
      if k < 0 then reply == Fail(404, "Experience not found") && doc.experience == old(doc.experience)
      else
        var updated := UpdateAt(old(doc.experience), k, PatchExperience(old(doc.experience)[k].data, body));
        if DocumentValid(doc.email, doc.password, doc.education, updated, doc.skills, doc.projects, doc.contacts)
        then reply == Ok(200, updated) && doc.experience == updated
        else reply == Fail(500, ServerError) && doc.experience == old(doc.experience)
    ensures IdsOf(doc.experience) == IdsOf(old(doc.experience))
    ensures UniqueIds(old(doc.experience)) ==> UniqueIds(doc.experience)
  {
    var k := FindIndex(doc.experience, id);
    if k < 0 {
      return Fail(404, "Experience not found");
    }
    var patched := PatchExperience(doc.experience[k].data, body);
    var updated := UpdateAt(doc.experience, k, patched);
    UpdateAtKeepsIds(doc.experience, k, patched, id);
    if !DocumentValid(doc.email, doc.password, doc.education, updated, doc.skills, doc.projects, doc.contacts) {
      return Fail(500, ServerError);
    }
    doc.experience := updated;
    reply := Ok(200, doc.experience);
  }

  /** DELETE /experience/:id */
  method DeleteExperience(doc: UserDocument, id: Id) returns (reply: Reply<seq<Entry<Experience>>>)
    modifies doc`experience
    ensures var k := FindIndex(old(doc.experience), id);
      if k < 0 then reply == Fail(404, "Experience not found") && doc.experience == old(doc.experience)
      else
        var removed := RemoveAt(old(doc.experience), k);
        if DocumentValid(doc.email, doc.password, doc.education, removed, doc.skills, doc.projects, doc.contacts)
        then reply == Ok(200, removed) && doc.experience == removed
        else reply == Fail(500, ServerError) && doc.experience == old(doc.experience)
    ensures UniqueIds(old(doc.experience)) && reply.Ok? ==> UniqueIds(doc.experience) && id !in IdsOf(doc.experience)
  {
    var k := FindIndex(doc.experience, id);
    if k < 0 {
      return Fail(404, "Experience not found");
    }
    var removed := RemoveAt(doc.experience, k);
    if !DocumentValid(doc.email, doc.password, doc.education, removed, doc.skills, doc.projects, doc.contacts) {
      return Fail(500, ServerError);
    }
    if UniqueIds(doc.experience) {
      RemoveFound(doc.experience, id);
    }
    doc.experience := removed;
    reply := Ok(200, doc.experience);
  }

  // ===========================================================================
  // Education

  /** POST /education/add: the new entry goes to the FRONT of the section. */
  method AddEducation(doc: UserDocument, body: EducationBody, newId: Id) returns (reply: Reply<seq<Entry<Education>>>)
    requires newId !in IdsOf(doc.education)
    modifies doc`education
    ensures !EducationComplete(body) ==>
      reply == Fail(400, "Institution, degree, field, and start date are required")
      && doc.education == old(doc.education)
    ensures EducationComplete(body) ==>
      var added := [Entry(newId, NewEducation(body))] + old(doc.education);
      if DocumentValid(doc.email, doc.password, added, doc.experience, doc.skills, doc.projects, doc.contacts)
      then reply == Ok(201, added) && doc.education == added
      else reply == Fail(500, ServerError) && doc.education == old(doc.education)
    ensures UniqueIds(old(doc.education)) ==> UniqueIds(doc.education)
  {
    if !EducationComplete(body) {
      return Fail(400, "Institution, degree, field, and start date are required");
    }
    var item := Entry(newId, NewEducation(body));
    var added := [item] + doc.education;
    if !DocumentValid(doc.email, doc.password, added, doc.experience, doc.skills, doc.projects, doc.contacts) {
      return Fail(500, ServerError);
    }
    if UniqueIds(doc.education) {
      PrependFresh(doc.education, item);
    }
    doc.education := added;
    reply := Ok(201, doc.education);
  }

  /** PUT /education/:id */
  method UpdateEducation(doc: UserDocument, id: Id, body: EducationBody) returns (reply: Reply<seq<Entry<Education>>>)
    modifies doc`education
    ensures var k := FindIndex(old(doc.education), id);
      if k < 0 then reply == Fail(404, "Education not found") && doc.education == old(doc.education)
      else
        var updated := UpdateAt(old(doc.education), k, PatchEducation(old(doc.education)[k].data, body));
        if DocumentValid(doc.email, doc.password, updated, doc.experience, doc.skills, doc.projects, doc.contacts)
        then reply == Ok(200, updated) && doc.education == updated
        else reply == Fail(500, ServerError) && doc.education == old(doc.education)
    ensures IdsOf(doc.education) == IdsOf(old(doc.education))
    ensures UniqueIds(old(doc.education)) ==> UniqueIds(doc.education)
  {
    var k := FindIndex(doc.education, id);
    if k < 0 {
      return Fail(404, "Education not found");
    }
    var patched := PatchEducation(doc.education[k].data, body);
    var updated := UpdateAt(doc.education, k, patched);
    UpdateAtKeepsIds(doc.education, k, patched, id);
    if !DocumentValid(doc.email, doc.password, updated, doc.experience, doc.skills, doc.projects, doc.contacts) {
      return Fail(500, ServerError);
    }
    doc.education := updated;
    reply := Ok(200, doc.education);
  }

  /** DELETE /education/:id */
  method DeleteEducation(doc: UserDocument, id: Id) returns (reply: Reply<seq<Entry<Education>>>)
    modifies doc`education
    ensures var k := FindIndex(old(doc.education), id);
      if k < 0 then reply == Fail(404, "Education not found") && doc.education == old(doc.education)
      else
        var removed := RemoveAt(old(doc.education), k);
        if DocumentValid(doc.email, doc.password, removed, doc.experience, doc.skills, doc.projects, doc.contacts)
        then reply == Ok(200, removed) && doc.education == removed
        else reply == Fail(500, ServerError) && doc.education == old(doc.education)
    ensures UniqueIds(old(doc.education)) && reply.Ok? ==> UniqueIds(doc.education) && id !in IdsOf(doc.education)
  {
    var k := FindIndex(doc.education, id);
    if k < 0 {
      return Fail(404, "Education not found");
    }
    var removed := RemoveAt(doc.education, k);
    if !DocumentValid(doc.email, doc.password, removed, doc.experience, doc.skills, doc.projects, doc.contacts) {
      return Fail(500, ServerError);
    }
    if UniqueIds(doc.education) {
      RemoveFound(doc.education, id);
    }
    doc.education := removed;
    reply := Ok(200, doc.education);
  }

  // ===========================================================================
  // Skills

  /** POST /skills/add: unlike the other sections, the new skill is APPENDED. */
  method AddSkill(doc: UserDocument, body: SkillBody, newId: Id) returns (reply: Reply<seq<Entry<Skill>>>)
    requires newId !in IdsOf(doc.skills)
    modifies doc`skills
    ensures !SkillComplete(body) ==>
      reply == Fail(400, "Name, level, and category are required") && doc.skills == old(doc.skills)
    ensures SkillComplete(body) && NewSkill(body).None? ==>
      reply == Fail(500, ServerError) && doc.skills == old(doc.skills)
    ensures SkillComplete(body) && NewSkill(body).Some? ==>
      var added := old(doc.skills) + [Entry(newId, NewSkill(body).value)];
      if DocumentValid(doc.email, doc.password, doc.education, doc.experience, added, doc.projects, doc.contacts)
      then reply == Ok(201, added) && doc.skills == added
      else reply == Fail(500, ServerError) && doc.skills == old(doc.skills)
    ensures UniqueIds(old(doc.skills)) ==> UniqueIds(doc.skills)
  {
    if !SkillComplete(body) {
      return Fail(400, "Name, level, and category are required");
    }
    var skill := NewSkill(body);
    if skill.None? {
      return Fail(500, ServerError);
    }
    var item := Entry(newId, skill.value);
    var added := doc.skills + [item];
    if !DocumentValid(doc.email, doc.password, doc.education, doc.experience, added, doc.projects, doc.contacts) {
      return Fail(500, ServerError);
    }
    if UniqueIds(doc.skills) {
      AppendFresh(doc.skills, item);
    }
    doc.skills := added;
    reply := Ok(201, doc.skills);
  }

  /** PUT /skills/:id */
  method UpdateSkill(doc: UserDocument, id: Id, body: SkillBody) returns (reply: Reply<seq<Entry<Skill>>>)
    modifies doc`skills
    ensures var k := FindIndex(old(doc.skills), id);
      if k < 0 then reply == Fail(404, "Skill not found") && doc.skills == old(doc.skills)
      else match PatchSkill(old(doc.skills)[k].data, body)
        case None => reply == Fail(500, ServerError) && doc.skills == old(doc.skills)
        case Some(patched) =>
          var updated := UpdateAt(old(doc.skills), k, patched);
          if DocumentValid(doc.email, doc.password, doc.education, doc.experience, updated, doc.projects, doc.contacts)
          then reply == Ok(200, updated) && doc.skills == updated
          else reply == Fail(500, ServerError) && doc.skills == old(doc.skills)
    ensures IdsOf(doc.skills) == IdsOf(old(doc.skills))
    ensures UniqueIds(old(doc.skills)) ==> UniqueIds(doc.skills)
  {
    var k := FindIndex(doc.skills, id);
    if k < 0 {
      return Fail(404, "Skill not found");
    }
    var patched := PatchSkill(doc.skills[k].data, body);
    if patched.None? {
      return Fail(500, ServerError);
    }
    var updated := UpdateAt(doc.skills, k, patched.value);
    UpdateAtKeepsIds(doc.skills, k, patched.value, id);
    if !DocumentValid(doc.email, doc.password, doc.education, doc.experience, updated, doc.projects, doc.contacts) {
      return Fail(500, ServerError);
    }
    doc.skills := updated;
    reply := Ok(200, doc.skills);
  }

  /** DELETE /skills/:id */
  method DeleteSkill(doc: UserDocument, id: Id) returns (reply: Reply<seq<Entry<Skill>>>)
    modifies doc`skills
    ensures var k := FindIndex(old(doc.skills), id);
      if k < 0 then reply == Fail(404, "Skill not found") && doc.skills == old(doc.skills)
      else
        var removed := RemoveAt(old(doc.skills), k);
        if DocumentValid(doc.email, doc.password, doc.education, doc.experience, removed, doc.projects, doc.contacts)
        then reply == Ok(200, removed) && doc.skills == removed
        else reply == Fail(500, ServerError) && doc.skills == old(doc.skills)
    ensures UniqueIds(old(doc.skills)) && reply.Ok? ==> UniqueIds(doc.skills) && id !in IdsOf(doc.skills)
  {
    var k := FindIndex(doc.skills, id);
    if k < 0 {
      return Fail(404, "Skill not found");
    }
    var removed := RemoveAt(doc.skills, k);
    if !DocumentValid(doc.email, doc.password, doc.education, doc.experience, removed, doc.projects, doc.contacts) {
      return Fail(500, ServerError);
    }
    if UniqueIds(doc.skills) {
      RemoveFound(doc.skills, id);
    }
    doc.skills := removed;
    reply := Ok(200, doc.skills);
  }

  // ===========================================================================
  // Contacts (the owner's inbox)

  /** GET /contacts: the whole inbox, in arrival order. */
  method ListContacts(doc: UserDocument) returns (reply: Reply<seq<Entry<ContactMessage>>>)
    ensures reply == Ok(200, doc.contacts)
  {
    reply := Ok(200, doc.contacts);
  }

  /** DELETE /contacts/:id */
  method DeleteContact(doc: UserDocument, id: Id) returns (reply: Reply<seq<Entry<ContactMessage>>>)
    modifies doc`contacts
    ensures var k := FindIndex(old(doc.contacts), id);
      if k < 0 then reply == Fail(404, "Contact not found") && doc.contacts == old(doc.contacts)
      else
        var removed := RemoveAt(old(doc.contacts), k);
        if DocumentValid(doc.email, doc.password, doc.education, doc.experience, doc.skills, doc.projects, removed)
        then reply == Ok(200, removed) && doc.contacts == removed
        else reply == Fail(500, ServerError) && doc.contacts == old(doc.contacts)
    ensures UniqueIds(old(doc.contacts)) && reply.Ok? ==> UniqueIds(doc.contacts) && id !in IdsOf(doc.contacts)
  {
    var k := FindIndex(doc.contacts, id);
    if k < 0 {
      return Fail(404, "Contact not found");
    }
    var removed := RemoveAt(doc.contacts, k);
    if !DocumentValid(doc.email, doc.password, doc.education, doc.experience, doc.skills, doc.projects, removed) {
      return Fail(500, ServerError);
    }
    if UniqueIds(doc.contacts) {
      RemoveFound(doc.contacts, id);
    }
    doc.contacts := removed;
    reply := Ok(200, doc.contacts);
  }
}
