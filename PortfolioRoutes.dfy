/** The portfolio router: one read that assembles a user's whole portfolio, its
    public variant, and the mutating routes, each behind the `[auth,
    checkOwnership]` chain. The User, Resume, Project and Contact collections are
    fields of one class; users are kept by id as their paths, the others as
    documents whose `user` path names the owner. The chain is `Ownership.Guard`,
    the one that reads the key `auth` sets. */
module PortfolioRoutes {
  import opened JsValues
  import opened Sections
  import opened Auth
  import opened Ownership
  import opened Documents
  import UserModel
  import StandaloneRoutes

  const PasswordPath := "password"
  const EmailPath := "email"
  const RolePath := "role"

  /** The paths each public read selects. */
  const UserPublicPaths := {"name", "email", "title", "about", "skills", "experience", "education", "socialLinks"}
  const ProjectPublicPaths := {"title", "description", "technologies", "image", "githubUrl", "liveUrl", "startDate", "endDate", "current"}
  const ContactPublicPaths := {"email", "phone", "address", "socialLinks"}

  /** What the two reads send: the assembled object, or a 404. */
  datatype PortfolioReply =
    | Portfolio(personalInfo: Fields, resume: Option<Doc>, projects: seq<Doc>, contact: Option<Doc>)
    | PublicPortfolio(personalInfo: Fields, projects: seq<Doc>, contact: Option<Doc>)
    | UserNotFound

  /** `findOne({ user }) || null` */
  function OwnedOrNull(docs: seq<Doc>, owner: Id): (r: Option<Doc>)
    ensures r.None? <==> forall i :: 0 <= i < |docs| ==> OwnerOf(docs[i]) != Some(owner)
    ensures r.Some? ==> r.value in docs && OwnerOf(r.value) == Some(owner)
  {
    var k := FindOne(docs, ByOwner(owner));
    if k < 0 then None else Some(docs[k])
  }

  /** The user paths a `$set` casts before validating: the schema's setters
      lower-case and trim `email`. */
  function CastUpdates(updates: Fields): (r: Fields)
    ensures r.Keys == updates.Keys
    ensures EmailPath in r ==> r[EmailPath] == UserModel.NormalizeEmail(updates[EmailPath])
    ensures forall p :: p in r && p != EmailPath ==> r[p] == updates[p]
  {
    if EmailPath in updates then updates[EmailPath := UserModel.NormalizeEmail(updates[EmailPath])] else updates
  }

  /** `runValidators` on a `$set`: only the paths being set are checked, against
      `required`, `minlength: 6` and the role `enum`. */
  predicate UpdateValidates(cast: Fields)
  {
    && (EmailPath in cast ==> cast[EmailPath] != "")
    && (PasswordPath in cast ==> |cast[PasswordPath]| >= 6)
    && (RolePath in cast ==> cast[RolePath] == "admin" || cast[RolePath] == "user")
  }

  /** The collections after `findOneAndUpdate({ user: owner }, { $set }, { upsert: true, new: true })`,
      and the document it answers with. */
  datatype Upserted = Upserted(docs: seq<Doc>, doc: Doc)

  function Upsert(docs: seq<Doc>, owner: Id, updates: Fields, newId: Id): (r: Upserted)
    ensures forall p :: p in updates ==> p in r.doc.data && r.doc.data[p] == updates[p]
    ensures var k := FindOne(docs, ByOwner(owner));
      if k >= 0 then
        r.docs == UpdateAt(docs, k, r.doc.data) && r.doc == r.docs[k] && r.doc.id == docs[k].id
        && r.doc.data == Assign(docs[k].data, updates)
      else
        r.docs == docs + [r.doc] && r.doc.id == newId
        && r.doc.data == Assign(map[UserPath := owner], updates)
    ensures UserPath !in updates ==> OwnerOf(r.doc) == Some(owner)
    ensures forall p :: p in r.doc.data && p !in updates && p != UserPath ==>
      var k := FindOne(docs, ByOwner(owner)); k >= 0 && p in docs[k].data && r.doc.data[p] == docs[k].data[p]
  {
    var k := FindOne(docs, ByOwner(owner));
    if k >= 0 then
      var data := Assign(docs[k].data, updates);
      Upserted(UpdateAt(docs, k, data), Entry(docs[k].id, data))
    else
      var doc := Entry(newId, Assign(map[UserPath := owner], updates));
      Upserted(docs + [doc], doc)
  }

  /** After an upsert whose body does not move the document to another user,
      there is still one document per owner, and the owner's one document is the
      answer, carrying every path of the body. */
  lemma UpsertLeavesOneRecord(docs: seq<Doc>, owner: Id, updates: Fields, newId: Id)
    requires OnePerOwner(docs) && UserPath !in updates
    ensures var r := Upsert(docs, owner, updates, newId);
      OnePerOwner(r.docs) && FindOne(r.docs, ByOwner(owner)) >= 0
      && r.docs[FindOne(r.docs, ByOwner(owner))] == r.doc
  {
    var r := Upsert(docs, owner, updates, newId);
    var k := FindOne(docs, ByOwner(owner));
    if k >= 0 {
      AssignOwner(docs[k], updates);
      UpdateKeepsOnePerOwner(docs, k, r.doc.data);
      var j := FindOne(r.docs, ByOwner(owner));
      assert Matches(r.docs[k], ByOwner(owner));
      assert forall i :: 0 <= i < k ==> r.docs[i] == docs[i];
    } else {
      AppendKeepsOnePerOwner(docs, r.doc, owner);
      var j := FindOne(r.docs, ByOwner(owner));
      assert Matches(r.docs[|docs|], ByOwner(owner));
      assert forall i :: 0 <= i < |docs| ==> r.docs[i] == docs[i];
    }
  }

  class Portfolio {
    var users: map<Id, Fields>
    var resumes: seq<Doc>
    var projects: seq<Doc>
    var contacts: seq<Doc>

    constructor (users: map<Id, Fields>)
      ensures this.users == users && resumes == [] && projects == [] && contacts == []
    {
      this.users := users;
      resumes, projects, contacts := [], [], [];
    }

    /** GET /:userId: the user without the password, the resume or null, the
        projects, and the contact or null. */
    function Get(userId: Id): (r: PortfolioReply)
      reads this
      ensures r == UserNotFound <==> userId !in users
      ensures r != UserNotFound ==> r.Portfolio?
      ensures r.Portfolio? ==>
        && r.personalInfo.Keys == users[userId].Keys - {PasswordPath}
        && (forall p :: p in r.personalInfo ==> r.personalInfo[p] == users[userId][p])
        && r.resume == OwnedOrNull(resumes, userId)
        && (forall d :: d in r.projects <==> d in projects && OwnerOf(d) == Some(userId))
        && r.projects == Find(projects, ByOwner(userId))
        && r.contact == OwnedOrNull(contacts, userId)
    {
      if userId !in users then UserNotFound
      else Portfolio(users[userId] - {PasswordPath}, OwnedOrNull(resumes, userId),
                     Find(projects, ByOwner(userId)), OwnedOrNull(contacts, userId))
    }

    /** GET /public/:userId: the selected public paths only, and no resume. */
    function GetPublic(userId: Id): (r: PortfolioReply)
      reads this
      ensures r == UserNotFound <==> userId !in users
      ensures r != UserNotFound ==> r.PublicPortfolio?
      ensures r.PublicPortfolio? ==>
        && PasswordPath !in r.personalInfo
        && r.personalInfo == Select(users[userId], UserPublicPaths)
        && |r.projects| == |Find(projects, ByOwner(userId))|
        && (forall i :: 0 <= i < |r.projects| ==>
              r.projects[i].id == Find(projects, ByOwner(userId))[i].id
              && r.projects[i].data == Select(Find(projects, ByOwner(userId))[i].data, ProjectPublicPaths)
              && r.projects[i].data.Keys <= ProjectPublicPaths)
        && (r.contact.Some? <==> OwnedOrNull(contacts, userId).Some?)
        && (r.contact.Some? ==>
              var c := OwnedOrNull(contacts, userId).value;
              r.contact.value == Entry(c.id, Select(c.data, ContactPublicPaths))
              && r.contact.value.data.Keys <= ContactPublicPaths)
    {
      if userId !in users then UserNotFound
      else
        var own := Find(projects, ByOwner(userId));
        var c := OwnedOrNull(contacts, userId);
        PublicPortfolio(
          Select(users[userId], UserPublicPaths),
          seq(|own|, i requires 0 <= i < |own| => Entry(own[i].id, Select(own[i].data, ProjectPublicPaths))),
          if c.Some? then Some(Entry(c.value.id, Select(c.value.data, ContactPublicPaths))) else None)
    }

    /** PUT /:userId/personal: `$set` of the body on the user, validated path by
        path before the query looks the user up, so an invalid body is a 500 even
        for an unknown user; the answer leaves the password out. */
    method UpdatePersonal(header: Option<string>, verify: string -> Verified, accounts: map<Id, Account>,
                          userId: Id, updates: Fields) returns (res: Response)
      modifies this`users
      ensures var g := Guard(header, verify, accounts, userId);
        if g.Stop? then res == Message(g.status, g.message) && users == old(users)
        else if !UpdateValidates(CastUpdates(updates)) then
          res == Message(500, "Error updating personal information") && users == old(users)
        else if userId !in old(users) then res == Message(404, "User not found") && users == old(users)
        else
          users == old(users)[userId := Assign(old(users)[userId], CastUpdates(updates))]
          && res.Json? && res.status == 200 && PasswordPath !in res.fields
          && res.fields == users[userId] - {PasswordPath}
    {
      var g := Guard(header, verify, accounts, userId);
      if g.Stop? {
        return Message(g.status, g.message);
      }
      var cast := CastUpdates(updates);
      if !UpdateValidates(cast) {
        return Message(500, "Error updating personal information");
      }
      if userId !in users {
        return Message(404, "User not found");
      }
      users := users[userId := Assign(users[userId], cast)];
      res := Json(200, users[userId] - {PasswordPath});
    }

    /** PUT /:userId/resume: upsert of the user's resume. */
    method UpsertResume(header: Option<string>, verify: string -> Verified, accounts: map<Id, Account>,
                        userId: Id, updates: Fields, newId: Id) returns (res: Response)
      modifies this`resumes
      ensures var g := Guard(header, verify, accounts, userId);
        if g.Stop? then res == Message(g.status, g.message) && resumes == old(resumes)
        else
          var r := Upsert(old(resumes), userId, updates, newId);
          resumes == r.docs && res == Found(200, r.doc)
    {
      var g := Guard(header, verify, accounts, userId);
      if g.Stop? {
        return Message(g.status, g.message);
      }
      var r := Upsert(resumes, userId, updates, newId);
      resumes := r.docs;
      res := Found(200, r.doc);
    }

    /** PUT /:userId/contact: upsert of the user's contact. */
    method UpsertContact(header: Option<string>, verify: string -> Verified, accounts: map<Id, Account>,
                         userId: Id, updates: Fields, newId: Id) returns (res: Response)
      modifies this`contacts
      ensures var g := Guard(header, verify, accounts, userId);
        if g.Stop? then res == Message(g.status, g.message) && contacts == old(contacts)
        else
          var r := Upsert(old(contacts), userId, updates, newId);
          contacts == r.docs && res == Found(200, r.doc)
    {
      var g := Guard(header, verify, accounts, userId);
      if g.Stop? {
        return Message(g.status, g.message);
      }
      var r := Upsert(contacts, userId, updates, newId);
      contacts := r.docs;
      res := Found(200, r.doc);
    }

    /** PUT /:userId/projects/:projectId?: with a project id, `$set` on the project
        with that id and owner, or `null` when there is none; without one, a new
        project owned by the path's user. */
    method PutProject(header: Option<string>, verify: string -> Verified, accounts: map<Id, Account>,
                      userId: Id, projectId: Option<Id>, data: Fields, newId: Id) returns (res: Response)
      requires newId !in IdsOf(projects)
      modifies this`projects
      ensures var g := Guard(header, verify, accounts, userId);
        g.Stop? ==> res == Message(g.status, g.message) && projects == old(projects)
      ensures var g := Guard(header, verify, accounts, userId);
        g.Proceed? && projectId.Some? ==>
          var k := FindOne(old(projects), ByIdAndOwner(projectId.value, userId));
          if k < 0 then res == NullBody(200) && projects == old(projects)
          else
            projects == UpdateAt(old(projects), k, Assign(old(projects)[k].data, data))
            && res == Found(200, projects[k])
      ensures var g := Guard(header, verify, accounts, userId);
        g.Proceed? && projectId.None? ==>
          var created := Entry(newId, Stamp(data, userId));
          if Saves(StandaloneRoutes.ProjectRequired, created.data)
          then res == Found(200, created) && projects == old(projects) + [created]
          else res == Message(500, "Error updating project") && projects == old(projects)
      ensures UniqueIds(old(projects)) ==> UniqueIds(projects)
    {
      var g := Guard(header, verify, accounts, userId);
      if g.Stop? {
        return Message(g.status, g.message);
      }
      if projectId.Some? {
        var k := FindOne(projects, ByIdAndOwner(projectId.value, userId));
        if k < 0 {
          return NullBody(200);
        }
        UpdateAtKeepsIds(projects, k, Assign(projects[k].data, data), userId);
        projects := UpdateAt(projects, k, Assign(projects[k].data, data));
        res := Found(200, projects[k]);
      } else {
        var created := Entry(newId, Stamp(data, userId));
        if !Saves(StandaloneRoutes.ProjectRequired, created.data) {
          return Message(500, "Error updating project");
        }
        if UniqueIds(projects) {
          AppendFresh(projects, created);
        }
        projects := projects + [created];
        res := Found(200, created);
      }
    }

    /** DELETE /:userId/projects/:projectId: removes the project with that id and owner. */
    method DeleteProject(header: Option<string>, verify: string -> Verified, accounts: map<Id, Account>,
                         userId: Id, projectId: Id) returns (res: Response)
      modifies this`projects
      ensures var g := Guard(header, verify, accounts, userId);
        if g.Stop? then res == Message(g.status, g.message) && projects == old(projects)
        else
          var k := FindOne(old(projects), ByIdAndOwner(projectId, userId));
          if k < 0 then res == Message(404, "Project not found") && projects == old(projects)
          else res == Message(200, "Project deleted successfully") && projects == RemoveAt(old(projects), k)
      ensures forall d :: d in old(projects) && OwnerOf(d) != Some(userId) ==> d in projects
    {
      var g := Guard(header, verify, accounts, userId);
      if g.Stop? {
        return Message(g.status, g.message);
      }
      var k := FindOne(projects, ByIdAndOwner(projectId, userId));
      if k < 0 {
        return Message(404, "Project not found");
      }
      var t := RemoveAt(projects, k);
      RemoveKeepsOthers(projects, k);
      projects := t;
      res := Message(200, "Project deleted successfully");
    }
  }
}
