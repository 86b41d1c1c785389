/** The per-user document routers: contact and resume (one document per user,
    identical apart from their names) and projects (any number per user). The
    caller's id, which these routers take from `req.user`, is a parameter, as is
    the `_id` a new document receives. */
module StandaloneRoutes {
  import opened JsValues
  import opened Sections
  import opened Documents

  /** Required paths of a contact document. */
  const ContactRequired := {"name", "email", "message", UserPath}
  /** Required paths of a resume document, nested paths written with a dot. */
  const ResumeRequired := {"personalInfo.name", "personalInfo.title", "personalInfo.email", "personalInfo.summary", UserPath}
  /** Required paths of a project document. */
  const ProjectRequired := {"title", "description", UserPath}

  /** A router over a collection meant to hold one document per user: `title` and
      `noun` name the document in its messages ("Contact"/"contact",
      "Resume"/"resume"), `required` are its schema's required paths. */
  class SingletonRoutes {
    const title: string
    const noun: string
    const required: set<string>
    var docs: seq<Doc>

    constructor (title: string, noun: string, required: set<string>)
      ensures this.title == title && this.noun == noun && this.required == required
      ensures docs == []
    {
      this.title, this.noun, this.required := title, noun, required;
      docs := [];
    }

    /** GET /me: the caller's document, or 404. */
    method GetMine(caller: Id) returns (res: Response)
      ensures var k := FindOne(docs, ByOwner(caller));
        if k < 0 then res == Message(404, title + " not found") else res == Found(200, docs[k])
      ensures res.Found? ==> OwnerOf(res.doc) == Some(caller) && res.doc in docs
    {
      var k := FindOne(docs, ByOwner(caller));
      if k < 0 {
        return Message(404, title + " not found");
      }
      res := Found(200, docs[k]);
    }

    /** POST /: refuses a second document for the caller; otherwise creates one
        from the body, owned by the caller whatever the body says. */
    method Create(caller: Id, body: Fields, newId: Id) returns (res: Response)
      requires newId !in IdsOf(docs)
      modifies this`docs
      ensures FindOne(old(docs), ByOwner(caller)) >= 0 ==>
        res == Message(400, title + " already exists") && docs == old(docs)
      ensures FindOne(old(docs), ByOwner(caller)) < 0 ==>
        var created := Entry(newId, Stamp(body, caller));
        if Saves(required, created.data)
        then res == Found(201, created) && docs == old(docs) + [created]
        else res == Message(500, "Error creating " + noun) && docs == old(docs)
      ensures OnePerOwner(old(docs)) ==> OnePerOwner(docs)
      ensures FindOne(docs, ByOwner(caller)) >= 0 <==> FindOne(old(docs), ByOwner(caller)) >= 0 || res.Found?
    {
      if FindOne(docs, ByOwner(caller)) >= 0 {
        return Message(400, title + " already exists");
      }
      var created := Entry(newId, Stamp(body, caller));
      if !Saves(required, created.data) {
        return Message(500, "Error creating " + noun);
      }
      if OnePerOwner(docs) {
        AppendKeepsOnePerOwner(docs, created, caller);
      }
      docs := docs + [created];
      assert Matches(docs[|docs| - 1], ByOwner(caller));
      res := Found(201, created);
    }

    /** PUT /me: assigns the body onto the caller's document and saves it. */
    method UpdateMine(caller: Id, body: Fields) returns (res: Response)
      modifies this`docs
      ensures var k := FindOne(old(docs), ByOwner(caller));
        if k < 0 then res == Message(404, title + " not found") && docs == old(docs)
        else
          var updated := UpdateAt(old(docs), k, Assign(old(docs)[k].data, body));
          if Saves(required, updated[k].data)
          then res == Found(200, updated[k]) && docs == updated
          else res == Message(500, "Error updating " + noun) && docs == old(docs)
      ensures IdsOf(docs) == IdsOf(old(docs))
      ensures UserPath !in body && OnePerOwner(old(docs)) ==> OnePerOwner(docs)
    {
      var k := FindOne(docs, ByOwner(caller));
      if k < 0 {
        return Message(404, title + " not found");
      }
      var updated := UpdateAt(docs, k, Assign(docs[k].data, body));
      if !Saves(required, updated[k].data) {
        return Message(500, "Error updating " + noun);
      }
      UpdateAtKeepsIds(docs, k, Assign(docs[k].data, body), caller);
      if UserPath !in body && OnePerOwner(docs) {
        AssignOwner(docs[k], body);
        UpdateKeepsOnePerOwner(docs, k, Assign(docs[k].data, body));
      }
      docs := updated;
      res := Found(200, docs[k]);
    }

    /** DELETE /me: removes the caller's document. */
    method DeleteMine(caller: Id) returns (res: Response)
      modifies this`docs
      ensures var k := FindOne(old(docs), ByOwner(caller));
        if k < 0 then res == Message(404, title + " not found") && docs == old(docs)
        else res == Message(200, title + " deleted successfully") && docs == RemoveAt(old(docs), k)
      ensures OnePerOwner(old(docs)) ==> OnePerOwner(docs) && FindOne(docs, ByOwner(caller)) < 0
    {
      var k := FindOne(docs, ByOwner(caller));
      if k < 0 {
        return Message(404, title + " not found");
      }
      var t := RemoveAt(docs, k);
      if OnePerOwner(docs) {
        RemoveKeepsOnePerOwner(docs, k);
        OnlyDocumentRemoved(docs, k, caller);
      }
      docs := t;
      res := Message(200, title + " deleted successfully");
    }
  }

  /** With one document per owner, removing an owner's document leaves them none. */
  lemma OnlyDocumentRemoved(docs: seq<Doc>, k: nat, owner: Id)
    requires OnePerOwner(docs) && k < |docs| && Matches(docs[k], ByOwner(owner))
    ensures FindOne(RemoveAt(docs, k), ByOwner(owner)) < 0
  {
    var t := RemoveAt(docs, k);
    forall i | 0 <= i < |t| ensures !Matches(t[i], ByOwner(owner)) {
      if i < k {
        assert t[i] == docs[i];
      } else {
        assert t[i] == docs[i + 1];
      }
    }
  }

  /** The projects router: any number of projects per user, each reached only
      through a filter on both its id and its owner. */
  class ProjectRoutes {
    var docs: seq<Doc>

    constructor ()
      ensures docs == []
    {
      docs := [];
    }

    /** GET /me: exactly the caller's projects, as `find` returns them. */
    method ListMine(caller: Id) returns (res: Response)
      ensures res.Listed? && res.status == 200
      ensures res.docs == Find(docs, ByOwner(caller))
      ensures forall d :: d in res.docs <==> d in docs && OwnerOf(d) == Some(caller)
    {
      res := Listed(200, Find(docs, ByOwner(caller)));
    }

    /** POST /: always a new project, owned by the caller whatever the body says. */
    method Create(caller: Id, body: Fields, newId: Id) returns (res: Response)
      requires newId !in IdsOf(docs)
      modifies this`docs
      ensures var created := Entry(newId, Stamp(body, caller));
        if Saves(ProjectRequired, created.data)
        then res == Found(201, created) && docs == old(docs) + [created]
        else res == Message(500, "Error creating project") && docs == old(docs)
      ensures UniqueIds(old(docs)) ==> UniqueIds(docs)
    {
      var created := Entry(newId, Stamp(body, caller));
      if !Saves(ProjectRequired, created.data) {
        return Message(500, "Error creating project");
      }
      if UniqueIds(docs) {
        AppendFresh(docs, created);
      }
      docs := docs + [created];
      res := Found(201, created);
    }

    /** PUT /:id: assigns the body onto the project with that id, when the caller owns it. */
    method Update(caller: Id, id: Id, body: Fields) returns (res: Response)
      modifies this`docs
      ensures var k := FindOne(old(docs), ByIdAndOwner(id, caller));
        if k < 0 then res == Message(404, "Project not found") && docs == old(docs)
        else
          var updated := UpdateAt(old(docs), k, Assign(old(docs)[k].data, body));
          if Saves(ProjectRequired, updated[k].data)
          then res == Found(200, updated[k]) && docs == updated
          else res == Message(500, "Error updating project") && docs == old(docs)
      ensures forall i :: 0 <= i < |old(docs)| && OwnerOf(old(docs)[i]) != Some(caller) ==> old(docs)[i] == docs[i]
      ensures |docs| == |old(docs)| && IdsOf(docs) == IdsOf(old(docs))
    {
      var k := FindOne(docs, ByIdAndOwner(id, caller));
      if k < 0 {
        return Message(404, "Project not found");
      }
      var updated := UpdateAt(docs, k, Assign(docs[k].data, body));
      if !Saves(ProjectRequired, updated[k].data) {
        return Message(500, "Error updating project");
      }
      UpdateAtKeepsIds(docs, k, Assign(docs[k].data, body), id);
      docs := updated;
      res := Found(200, docs[k]);
    }

    /** DELETE /:id: removes the project with that id, when the caller owns it. */
    method Delete(caller: Id, id: Id) returns (res: Response)
      modifies this`docs
      ensures var k := FindOne(old(docs), ByIdAndOwner(id, caller));
        if k < 0 then res == Message(404, "Project not found") && docs == old(docs)
        else res == Message(200, "Project deleted successfully") && docs == RemoveAt(old(docs), k)
      ensures forall d :: d in old(docs) && OwnerOf(d) != Some(caller) ==> d in docs
    {
      var k := FindOne(docs, ByIdAndOwner(id, caller));
      if k < 0 {
        return Message(404, "Project not found");
      }
      var t := RemoveAt(docs, k);
      RemoveKeepsOthers(docs, k);
      docs := t;
      res := Message(200, "Project deleted successfully");
    }
  }
}
