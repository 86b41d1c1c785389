/** Stand-alone documents (a contact, a resume, a project) as the routers outside
    the user document see them: a collection of documents, each with an `_id` and
    a set of paths, one of which, `user`, names its owner. Paths are kept as
    strings; nested objects and arrays are not broken down. */
module Documents {
  import opened JsValues
  import opened Sections

  /** The paths of one document, by name. */
  type Fields = map<string, string>

  /** A stored document: its `_id` and its paths. */
  type Doc = Entry<Fields>

  /** The path holding the owner's id. */
  const UserPath := "user"

  /** What a route sends: a document, a list of them, `null`, or `{ message }`
      (the `error` detail of a 500 is not modelled). */
  datatype Response =
    | Found(status: int, doc: Doc)
    | Listed(status: int, docs: seq<Doc>)
    | Json(status: int, fields: Fields)
    | NullBody(status: int)
    | Message(status: int, message: string)

  /** The owner a document names, if it names one. */
  function OwnerOf(d: Doc): Option<Id>
  {
    if UserPath in d.data then Some(d.data[UserPath]) else None
  }

  /** The query filters the routes use: `{ user }` and `{ _id, user }`. */
  datatype Filter = ByOwner(owner: Id) | ByIdAndOwner(id: Id, owner: Id)

  predicate Matches(d: Doc, f: Filter)
  {
    match f
    case ByOwner(owner) => OwnerOf(d) == Some(owner)
    case ByIdAndOwner(id, owner) => d.id == id && OwnerOf(d) == Some(owner)
  }

  /** `findOne(filter)`: the index of the first matching document, or -1. */
  function FindOne(docs: seq<Doc>, f: Filter): (r: int)
    ensures -1 <= r < |docs|
    ensures r == -1 <==> forall i :: 0 <= i < |docs| ==> !Matches(docs[i], f)
    ensures r >= 0 ==> Matches(docs[r], f) && forall i :: 0 <= i < r ==> !Matches(docs[i], f)
  {
    if |docs| == 0 then -1
    else if Matches(docs[0], f) then 0
    else
      var k := FindOne(docs[1..], f);
      if k < 0 then -1 else k + 1
  }

  /** `find(filter)`: every matching document, in the order the collection holds them. */
  function Find(docs: seq<Doc>, f: Filter): (r: seq<Doc>)
    ensures |r| <= |docs|
    ensures forall d :: d in r <==> d in docs && Matches(d, f)
  {
    if |docs| == 0 then []
    else (if Matches(docs[0], f) then [docs[0]] else []) + Find(docs[1..], f)
  }

  /** `find` keeps the collection's order: the matches in two runs of documents are
      the matches in the first followed by the matches in the second. */
  lemma {:induction false} FindAppend(a: seq<Doc>, b: seq<Doc>, f: Filter)
    ensures Find(a + b, f) == Find(a, f) + Find(b, f)
  {
    if |a| > 0 {
      FindAppend(a[1..], b, f);
      assert (a + b)[1..] == a[1..] + b;
    } else {
      assert a + b == b;
    }
  }

  /** `Object.assign(target, source)`, and equally `$set: source`: every path of
      the source overwrites, every other path of the target stays. */
  function Assign(target: Fields, source: Fields): (r: Fields)
    ensures r.Keys == target.Keys + source.Keys
    ensures forall k :: k in source ==> r[k] == source[k]
    ensures forall k :: k in target && k !in source ==> r[k] == target[k]
  {
    target + source
  }

  /** `{ ...body, user: owner }`: the owner wins over any `user` in the body. */
  function Stamp(body: Fields, owner: Id): (r: Fields)
    ensures UserPath in r && r[UserPath] == owner
    ensures r.Keys == body.Keys + {UserPath}
    ensures forall k :: k in body && k != UserPath ==> r[k] == body[k]
  {
    Assign(body, map[UserPath := owner])
  }

  /** `.select(paths)`: only the listed paths (the `_id` is kept by the `Entry`). */
  function Select(f: Fields, paths: set<string>): (r: Fields)
    ensures r.Keys == f.Keys * paths
    ensures forall k :: k in r ==> r[k] == f[k]
  {
    map k | k in f && k in paths :: f[k]
  }

  /** The save-time check of a schema's `required` paths: each is present and,
      being a string, not empty. */
  predicate Saves(required: set<string>, f: Fields)
  {
    forall k :: k in required ==> k in f && f[k] != ""
  }

  /** No owner has two documents. */
  predicate OnePerOwner(docs: seq<Doc>)
  {
    forall i, j :: 0 <= i < j < |docs| && OwnerOf(docs[i]).Some? ==> OwnerOf(docs[i]) != OwnerOf(docs[j])
  }

  /** Adding a document for an owner who has none keeps one document per owner. */
  lemma AppendKeepsOnePerOwner(docs: seq<Doc>, x: Doc, owner: Id)
    requires OnePerOwner(docs)
    requires OwnerOf(x) == Some(owner) && FindOne(docs, ByOwner(owner)) < 0
    ensures OnePerOwner(docs + [x])
  {
    var t := docs + [x];
    forall i, j | 0 <= i < j < |t| && OwnerOf(t[i]).Some? ensures OwnerOf(t[i]) != OwnerOf(t[j]) {
      if j == |docs| {
        assert !Matches(docs[i], ByOwner(owner));
      }
    }
  }

  /** Removing a document keeps one document per owner. */
  lemma RemoveKeepsOnePerOwner(docs: seq<Doc>, k: nat)
    requires OnePerOwner(docs) && k < |docs|
    ensures OnePerOwner(RemoveAt(docs, k))
  {
    var t := RemoveAt(docs, k);
    forall i, j | 0 <= i < j < |t| && OwnerOf(t[i]).Some? ensures OwnerOf(t[i]) != OwnerOf(t[j]) {
      var i' := if i < k then i else i + 1;
      var j' := if j < k then j else j + 1;
      assert t[i] == docs[i'] && t[j] == docs[j'];
    }
  }

  /** Rewriting a document without changing its owner keeps one document per owner. */
  lemma UpdateKeepsOnePerOwner(docs: seq<Doc>, k: nat, data: Fields)
    requires OnePerOwner(docs) && k < |docs|
    requires OwnerOf(Entry(docs[k].id, data)) == OwnerOf(docs[k])
    ensures OnePerOwner(UpdateAt(docs, k, data))
  {
    var t := UpdateAt(docs, k, data);
    forall i, j | 0 <= i < j < |t| && OwnerOf(t[i]).Some? ensures OwnerOf(t[i]) != OwnerOf(t[j]) {
      assert OwnerOf(t[i]) == OwnerOf(docs[i]) && OwnerOf(t[j]) == OwnerOf(docs[j]);
    }
  }

  /** Assigning a body keeps the owner unless the body carries a `user` path, in
      which case the document passes to that user. */
  lemma AssignOwner(d: Doc, body: Fields)
    ensures OwnerOf(Entry(d.id, Assign(d.data, body))) ==
      if UserPath in body then Some(body[UserPath]) else OwnerOf(d)
  {
  }
}
