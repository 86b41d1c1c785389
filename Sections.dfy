/** The array operations behind every embedded section of a user document
    (projects, experience, education, skills, contacts): each element is a
    sub-document with its own `_id`, located with `findIndex`, added with
    `unshift` or `push`, patched in place, or removed with `splice(k, 1)`. */
module Sections {

  /** The string form of a sub-document's `_id`, as compared with `req.params.id`. */
  type Id = string

  /** A sub-document: its `_id` and its schema fields. */
  datatype Entry<T> = Entry(id: Id, data: T)

  function IdsOf<T>(s: seq<Entry<T>>): set<Id>
  {
    set i | 0 <= i < |s| :: s[i].id
  }

  /** No two sub-documents of the section share an `_id`. */
  predicate UniqueIds<T>(s: seq<Entry<T>>)
  {
    forall i, j :: 0 <= i < j < |s| ==> s[i].id != s[j].id
  }

  /** `s.findIndex(e => e._id.toString() === id)`: the FIRST index holding `id`, or -1. */
  function FindIndex<T>(s: seq<Entry<T>>, id: Id): (r: int)
    ensures -1 <= r < |s|
    ensures r == -1 <==> id !in IdsOf(s)
    ensures r >= 0 ==> s[r].id == id && forall i :: 0 <= i < r ==> s[i].id != id
  {
    if |s| == 0 then -1
    else if s[0].id == id then 0
    else
      var k := FindIndex(s[1..], id);
      assert IdsOf(s) == {s[0].id} + IdsOf(s[1..]) by {
        forall x | x in IdsOf(s) ensures x in {s[0].id} + IdsOf(s[1..]) {
          var i :| 0 <= i < |s| && s[i].id == x;
          if i > 0 { assert s[1..][i - 1].id == x; }
        }
      }
      if k == -1 then -1 else k + 1
  }

  /** `s.splice(k, 1)`: the element at `k` is gone, those before it keep their
      index and those after it move down by one. */
  function RemoveAt<T>(s: seq<Entry<T>>, k: nat): (r: seq<Entry<T>>)
    requires k < |s|
    ensures |r| == |s| - 1
    ensures forall i :: 0 <= i < k ==> r[i] == s[i]
    ensures forall i :: k <= i < |r| ==> r[i] == s[i + 1]
    ensures multiset(r) + multiset{s[k]} == multiset(s)
  {
    assert s == s[..k] + [s[k]] + s[k + 1..];
    s[..k] + s[k + 1..]
  }

  /** Every element other than the removed one is still there. */
  lemma RemoveKeepsOthers<T>(s: seq<Entry<T>>, k: nat)
    requires k < |s|
    ensures forall d :: d in s && d != s[k] ==> d in RemoveAt(s, k)
  {
    var r := RemoveAt(s, k);
    forall d | d in s && d != s[k] ensures d in r {
      assert d in multiset(s);
      assert multiset(r)[d] == multiset(s)[d];
    }
  }

  /** `s[k].f = v` for the patched fields: the element at `k` gets new data and
      keeps its `_id`; every other element and the length stay as they are. */
  function UpdateAt<T>(s: seq<Entry<T>>, k: nat, v: T): (r: seq<Entry<T>>)
    requires k < |s|
    ensures |r| == |s|
    ensures r[k] == Entry(s[k].id, v)
    ensures forall i :: 0 <= i < |s| && i != k ==> r[i] == s[i]
  {
    s[k := Entry(s[k].id, v)]
  }

  /** Patching in place keeps the set of ids and their order, so `findIndex`
      finds every id where it found it before. */
  lemma UpdateAtKeepsIds<T>(s: seq<Entry<T>>, k: nat, v: T, id: Id)
    requires k < |s|
    ensures IdsOf(UpdateAt(s, k, v)) == IdsOf(s)
    ensures UniqueIds(s) ==> UniqueIds(UpdateAt(s, k, v))
    ensures FindIndex(UpdateAt(s, k, v), id) == FindIndex(s, id)
  {
    var r := UpdateAt(s, k, v);
    assert forall i :: 0 <= i < |s| ==> r[i].id == s[i].id;
    assert IdsOf(r) == IdsOf(s) by {
      forall x | x in IdsOf(s) ensures x in IdsOf(r) {
        var i :| 0 <= i < |s| && s[i].id == x;
        assert r[i].id == x;
      }
    }
  }

  /** `unshift` of a sub-document with a fresh id: it is found at index 0, the old
      elements follow unchanged, and ids stay unique. */
  lemma PrependFresh<T>(s: seq<Entry<T>>, e: Entry<T>)
    requires UniqueIds(s) && e.id !in IdsOf(s)
    ensures UniqueIds([e] + s)
    ensures IdsOf([e] + s) == IdsOf(s) + {e.id}
    ensures FindIndex([e] + s, e.id) == 0
  {
    var r := [e] + s;
    assert forall i :: 0 <= i < |s| ==> r[i + 1] == s[i];
    forall i, j | 0 <= i < j < |r| ensures r[i].id != r[j].id {
      if i == 0 {
        assert r[j].id == s[j - 1].id;
        assert s[j - 1].id in IdsOf(s);
      } else {
        assert r[i] == s[i - 1] && r[j] == s[j - 1];
      }
    }
    assert IdsOf(r) == IdsOf(s) + {e.id} by {
      forall x | x in IdsOf(r) ensures x in IdsOf(s) + {e.id} {
        var i :| 0 <= i < |r| && r[i].id == x;
        if i > 0 { assert s[i - 1].id == x; }
      }
      forall x | x in IdsOf(s) ensures x in IdsOf(r) {
        var i :| 0 <= i < |s| && s[i].id == x;
        assert r[i + 1].id == x;
      }
    }
  }

  /** `push` of a sub-document with a fresh id: it is found at the last index,
      the old elements keep their indices, and ids stay unique. */
  lemma AppendFresh<T>(s: seq<Entry<T>>, e: Entry<T>)
    requires UniqueIds(s) && e.id !in IdsOf(s)
    ensures UniqueIds(s + [e])
    ensures IdsOf(s + [e]) == IdsOf(s) + {e.id}
    ensures FindIndex(s + [e], e.id) == |s|
  {
    var r := s + [e];
    forall i, j | 0 <= i < j < |r| ensures r[i].id != r[j].id {
      if j == |s| {
        assert s[i].id in IdsOf(s);
      }
    }
    assert IdsOf(r) == IdsOf(s) + {e.id} by {
      forall x | x in IdsOf(r) ensures x in IdsOf(s) + {e.id} {
        var i :| 0 <= i < |r| && r[i].id == x;
        if i < |s| { assert s[i].id == x; }
      }
      forall x | x in IdsOf(s) ensures x in IdsOf(r) {
        var i :| 0 <= i < |s| && s[i].id == x;
        assert r[i].id == x;
      }
      assert r[|s|].id == e.id;
    }
    assert forall i :: 0 <= i < |s| ==> r[i].id in IdsOf(s);
  }

  /** Removing the element found for `id` from a section with unique ids removes
      that id and no other, so a second delete with the same id finds nothing. */
  lemma RemoveFound<T>(s: seq<Entry<T>>, id: Id)
    requires UniqueIds(s) && FindIndex(s, id) >= 0
    ensures var r := RemoveAt(s, FindIndex(s, id) as nat);
      UniqueIds(r) && IdsOf(r) == IdsOf(s) - {id} && FindIndex(r, id) == -1
  {
    var k := FindIndex(s, id) as nat;
    var r := RemoveAt(s, k);
    forall i, j | 0 <= i < j < |r| ensures r[i].id != r[j].id {
      var i' := if i < k then i else i + 1;
      var j' := if j < k then j else j + 1;
      assert r[i] == s[i'] && r[j] == s[j'] && i' < j';
    }
    assert IdsOf(r) == IdsOf(s) - {id} by {
      forall x | x in IdsOf(r) ensures x in IdsOf(s) - {id} {
        var i :| 0 <= i < |r| && r[i].id == x;
        var i' := if i < k then i else i + 1;
        assert r[i] == s[i'] && i' != k;
      }
      forall x | x in IdsOf(s) - {id} ensures x in IdsOf(r) {
        var i :| 0 <= i < |s| && s[i].id == x;
        if i < k { assert r[i].id == x; } else { assert i > k; assert r[i - 1].id == x; }
      }
    }
  }
}
