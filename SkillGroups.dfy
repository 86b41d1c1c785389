/** `groupedSkills`: the `reduce` that builds an object from category to the
    array of that category's skills, creating a key the first time a category
    is met and pushing each skill onto its category's array. */
module SkillGroups {
  import opened Sections
  import opened UserModel

  /** A JavaScript object whose values are arrays of skills: its keys in
      insertion order, and the value stored under each key. */
  datatype Groups = Groups(keys: seq<string>, byKey: map<string, seq<Entry<Skill>>>)

  function CategoryOf(e: Entry<Skill>): string
  {
    e.data.category
  }

  /** The categories of `s` in order of first appearance, each once. */
  function Categories(s: seq<Entry<Skill>>): seq<string>
  {
    if |s| == 0 then []
    else
      var p := Categories(s[..|s| - 1]);
      if CategoryOf(s[|s| - 1]) in p then p else p + [CategoryOf(s[|s| - 1])]
  }

  /** The skills of `s` whose category is `c`, in their order in `s`. */
  function Members(s: seq<Entry<Skill>>, c: string): seq<Entry<Skill>>
  {
    if |s| == 0 then []
    else Members(s[..|s| - 1], c) + (if CategoryOf(s[|s| - 1]) == c then [s[|s| - 1]] else [])
  }

  /** The object `groupedSkills` should hold: one key per category present, in
      first-appearance order, mapped to that category's skills. */
  function GroupsOf(s: seq<Entry<Skill>>): Groups
  {
    Groups(Categories(s), map c | c in Categories(s) :: Members(s, c))
  }

  predicate Distinct(xs: seq<string>)
  {
    forall i, j :: 0 <= i < j < |xs| ==> xs[i] != xs[j]
  }

  /** The keys are distinct and are exactly the categories that occur. */
  lemma {:induction false} CategoriesExact(s: seq<Entry<Skill>>)
    ensures Distinct(Categories(s))
    ensures forall c :: c in Categories(s) <==> exists i :: 0 <= i < |s| && CategoryOf(s[i]) == c
  {
    if |s| > 0 {
      var init := s[..|s| - 1];
      CategoriesExact(init);
      forall c ensures c in Categories(s) <==> exists i :: 0 <= i < |s| && CategoryOf(s[i]) == c {
        if c in Categories(init) {
          var i :| 0 <= i < |init| && CategoryOf(init[i]) == c;
          assert s[i] == init[i];
        }
        if exists i :: 0 <= i < |s| && CategoryOf(s[i]) == c {
          var i :| 0 <= i < |s| && CategoryOf(s[i]) == c;
          if i < |init| { assert init[i] == s[i]; }
        }
      }
    }
  }

  /** Every member of a group has that group's category. */
  lemma {:induction false} MembersHaveCategory(s: seq<Entry<Skill>>, c: string)
    ensures forall k :: 0 <= k < |Members(s, c)| ==> CategoryOf(Members(s, c)[k]) == c
  {
    if |s| > 0 {
      MembersHaveCategory(s[..|s| - 1], c);
    }
  }

  /** Every skill is in the group of its own category. */
  lemma {:induction false} MemberOfOwnGroup(s: seq<Entry<Skill>>, i: nat)
    requires i < |s|
    ensures s[i] in Members(s, CategoryOf(s[i]))
  {
    var init := s[..|s| - 1];
    if i < |s| - 1 {
      assert init[i] == s[i];
      MemberOfOwnGroup(init, i);
    }
  }

  /** A category that does not occur has no members. */
  lemma {:induction false} MembersOfAbsent(s: seq<Entry<Skill>>, c: string)
    requires c !in Categories(s)
    ensures Members(s, c) == []
  {
    if |s| > 0 {
      var init := s[..|s| - 1];
      assert c !in Categories(init);
      MembersOfAbsent(init, c);
    }
  }

  /** The total size of the groups named by `keys`. */
  function SizeSum(keys: seq<string>, s: seq<Entry<Skill>>): nat
  {
    if |keys| == 0 then 0 else SizeSum(keys[..|keys| - 1], s) + |Members(s, keys[|keys| - 1])|
  }

  /** Adding one skill grows exactly one group of a distinct key list by one. */
  lemma {:induction false} SizeSumStep(keys: seq<string>, s: seq<Entry<Skill>>, x: Entry<Skill>)
    requires Distinct(keys)
    ensures SizeSum(keys, s + [x]) == SizeSum(keys, s) + (if CategoryOf(x) in keys then 1 else 0)
  {
    assert (s + [x])[..|s|] == s;
    if |keys| > 0 {
      var init := keys[..|keys| - 1];
      assert Distinct(init);
      SizeSumStep(init, s, x);
      assert keys == init + [keys[|keys| - 1]];
      assert CategoryOf(x) in keys <==> CategoryOf(x) in init || CategoryOf(x) == keys[|keys| - 1];
      assert CategoryOf(x) == keys[|keys| - 1] ==> CategoryOf(x) !in init;
    }
  }

  /** Summed over the keys, the group sizes add up to the number of skills:
      every skill is in exactly one group. */
  lemma {:induction false} GroupSizesSum(s: seq<Entry<Skill>>)
    ensures SizeSum(Categories(s), s) == |s|
  {
    if |s| > 0 {
      var init := s[..|s| - 1];
      var x := s[|s| - 1];
      assert s == init + [x];
      GroupSizesSum(init);
      CategoriesExact(init);
      var keys := Categories(init);
      SizeSumStep(keys, init, x);
      if CategoryOf(x) !in keys {
        CategoriesExact(s);
        var all := keys + [CategoryOf(x)];
        assert all[..|all| - 1] == keys;
        MembersOfAbsent(init, CategoryOf(x));
      }
    }
  }

  /** How one `reduce` step changes the grouped object. */
  lemma GroupsOfStep(s: seq<Entry<Skill>>, x: Entry<Skill>)
    ensures var g := GroupsOf(s);
      var c := CategoryOf(x);
      GroupsOf(s + [x]) ==
        if c in g.byKey then Groups(g.keys, g.byKey[c := g.byKey[c] + [x]])
        else Groups(g.keys + [c], g.byKey[c := [x]])
  {
    var t := s + [x];
    assert t[..|t| - 1] == s;
    var c := CategoryOf(x);
    var g := GroupsOf(s);
    var m := if c in g.byKey then g.byKey[c := g.byKey[c] + [x]] else g.byKey[c := [x]];
    if c !in Categories(s) {
      MembersOfAbsent(s, c);
    }
    assert forall k :: Members(t, k) == Members(s, k) + (if k == c then [x] else []);
    assert GroupsOf(t).byKey.Keys == m.Keys;
    assert forall k :: k in m ==> GroupsOf(t).byKey[k] == m[k];
  }

  /** `skills.reduce(...)`, step by step as the source runs it. */
  method GroupSkills(skills: seq<Entry<Skill>>) returns (g: Groups)
    ensures g == GroupsOf(skills)
  {
    var keys: seq<string> := [];
    var byKey: map<string, seq<Entry<Skill>>> := map[];
    for i := 0 to |skills|
      invariant Groups(keys, byKey) == GroupsOf(skills[..i])
    {
      var skill := skills[i];
      var c := skill.data.category;
      GroupsOfStep(skills[..i], skill);
      assert skills[..i + 1] == skills[..i] + [skill];
      if c !in byKey {
        keys := keys + [c];
        byKey := byKey[c := []];
      }
      byKey := byKey[c := byKey[c] + [skill]];
    }
    assert skills[..|skills|] == skills;
    g := Groups(keys, byKey);
  }
}
