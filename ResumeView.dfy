/** The read-only resume page: skills grouped by category (with the same
    grouping as the skills dashboard), and the timeline connectors between
    experience and education entries. */
module ResumeView {
  import opened JsValues
  import opened Sections
  import opened UserModel
  import opened SkillGroups

  /** `userData?.skills?.reduce(...) || {}`: the grouping of the loaded skills, or
      the empty object when there is no user data or no skills array. */
  method GroupedSkills(skills: JsVal<seq<Entry<Skill>>>) returns (g: Groups)
    ensures skills.Val? ==> g == GroupsOf(skills.v)
    ensures !skills.Val? ==> g == Groups([], map[])
  {
    if skills.Val? {
      g := GroupSkills(skills.v);
    } else {
      g := Groups([], map[]);
    }
  }

  /** An empty skills array groups to the empty object as well. */
  lemma NoSkillsNoGroups()
    ensures GroupsOf([]) == Groups([], map[])
  {
  }

  /** `index < items.length - 1`: whether a timeline connector follows item `index`. */
  predicate HasConnector(index: nat, length: nat)
  {
    index < length - 1
  }

  /** Every item but the last is followed by a connector. */
  lemma ConnectorsBetweenItems(length: nat)
    ensures forall i :: 0 <= i < length ==> (HasConnector(i, length) <==> i != length - 1)
  {
  }
}
