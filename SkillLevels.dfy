/** `getLevelText` and `getProgressColor`, which SkillsManager and ResumeView
    both define with the same thresholds: a level is banded at 25, 50 and 75,
    and the band picks both the label and the bar colour. */
module SkillLevels {

  datatype Band = Beginner | Intermediate | Advanced | Expert

  /** The band of a level, as half-open intervals. */
  function BandOf(level: int): (b: Band)
    ensures b == Beginner <==> level < 25
    ensures b == Intermediate <==> 25 <= level < 50
    ensures b == Advanced <==> 50 <= level < 75
    ensures b == Expert <==> 75 <= level
  {
    if level < 25 then Beginner
    else if level < 50 then Intermediate
    else if level < 75 then Advanced
    else Expert
  }

  /** The bands in increasing order. */
  function Rank(b: Band): nat
  {
    match b
    case Beginner => 0
    case Intermediate => 1
    case Advanced => 2
    case Expert => 3
  }

  /** `getLevelText`: the if-chain, which names the band of the level. */
  function LevelText(level: int): (r: string)
    ensures r == "Beginner" <==> BandOf(level) == Beginner
    ensures r == "Intermediate" <==> BandOf(level) == Intermediate
    ensures r == "Advanced" <==> BandOf(level) == Advanced
    ensures r == "Expert" <==> BandOf(level) == Expert
  {
    if level < 25 then "Beginner"
    else if level < 50 then "Intermediate"
    else if level < 75 then "Advanced"
    else "Expert"
  }

  /** `getProgressColor`: orange, light blue, green, deep purple by band. */
  function ProgressColor(level: int): (r: string)
    ensures r == "#FFA726" <==> BandOf(level) == Beginner
    ensures r == "#29B6F6" <==> BandOf(level) == Intermediate
    ensures r == "#66BB6A" <==> BandOf(level) == Advanced
    ensures r == "#5E35B1" <==> BandOf(level) == Expert
  {
    if level < 25 then "#FFA726"
    else if level < 50 then "#29B6F6"
    else if level < 75 then "#66BB6A"
    else "#5E35B1"
  }

  /** Two levels get the same label exactly when they get the same colour:
      the colour band always matches the text band. */
  lemma TextAndColourAgree(a: int, b: int)
    ensures LevelText(a) == LevelText(b) <==> ProgressColor(a) == ProgressColor(b)
    ensures LevelText(a) == LevelText(b) <==> BandOf(a) == BandOf(b)
  {
  }

  /** A higher level never gets a lower band. */
  lemma BandMonotone(a: int, b: int)
    requires a <= b
    ensures Rank(BandOf(a)) <= Rank(BandOf(b))
  {
  }

  /** The form's default level, 75, is the least level labelled Expert. */
  lemma DefaultLevelIsExpert()
    ensures LevelText(75) == "Expert" && LevelText(74) == "Advanced"
  {
  }
}
