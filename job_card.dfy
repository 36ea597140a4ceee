/** View rules of a job card: the badge class of each job type and the
    "first five skills, then +N more" display. */
module JobCard {
  import opened Wrappers
  import opened Text
  import opened JobService

  const GreenBadge := "bg-green-500 text-green-50"
  const YellowBadge := "bg-yellow-500 text-yellow-50"
  const BlueBadge := "bg-blue-500 text-blue-50"
  const PurpleBadge := "bg-purple-500 text-purple-50"
  const GrayBadge := "bg-gray-500 text-gray-50"

  /** `getJobTypeClass`: four job types have a colour of their own; any
      other type falls to the gray default. */
  function JobTypeClass(t: JobType): (r: string)
    ensures t == FullTime <==> r == GreenBadge
    ensures t == PartTime <==> r == YellowBadge
    ensures t == Contract <==> r == BlueBadge
    ensures t == Internship <==> r == PurpleBadge
    ensures t == Temporary <==> r == GrayBadge
  {
    match t
    case FullTime => GreenBadge
    case PartTime => YellowBadge
    case Contract => BlueBadge
    case Internship => PurpleBadge
    case _ => GrayBadge
  }

  const ShownSkillLimit := 5

  /** `skills.slice(0, 5)`: the skills shown, in order. */
  function ShownSkills(skills: seq<string>): (r: seq<string>)
    ensures |r| <= ShownSkillLimit && |r| <= |skills|
    ensures r == skills[..|r|]
    ensures |skills| <= ShownSkillLimit ==> r == skills
    ensures |skills| > ShownSkillLimit ==> |r| == ShownSkillLimit
  {
    if |skills| <= ShownSkillLimit then skills else skills[..ShownSkillLimit]
  }

  /** The count in the "+N more" note, absent when five or fewer skills. */
  function HiddenSkillCount(skills: seq<string>): (r: Option<nat>)
    ensures r.Some? <==> |skills| > ShownSkillLimit
    ensures r.Some? ==> r.value > 0 && r.value == |skills| - ShownSkillLimit
  {
    if |skills| > ShownSkillLimit then Some(|skills| - ShownSkillLimit) else None
  }

  /** The skills section is rendered only for a non-empty list. */
  predicate SkillsSectionShown(skills: seq<string>) {
    |skills| > 0
  }

  /** Shown skills and the "+N more" count always account for every skill,
      and the shown ones are the front of the list. */
  lemma SkillsAccountedFor(skills: seq<string>)
    ensures |ShownSkills(skills)| + HiddenSkillCount(skills).GetOr(0) == |skills|
    ensures ShownSkills(skills) + skills[|ShownSkills(skills)|..] == skills
    ensures SkillsSectionShown(skills) <==> ShownSkills(skills) != []
  {
  }
}
