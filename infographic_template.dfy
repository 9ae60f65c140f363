/** `InfographicTemplate`: a sidebar with the initials, the contact items, the skills as
    bars and the education entries, and a main column with the summary, the jobs and the
    projects. */
module InfographicTemplate {
  import opened Wrappers
  import opened JsString
  import opened ResumeTypes
  import opened TemplateCommon

  /** The bar widths, in percent, that the skills cycle through. */
  const Levels: seq<nat> := [90, 85, 80, 75, 70]

  /** `getSkillLevel(index)`: `levels[index % levels.length]`. */
  function SkillLevel(index: nat): (r: nat)
    ensures 70 <= r <= 90
    ensures r % 5 == 0
  {
    Levels[index % |Levels|]
  }

  /** The levels fall by five from 90 and start again every fifth skill. */
  lemma SkillLevelClosedForm(index: nat)
    ensures SkillLevel(index) == 90 - 5 * (index % 5)
    ensures SkillLevel(index + 5) == SkillLevel(index)
    ensures index % 5 == 0 ==> SkillLevel(index) == 90
  {
    assert (index + 5) % 5 == index % 5;
  }

  /** The first letter of the name and of its last space-separated piece, when it has more
      than one. */
  function Initials(name: string): (r: string)
    ensures |r| <= 2
    ensures name == "" ==> r == ""
    ensures name != "" ==> |r| >= 1 && r[0] == name[0]
  {
    var pieces := Split(name, ' ');
    FirstChar(name) + (if |pieces| > 1 then FirstChar(pieces[|pieces| - 1]) else "")
  }

  /** A one-word name gives one letter. */
  lemma OneWordInitial(name: string)
    requires name != "" && ' ' !in name
    ensures Initials(name) == [name[0]]
  {
    SplitNoSep(name, ' ');
  }

  /** A name ending in a space has an empty last piece, so only its first letter shows. */
  lemma TrailingSpaceInitial(name: string)
    requires name != "" && name[|name| - 1] == ' '
    ensures Initials(name) == [name[0]]
  {
    SplitEndsWithSep(name, ' ');
  }

  /** Three words give the first letters of the first and of the last. */
  lemma ThreeWordInitials(a: string, b: string, c: string)
    requires a != "" && c != ""
    requires ' ' !in a && ' ' !in b && ' ' !in c
    ensures Initials(a + " " + b + " " + c) == [a[0], c[0]]
  {
    ThreeWords(a, b, c);
  }

  lemma InitialsExample()
    ensures Initials("Mary Ann Smith") == "MS"
  {
    var name := "Mary" + " " + "Ann" + " " + "Smith";
    assert name == "Mary Ann Smith";
    ThreeWordInitials("Mary", "Ann", "Smith");
    assert Initials(name) == ['M', 'S'];
  }

  datatype SkillBar = SkillBar(skill: string, level: nat)

  datatype Layout = Layout(
    initials: string,
    name: string,
    contact: seq<string>,
    skillBars: seq<SkillBar>,
    education: seq<EducationView>,
    summary: string,
    work: seq<JobView>,
    projects: Option<seq<Project>>)

  /** Email, phone and LinkedIn, each only when non-empty; GitHub is not shown. */
  function ContactItems(c: ContactInfo): (r: seq<string>)
    ensures |r| == Count(Some(c.email)) + Count(Some(c.phone)) + Count(c.linkedin)
    ensures forall x :: x in r ==> x != "" && (x == c.email || x == c.phone || (c.linkedin.Some? && x == c.linkedin.value))
    ensures c.email != "" ==> |r| > 0 && r[0] == c.email
    ensures c.phone != "" ==> r[Count(Some(c.email))] == c.phone
    ensures Truthy(c.linkedin) ==> |r| > 0 && r[|r| - 1] == c.linkedin.value
    ensures r == Truthies([Some(c.email), Some(c.phone), c.linkedin])
  {
    TruthiesOfThree(Some(c.email), Some(c.phone), c.linkedin);
    ShownIf(Some(c.email)) + ShownIf(Some(c.phone)) + ShownIf(c.linkedin)
  }

  function SkillBars(skills: seq<string>): (r: seq<SkillBar>)
    ensures |r| == |skills|
    ensures forall i :: 0 <= i < |skills| ==> r[i] == SkillBar(skills[i], SkillLevel(i))
  {
    seq(|skills|, i requires 0 <= i < |skills| => SkillBar(skills[i], SkillLevel(i)))
  }

  /** The template: the placeholder for no record, otherwise the page. */
  function Render(d: Option<ResumeData>): (r: Screen<Layout>)
    ensures r.Placeholder? <==> d.None?
    ensures r.Placeholder? ==> r.message == NoDataMessage
    ensures r.Page? ==> (r.content.projects.Some? <==> |d.value.projects| > 0)
    ensures r.Page? ==> |r.content.skillBars| == |d.value.skills| && |r.content.work| == |d.value.workExperience|
  {
    match d
    case None => Placeholder(NoDataMessage)
    case Some(r) =>
      Page(Layout(Initials(r.name), r.name, ContactItems(r.contactInfo), SkillBars(r.skills),
        EducationViews(r.education, " - "), r.summary, JobViews(r.workExperience, "Present"),
        ProjectsSection(r.projects)))
  }

  /** The GitHub address never reaches the page. */
  lemma GitHubNotShown(r: ResumeData, github: Option<string>)
    ensures Render(Some(r.(contactInfo := r.contactInfo.(github := github)))) == Render(Some(r))
  {
  }

  /** A job with no end date, or an empty one, is shown running to "Present". */
  lemma OpenEndedJob(r: ResumeData, i: nat)
    requires i < |r.workExperience| && !Truthy(r.workExperience[i].endDate)
    ensures Render(Some(r)).content.work[i].dates == r.workExperience[i].startDate + " - " + "Present"
  {
  }
}
