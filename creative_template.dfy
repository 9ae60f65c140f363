/** `CreativeTemplate`: a header with the initials, the name and one contact line, an
    "About Me" summary, the jobs and projects in one column and the education and skills in
    the other. */
module CreativeTemplate {
  import opened Wrappers
  import opened JsString
  import opened ResumeTypes
  import opened TemplateCommon

  /** The first letter of the name and of its second space-separated piece, when it has more
      than one. */
  function Initials(name: string): (r: string)
    ensures |r| <= 2
    ensures name == "" ==> r == ""
    ensures name != "" ==> |r| >= 1 && r[0] == name[0]
  {
    var pieces := Split(name, ' ');
    FirstChar(name) + (if |pieces| > 1 then FirstChar(pieces[1]) else "")
  }

  /** A one-word name gives one letter. */
  lemma OneWordInitial(name: string)
    requires name != "" && ' ' !in name
    ensures Initials(name) == [name[0]]
  {
    SplitNoSep(name, ' ');
  }

  /** Three words give the first letters of the first and of the second, not of the last. */
  lemma ThreeWordInitials(a: string, b: string, c: string)
    requires a != "" && b != ""
    requires ' ' !in a && ' ' !in b && ' ' !in c
    ensures Initials(a + " " + b + " " + c) == [a[0], b[0]]
  {
    ThreeWords(a, b, c);
  }

  /** Two words give the same initials here as in the infographic template. */
  lemma TwoWordInitials(a: string, b: string)
    requires a != "" && b != ""
    requires ' ' !in a && ' ' !in b
    ensures Initials(a + " " + b) == [a[0], b[0]]
  {
    TwoWords(a, b);
  }

  lemma InitialsExample()
    ensures Initials("Mary Ann Smith") == "MA"
  {
    var name := "Mary" + " " + "Ann" + " " + "Smith";
    assert name == "Mary Ann Smith";
    ThreeWordInitials("Mary", "Ann", "Smith");
    assert Initials(name) == ['M', 'A'];
  }

  /** The bullet the `&bull;` entity in the markup text becomes. */
  const Bullet := " \U{2022} "

  /** The text "&bull; " inside the template literal: the entity is not decoded there. */
  const LiteralBullet := "&bull; "

  /** `{email} &bull; {phone} {linkedin && `&bull; ${linkedin}`}`: the LinkedIn part only for
      a non-empty address, behind the undecoded entity. */
  function ContactLine(c: ContactInfo): (r: string)
    ensures Truthy(c.linkedin) ==> r == c.email + Bullet + c.phone + " " + LiteralBullet + c.linkedin.value
    ensures !Truthy(c.linkedin) ==> r == c.email + Bullet + c.phone + " "
  {
    c.email + Bullet + c.phone + " " + (if Truthy(c.linkedin) then LiteralBullet + c.linkedin.value else "")
  }

  /** The line always starts with the email, the bullet and the phone. */
  lemma ContactLineStart(c: ContactInfo)
    ensures var head := c.email + Bullet + c.phone + " ";
            |head| <= |ContactLine(c)| && ContactLine(c)[..|head|] == head
  {
    var head := c.email + Bullet + c.phone + " ";
    var tail := if Truthy(c.linkedin) then LiteralBullet + c.linkedin.value else "";
    assert ContactLine(c) == head + tail;
    assert (head + tail)[..|head|] == head;
  }

  datatype Layout = Layout(
    initials: string,
    name: string,
    contact: string,
    summary: string,
    work: seq<JobView>,
    projects: Option<seq<Project>>,
    education: seq<EducationView>,
    skills: seq<string>)

  /** The template: the placeholder for no record, otherwise the page. */
  function Render(d: Option<ResumeData>): (r: Screen<Layout>)
    ensures r.Placeholder? <==> d.None?
    ensures r.Placeholder? ==> r.message == NoDataMessage
    ensures r.Page? ==> (r.content.projects.Some? <==> |d.value.projects| > 0)
    ensures r.Page? ==> r.content.skills == d.value.skills && |r.content.work| == |d.value.workExperience|
  {
    match d
    case None => Placeholder(NoDataMessage)
    case Some(r) =>
      Page(Layout(Initials(r.name), r.name, ContactLine(r.contactInfo), r.summary, JobViews(r.workExperience, "Present"),
        ProjectsSection(r.projects), EducationViews(r.education, " - "), r.skills))
  }

  /** The GitHub address never reaches the page. */
  lemma GitHubNotShown(r: ResumeData, github: Option<string>)
    ensures Render(Some(r.(contactInfo := r.contactInfo.(github := github)))) == Render(Some(r))
  {
  }

  /** A job with no end date, or an empty one, is shown running to "Present". */
  lemma OpenEndedJob(r: ResumeData, i: nat)
    requires i < |r.workExperience| && !Truthy(r.workExperience[i].endDate)
    ensures Render(Some(r)).content.work[i].dates == r.workExperience[i].startDate + " - " + "Present"
  {
  }
}
