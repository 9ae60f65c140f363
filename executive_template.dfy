/** `ExecutiveTemplate`: a centred header with the name and the contact items, then the
    summary, the skills, the jobs with their descriptions as bullets, the education and the
    projects. */
module ExecutiveTemplate {
  import opened Wrappers
  import opened JsString
  import opened ResumeTypes
  import opened TemplateCommon

  /** The en dash between the dates. */
  const DateSeparator := " \U{2013} "

  /** Email, phone, LinkedIn and GitHub, each only when non-empty, in that order. */
  function ContactItems(c: ContactInfo): (r: seq<string>)
    ensures |r| == Count(Some(c.email)) + Count(Some(c.phone)) + Count(c.linkedin) + Count(c.github)
    ensures forall x :: x in r ==>
              x != "" && (x == c.email || x == c.phone || (c.linkedin.Some? && x == c.linkedin.value)
                          || (c.github.Some? && x == c.github.value))
    ensures c.email != "" ==> |r| > 0 && r[0] == c.email
    ensures Truthy(c.github) ==> |r| > 0 && r[|r| - 1] == c.github.value
    ensures c.phone != "" ==> r[Count(Some(c.email))] == c.phone
    ensures Truthy(c.linkedin) ==> r[Count(Some(c.email)) + Count(Some(c.phone))] == c.linkedin.value
    ensures r == Truthies([Some(c.email), Some(c.phone), c.linkedin, c.github])
  {
    TruthiesOfFour(Some(c.email), Some(c.phone), c.linkedin, c.github);
    ShownIf(Some(c.email)) + ShownIf(Some(c.phone)) + ShownIf(c.linkedin) + ShownIf(c.github)
  }

  datatype WorkView = WorkView(title: string, dates: string, company: string, bullets: seq<string>)

  datatype Layout = Layout(
    name: string,
    contact: seq<string>,
    summary: string,
    skills: seq<string>,
    work: seq<WorkView>,
    education: seq<EducationView>,
    projects: Option<seq<Project>>)

  function WorkViews(ws: seq<WorkExperience>): (r: seq<WorkView>)
    ensures |r| == |ws|
    ensures forall i :: 0 <= i < |ws| ==>
              r[i] == WorkView(ws[i].title, DateRange(ws[i].startDate, DateSeparator, ws[i].endDate, "Present"),
                               ws[i].company, Bullets(ws[i].description))
  {
    seq(|ws|, i requires 0 <= i < |ws| =>
      WorkView(ws[i].title, DateRange(ws[i].startDate, DateSeparator, ws[i].endDate, "Present"),
               ws[i].company, Bullets(ws[i].description)))
  }

  /** The template: the placeholder for no record, otherwise the page. */
  function Render(d: Option<ResumeData>): (r: Screen<Layout>)
    ensures r.Placeholder? <==> d.None?
    ensures r.Placeholder? ==> r.message == NoDataMessage
    ensures r.Page? ==> (r.content.projects.Some? <==> |d.value.projects| > 0)
    ensures r.Page? ==> r.content.skills == d.value.skills && |r.content.work| == |d.value.workExperience|
  {
    match d
    case None => Placeholder(NoDataMessage)
    case Some(r) =>
      Page(Layout(r.name, ContactItems(r.contactInfo), r.summary, r.skills, WorkViews(r.workExperience),
        EducationViews(r.education, DateSeparator), ProjectsSection(r.projects)))
  }

  /** Every bullet of every job is non-empty, on one line and without trailing white space. */
  lemma JobBulletsAreBullets(r: ResumeData, i: nat, k: nat)
    requires i < |r.workExperience|
    requires k < |Render(Some(r)).content.work[i].bullets|
    ensures IsBullet(Render(Some(r)).content.work[i].bullets[k])
    ensures |Render(Some(r)).content.work[i].bullets| <= |Split(r.workExperience[i].description, '\n')|
  {
    DescriptionBulletsAreBullets(r.workExperience[i].description);
  }

  /** A job described as a "- " list shows exactly those items as its bullets. */
  lemma DashedDescriptionShown(r: ResumeData, i: nat, items: seq<string>)
    requires i < |r.workExperience|
    requires items != [] && forall k :: 0 <= k < |items| ==> IsCleanBullet(items[k])
    requires r.workExperience[i].description == Join(DashLines(items), "\n")
    ensures Render(Some(r)).content.work[i].bullets == items
  {
    BulletListRoundTrip(items);
  }

  /** A job with no end date, or an empty one, is shown running to "Present". */
  lemma OpenEndedJob(r: ResumeData, i: nat)
    requires i < |r.workExperience| && !Truthy(r.workExperience[i].endDate)
    ensures Render(Some(r)).content.work[i].dates == r.workExperience[i].startDate + DateSeparator + "Present"
  {
  }
}
