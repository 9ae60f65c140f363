/** `TechnicalTemplate`: a header with the name and the contact items, a profile, the jobs
    with their descriptions as bullets, the projects, the skills and the education. */
module TechnicalTemplate {
  import opened Wrappers
  import opened JsString
  import opened ResumeTypes
  import opened TemplateCommon
  import ExecutiveTemplate

  /** The "// " the later items are printed after. */
  const ItemPrefix := "// "

  /** Email and phone always, even when empty; LinkedIn only when non-empty; no GitHub.
      Every item after the email carries the "// " printed before it. */
  function ContactItems(c: ContactInfo): (r: seq<string>)
    ensures |r| == 2 || |r| == 3
    ensures r[0] == c.email && r[1] == ItemPrefix + c.phone
    ensures |r| == 3 <==> Truthy(c.linkedin)
    ensures |r| == 3 ==> r[2] == ItemPrefix + c.linkedin.value
  {
    [c.email, ItemPrefix + c.phone] + (if Truthy(c.linkedin) then [ItemPrefix + c.linkedin.value] else [])
  }

  datatype WorkView = WorkView(title: string, company: string, dates: string, bullets: seq<string>)

  datatype Layout = Layout(
    name: string,
    contact: seq<string>,
    summary: string,
    work: seq<WorkView>,
    projects: Option<seq<Project>>,
    skills: seq<string>,
    education: seq<EducationView>)

  /** Open-ended jobs run to "Current" here, not to "Present". */
  function WorkViews(ws: seq<WorkExperience>): (r: seq<WorkView>)
    ensures |r| == |ws|
    ensures forall i :: 0 <= i < |ws| ==>
              r[i] == WorkView(ws[i].title, ws[i].company,
                               DateRange(ws[i].startDate, " - ", ws[i].endDate, "Current"), Bullets(ws[i].description))
  {
    seq(|ws|, i requires 0 <= i < |ws| =>
      WorkView(ws[i].title, ws[i].company, DateRange(ws[i].startDate, " - ", ws[i].endDate, "Current"),
               Bullets(ws[i].description)))
  }

  /** The template: the placeholder for no record, otherwise the page. */
  function Render(d: Option<ResumeData>): (r: Screen<Layout>)
    ensures r.Placeholder? <==> d.None?
    ensures r.Placeholder? ==> r.message == NoDataMessage
    ensures r.Page? ==> (r.content.projects.Some? <==> |d.value.projects| > 0)
    ensures r.Page? ==> r.content.skills == d.value.skills && |r.content.work| == |d.value.workExperience|
  {
    match d
    case None => Placeholder(NoDataMessage)
    case Some(r) =>
      Page(Layout(r.name, ContactItems(r.contactInfo), r.summary, WorkViews(r.workExperience),
        ProjectsSection(r.projects), r.skills, EducationViews(r.education, " - ")))
  }

  /** A job with no end date, or an empty one, is shown running to "Current". */
  lemma OpenEndedJob(r: ResumeData, i: nat)
    requires i < |r.workExperience| && !Truthy(r.workExperience[i].endDate)
    ensures Render(Some(r)).content.work[i].dates == r.workExperience[i].startDate + " - " + "Current"
  {
    assert Render(Some(r)).content.work == WorkViews(r.workExperience);
    OpenEndedView(r.workExperience, i);
  }

  lemma OpenEndedView(ws: seq<WorkExperience>, i: nat)
    requires i < |ws| && !Truthy(ws[i].endDate)
    ensures WorkViews(ws)[i].dates == ws[i].startDate + " - " + "Current"
  {
    assert WorkViews(ws)[i].dates == DateRange(ws[i].startDate, " - ", ws[i].endDate, "Current");
  }

  /** The GitHub address never reaches the page. */
  lemma GitHubNotShown(r: ResumeData, github: Option<string>)
    ensures Render(Some(r.(contactInfo := r.contactInfo.(github := github)))) == Render(Some(r))
  {
  }

  /** This template and the executive one show the same bullets for every job. */
  lemma SameBulletsAsExecutive(r: ResumeData, i: nat)
    requires i < |r.workExperience|
    ensures Render(Some(r)).content.work[i].bullets == ExecutiveTemplate.Render(Some(r)).content.work[i].bullets
  {
  }
}
