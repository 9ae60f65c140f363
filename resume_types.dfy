/** The structured resume record. Its shape is the output schema of the extraction flow,
    where only `linkedin`, `github` and a work entry's `endDate` are optional; `isCurrent`
    is the one field the application adds to a work entry. */
module ResumeTypes {
  import opened Wrappers

  datatype ContactInfo = ContactInfo(
    email: string,
    phone: string,
    linkedin: Option<string>,
    github: Option<string>)

  /** `isCurrent` is `None` when the key is absent, as in every record the extraction
      flow returns. */
  datatype WorkExperience = WorkExperience(
    title: string,
    company: string,
    startDate: string,
    endDate: Option<string>,
    description: string,
    isCurrent: Option<bool>)

  /** An education entry has no notion of "current": its end date is required. */
  datatype Education = Education(
    institution: string,
    degree: string,
    startDate: string,
    endDate: string)

  datatype Project = Project(name: string, description: string)

  datatype ResumeData = ResumeData(
    name: string,
    contactInfo: ContactInfo,
    summary: string,
    skills: seq<string>,
    workExperience: seq<WorkExperience>,
    education: seq<Education>,
    projects: seq<Project>)

  /** JavaScript truthiness of the optional `isCurrent` flag. */
  predicate IsCurrentFlag(w: WorkExperience) {
    w.isCurrent == Some(true)
  }
}
