/** The builder page's state and what each of its handlers does to it, as functions from the
    state before to the state after. An asynchronous handler is one step: every answer it
    awaits (a file read, an extraction, a score, a suggestion) is a parameter. The page's
    `useEffect` on `resumeData` runs inside the step that changes `resumeData`. */
module SessionSpec {
  import opened Wrappers
  import opened JsString
  import opened ResumeTypes
  import opened ExtractResumeData
  import opened CalculateAtsScore
  import opened ResumeFormatter
  import opened BuildPage

  datatype SessionState = SessionState(
    resumeData: Option<ResumeData>,
    currentResumeText: string,
    jobRole: string,
    aiSuggestions: seq<string>,
    selectedTemplate: Template,
    isLoadingExtract: bool,
    isLoadingKeywords: bool,
    isLoadingImprovements: bool,
    isLoadingReparse: bool,
    isExportingPdf: bool,
    atsScore: Option<real>,
    atsScoreJustification: Option<string>,
    isLoadingAtsScore: bool,
    manualFormData: ResumeData,
    skillsInput: string,
    jobRoleForSuggestions: string,
    isSuggestingFor: Option<string>)

  /** The page as first rendered. */
  const InitialState := SessionState(
    None, "", "", [], AvailableTemplates[0], false, false, false, false, false,
    None, None, false, InitialForm, "", "", None)

  /** No handler is half-way through: every loading flag is down. */
  predicate Quiescent(s: SessionState) {
    && !s.isLoadingExtract && !s.isLoadingKeywords && !s.isLoadingImprovements
    && !s.isLoadingReparse && !s.isExportingPdf && !s.isLoadingAtsScore
    && s.isSuggestingFor.None?
  }

  /** What holds at every point of the page's life: a score is shown only together with
      its justification, only for a loaded resume with a name, and only as a whole number in
      [0, 100]. */
  predicate Consistent(s: SessionState) {
    && (s.atsScore.Some? <==> s.atsScoreJustification.Some?)
    && (s.atsScore.Some? ==>
          && s.resumeData.Some? && s.resumeData.value.name != ""
          && ScoreInRange(s.atsScore.value) && s.atsScore.value == s.atsScore.value.Floor as real)
  }

  /** The selected template is one of the catalogue's. */
  predicate TemplateListed(s: SessionState) {
    s.selectedTemplate in AvailableTemplates
  }

  /** What holds between two steps. */
  predicate Valid(s: SessionState) {
    Quiescent(s) && Consistent(s) && TemplateListed(s)
  }

  lemma InitialStateValid()
    ensures Valid(InitialState)
  {
  }

  // ---------------------------------------------------------------------------------------
  // `resumeData` and its effect

  /** `triggerAtsCalculation(data)`: no name clears the score without a request; otherwise
      the answer replaces the score and justification, and a failure clears both. */
  function ScoreStep(s: SessionState, data: ResumeData, answer: Option<AtsScoreOutput>): (r: SessionState)
    requires s.resumeData == Some(data)
    ensures Consistent(r)
    ensures Quiescent(s) ==> Quiescent(r)
    ensures r.(atsScore := s.atsScore, atsScoreJustification := s.atsScoreJustification,
               isLoadingAtsScore := s.isLoadingAtsScore) == s
    ensures data.name == "" ==> r.atsScore.None? && r.atsScoreJustification.None?
    ensures data.name != "" && ScoreFlowResult(answer).Ok? ==>
              && r.atsScore == Some(ScoreFlowResult(answer).value.atsScore)
              && r.atsScoreJustification == Some(ScoreFlowResult(answer).value.justification)
    ensures ScoreFlowResult(answer).Err? ==> r.atsScore.None? && r.atsScoreJustification.None?
  {
    if data.name == "" then s.(atsScore := None, atsScoreJustification := None)
    else
      match ScoreFlowResult(answer)
      case Ok(out) =>
        s.(atsScore := Some(out.atsScore), atsScoreJustification := Some(out.justification), isLoadingAtsScore := false)
      case Err(_) => s.(atsScore := None, atsScoreJustification := None, isLoadingAtsScore := false)
  }

  /** The request `triggerAtsCalculation` sends, if it sends one. */
  function ScoreRequestFor(data: ResumeData): (r: Option<AtsScoreInput>)
    ensures r.Some? <==> data.name != ""
    ensures r.Some? ==> r.value == ScoreRequest(data)
  {
    if data.name == "" then None else Some(ScoreRequest(data))
  }

  /** The effect on `resumeData`: a record is rendered to text and scored; `null` empties the
      text and clears the score. */
  function Effect(s: SessionState, answer: Option<AtsScoreOutput>): (r: SessionState)
    ensures Consistent(r)
    ensures Quiescent(s) ==> Quiescent(r)
    ensures r.(currentResumeText := s.currentResumeText, atsScore := s.atsScore,
               atsScoreJustification := s.atsScoreJustification, isLoadingAtsScore := s.isLoadingAtsScore) == s
    ensures s.resumeData.Some? ==> r.currentResumeText == Format(s.resumeData)
    ensures s.resumeData.None? ==>
              r == s.(currentResumeText := "", atsScore := None, atsScoreJustification := None)
  {
    match s.resumeData
    case None =>
      s.(currentResumeText := "", atsScore := None, atsScoreJustification := None)
    case Some(data) =>
      ScoreStep(s.(currentResumeText := Format(Some(data))), data, answer)
  }

  /** `setResumeData(d)` followed by the effect, which React runs only when the value
      changed: setting `null` when it is already `null` does nothing. */
  function SetResumeData(s: SessionState, d: Option<ResumeData>, answer: Option<AtsScoreOutput>): (r: SessionState)
    requires Consistent(s)
    ensures Consistent(r)
    ensures Quiescent(s) ==> Quiescent(r)
    ensures r.(resumeData := s.resumeData, currentResumeText := s.currentResumeText, atsScore := s.atsScore,
               atsScoreJustification := s.atsScoreJustification, isLoadingAtsScore := s.isLoadingAtsScore) == s
    ensures r.resumeData == d
    ensures d.Some? ==> r.currentResumeText == Format(d)
    ensures d.None? && s.resumeData.Some? ==> r.currentResumeText == "" && r.atsScore.None?
    ensures d.None? && s.resumeData.None? ==> r == s
  {
    if s.resumeData.None? && d.None? then s else Effect(s.(resumeData := d), answer)
  }

  // ---------------------------------------------------------------------------------------
  // Input: upload and the manual form

  const PdfMime := "application/pdf"
  const DocxMime := "application/vnd.openxmlformats-officedocument.wordprocessingml.document"

  /** A chosen file: its MIME type and what reading it yields (a data URI for a PDF, the raw
      text for a DOCX) or the error reading it raises. */
  datatype UploadedFile = UploadedFile(mimeType: string, content: Result<string>)

  /** The extraction input built from a file's content. */
  function UploadInput(file: UploadedFile, content: string): (r: ExtractInput)
    requires file.mimeType == PdfMime || file.mimeType == DocxMime
    ensures file.mimeType == PdfMime ==> r == ExtractInput(Some(content), None)
    ensures file.mimeType == DocxMime ==> r == ExtractInput(None, Some(content))
  {
    if file.mimeType == PdfMime then ExtractInput(Some(content), None) else ExtractInput(None, Some(content))
  }

  /** `handleFileUpload`: no file or an unsupported type changes nothing; otherwise the old
      record and the manual form are cleared, and the normalised extraction, if it succeeds,
      becomes the record. */
  function Upload(s: SessionState, file: Option<UploadedFile>, extraction: Result<ResumeData>,
                  answer: Option<AtsScoreOutput>): (r: SessionState)
    requires Valid(s)
    ensures Valid(r)
    ensures file.None? || (file.value.mimeType != PdfMime && file.value.mimeType != DocxMime) ==> r == s
    ensures file.Some? && (file.value.mimeType == PdfMime || file.value.mimeType == DocxMime) ==>
              && r.manualFormData == InitialForm && r.skillsInput == ""
              && r.resumeData == UploadResult(file.value, extraction)
  {
    if file.None? then s
    else if file.value.mimeType != PdfMime && file.value.mimeType != DocxMime then s
    else
      var cleared := SetResumeData(s.(isLoadingExtract := true), None, answer);
      var s1 := cleared.(manualFormData := InitialForm, skillsInput := "");
      SetResumeData(s1, UploadResult(file.value, extraction), answer).(isLoadingExtract := false)
  }

  /** The record an accepted upload ends with: the normalised extraction, or `null` when
      reading the file or extracting from it fails. */
  function UploadResult(file: UploadedFile, extraction: Result<ResumeData>): (r: Option<ResumeData>)
    requires file.mimeType == PdfMime || file.mimeType == DocxMime
    ensures r.Some? ==> file.content.Ok? && ExtractResumeData.ExtractResumeData(UploadInput(file, file.content.value), extraction).Ok?
    ensures r.Some? ==> exists d :: extraction == Ok(d) && r.value == NormalizeExtracted(d)
    ensures file.content.Ok? && IsValidInput(UploadInput(file, file.content.value)) && extraction.Ok? ==>
              r == Some(NormalizeExtracted(extraction.value))
    ensures file.content.Err? || !IsValidInput(UploadInput(file, file.content.value)) || extraction.Err? ==>
              r.None?
  {
    match file.content
    case Err(_) => None
    case Ok(content) =>
      match ExtractResumeData.ExtractResumeData(UploadInput(file, content), extraction)
      case Err(_) => None
      case Ok(d) => Some(NormalizeExtracted(d))
  }

  /** An empty PDF data URI or an empty DOCX text never reaches the model: the extraction
      input is refused and the upload ends with no record. */
  lemma EmptyUploadRejected(file: UploadedFile, extraction: Result<ResumeData>)
    requires file.mimeType == PdfMime || file.mimeType == DocxMime
    requires file.content == Ok("")
    ensures UploadResult(file, extraction).None?
  {
    var input := UploadInput(file, "");
    assert !IsValidInput(input);
  }

  /** A failed upload leaves no stale score behind. */
  lemma FailedUploadClearsScore(s: SessionState, file: UploadedFile, extraction: Result<ResumeData>,
                                answer: Option<AtsScoreOutput>)
    requires Valid(s)
    requires file.mimeType == PdfMime || file.mimeType == DocxMime
    requires UploadResult(file, extraction).None?
    ensures var r := Upload(s, Some(file), extraction, answer);
            r.resumeData.None? && r.atsScore.None? && r.atsScoreJustification.None?
  {
  }

  /** `handleManualFormChange`. */
  function FormChange(s: SessionState, e: FormEdit): (r: SessionState)
    requires Consistent(s) && EditInRange(s.manualFormData, e)
    ensures Consistent(r)
    ensures r == s.(manualFormData := ApplyEdit(s.manualFormData, e))
  {
    s.(manualFormData := ApplyEdit(s.manualFormData, e))
  }

  /** `parseSkillsInput`. */
  function ParseSkillsStep(s: SessionState): (r: SessionState)
    requires Consistent(s)
    ensures Consistent(r)
    ensures r == s.(manualFormData := s.manualFormData.(skills := ParseSkillsInput(s.skillsInput)))
  {
    FormChange(s, SetSkills(ParseSkillsInput(s.skillsInput)))
  }

  /** `handleFormSubmit`: the skills box is parsed into the form, and the submitted record
      (skills from the box, current jobs ending "Present") becomes the resume. Clearing and
      setting `resumeData` in one synchronous handler is one update, so the effect runs once,
      for the submitted record. */
  function FormSubmit(s: SessionState, answer: Option<AtsScoreOutput>): (r: SessionState)
    requires Valid(s)
    ensures Valid(r)
    ensures r.resumeData == Some(SubmitData(s.manualFormData, s.skillsInput))
    ensures r.currentResumeText == Format(r.resumeData)
    ensures r.manualFormData == s.manualFormData.(skills := ParseSkillsInput(s.skillsInput))
    ensures r.manualFormData.skills == r.resumeData.value.skills
  {
    var submitted := SubmitData(s.manualFormData, s.skillsInput);
    var s1 := ParseSkillsStep(s).(isLoadingExtract := true);
    Effect(s1.(resumeData := Some(submitted)), answer).(isLoadingExtract := false)
  }

  /** Whether the entry a description suggestion is for exists in the form. */
  predicate SuggestionTargetExists(s: SessionState, f: FieldType, index: Option<nat>) {
    index.Some? ==>
      && (f == ExperienceDescription ==> index.value < |s.manualFormData.workExperience|)
      && (f == ProjectDescriptionField ==> index.value < |s.manualFormData.projects|)
  }

  /** The form edit a non-empty suggestion makes: the summary, the skills split from the
      suggestion, or the description of the addressed entry; none for a description request
      without an index. */
  function SuggestionEdit(d: ResumeData, f: FieldType, index: Option<nat>, text: string): (r: Option<FormEdit>)
    requires index.Some? ==>
               && (f == ExperienceDescription ==> index.value < |d.workExperience|)
               && (f == ProjectDescriptionField ==> index.value < |d.projects|)
    ensures r.Some? ==> EditInRange(d, r.value)
  {
    match f
    case SummaryField => Some(SetSummary(text))
    case SkillsField => Some(SetSkills(SplitSkills(text)))
    case ExperienceDescription =>
      if index.Some? then Some(SetWorkField(index.value, WorkDescription, text)) else None
    case ProjectDescriptionField =>
      if index.Some? then Some(SetProjectField(index.value, ProjectDescription, text)) else None
  }

  /** A non-empty suggestion goes into the field it was asked for; a skills suggestion also
      replaces the skills box. */
  function ApplySuggestion(s: SessionState, f: FieldType, index: Option<nat>, text: string): (r: SessionState)
    requires Consistent(s) && SuggestionTargetExists(s, f, index)
    ensures Consistent(r)
    ensures r == s.(manualFormData := r.manualFormData, skillsInput := r.skillsInput)
    ensures r.skillsInput != s.skillsInput ==> f == SkillsField && r.skillsInput == text
  {
    var s1 := if f == SkillsField then s.(skillsInput := text) else s;
    match SuggestionEdit(s.manualFormData, f, index, text)
    case None => s1
    case Some(e) => FormChange(s1, e)
  }

  /** `handleAiSuggestContent`: without a job role nothing happens; a non-empty suggestion
      goes into the field it was asked for (for skills, into the box and, parsed, into the
      form); an empty or failed suggestion changes nothing. */
  function AiSuggest(s: SessionState, f: FieldType, index: Option<nat>, answer: Result<string>): (r: SessionState)
    requires Valid(s) && SuggestionTargetExists(s, f, index)
    ensures Valid(r)
    ensures s.jobRoleForSuggestions == "" || answer.Err? || answer.value == "" ==> r == s
    ensures r.(manualFormData := s.manualFormData, skillsInput := s.skillsInput) == s
    ensures r.skillsInput != s.skillsInput ==> f == SkillsField && answer == Ok(r.skillsInput)
  {
    if s.jobRoleForSuggestions == "" then s
    else
      var s0 := s.(isSuggestingFor := Some(SuggestionKey(f, index)));
      var s1 := match answer
        case Err(_) => s0
        case Ok(text) => if text == "" then s0 else ApplySuggestion(s0, f, index, text);
      s1.(isSuggestingFor := None)
  }

  /** A summary suggestion replaces the summary and nothing else, whatever the index. */
  lemma SuggestedSummary(s: SessionState, index: Option<nat>, text: string)
    requires Valid(s) && s.jobRoleForSuggestions != "" && text != ""
    ensures AiSuggest(s, SummaryField, index, Ok(text)) == s.(manualFormData := s.manualFormData.(summary := text))
  {
    var s0 := s.(isSuggestingFor := Some(SuggestionKey(SummaryField, index)));
    assert ApplySuggestion(s0, SummaryField, index, text) == FormChange(s0, SetSummary(text));
  }

  /** A skills suggestion fills the skills box with the text and the form's skills with the
      text split at commas, trimmed and without empty pieces. */
  lemma SuggestedSkills(s: SessionState, index: Option<nat>, text: string)
    requires Valid(s) && s.jobRoleForSuggestions != "" && text != ""
    ensures AiSuggest(s, SkillsField, index, Ok(text))
            == s.(skillsInput := text, manualFormData := s.manualFormData.(skills := SplitSkills(text)))
  {
    var s0 := s.(isSuggestingFor := Some(SuggestionKey(SkillsField, index)));
    var e := SetSkills(SplitSkills(text));
    assert SuggestionEdit(s0.manualFormData, SkillsField, index, text) == Some(e);
    assert ApplySuggestion(s0, SkillsField, index, text) == FormChange(s0.(skillsInput := text), e);
  }

  /** A description suggestion for an existing job replaces that job's description only. */
  lemma SuggestedWorkDescription(s: SessionState, i: nat, text: string)
    requires Valid(s) && s.jobRoleForSuggestions != "" && text != ""
    requires i < |s.manualFormData.workExperience|
    ensures var ws := s.manualFormData.workExperience;
            AiSuggest(s, ExperienceDescription, Some(i), Ok(text))
            == s.(manualFormData := s.manualFormData.(workExperience := ws[i := ws[i].(description := text)]))
  {
    var s0 := s.(isSuggestingFor := Some(SuggestionKey(ExperienceDescription, Some(i))));
    var e := SetWorkField(i, WorkDescription, text);
    assert SuggestionEdit(s0.manualFormData, ExperienceDescription, Some(i), text) == Some(e);
    assert ApplySuggestion(s0, ExperienceDescription, Some(i), text) == FormChange(s0, e);
  }

  /** A description suggestion for an existing project replaces that project's description
      only. */
  lemma SuggestedProjectDescription(s: SessionState, i: nat, text: string)
    requires Valid(s) && s.jobRoleForSuggestions != "" && text != ""
    requires i < |s.manualFormData.projects|
    ensures var ps := s.manualFormData.projects;
            AiSuggest(s, ProjectDescriptionField, Some(i), Ok(text))
            == s.(manualFormData := s.manualFormData.(projects := ps[i := ps[i].(description := text)]))
  {
    var s0 := s.(isSuggestingFor := Some(SuggestionKey(ProjectDescriptionField, Some(i))));
    var e := SetProjectField(i, ProjectDescription, text);
    assert SuggestionEdit(s0.manualFormData, ProjectDescriptionField, Some(i), text) == Some(e);
    assert ApplySuggestion(s0, ProjectDescriptionField, Some(i), text) == FormChange(s0, e);
  }

  /** A description suggestion without an index has nowhere to go and changes nothing. */
  lemma DescriptionWithoutIndexIgnored(s: SessionState, f: FieldType, answer: Result<string>)
    requires Valid(s) && (f == ExperienceDescription || f == ProjectDescriptionField)
    ensures AiSuggest(s, f, None, answer) == s
  {
    var s0 := s.(isSuggestingFor := Some(SuggestionKey(f, None)));
    if answer.Ok? && answer.value != "" && s.jobRoleForSuggestions != "" {
      assert SuggestionEdit(s0.manualFormData, f, None, answer.value).None?;
      assert ApplySuggestion(s0, f, None, answer.value) == s0;
    }
  }

  // ---------------------------------------------------------------------------------------
  // Enhancing the text

  /** `handleAddAtsKeywords`: needs text and a job role; the answer replaces the text only. */
  function AddKeywords(s: SessionState, answer: Result<string>): (r: SessionState)
    requires Valid(s)
    ensures Valid(r)
    ensures r.resumeData == s.resumeData && r.atsScore == s.atsScore
    ensures s.currentResumeText == "" || s.jobRole == "" || answer.Err? ==> r == s
    ensures answer.Ok? && s.currentResumeText != "" && s.jobRole != "" ==>
              r == s.(currentResumeText := answer.value)
  {
    if s.currentResumeText == "" || s.jobRole == "" then s
    else match answer
      case Ok(enhanced) => s.(currentResumeText := enhanced)
      case Err(_) => s
  }

  datatype Improvements = Improvements(improvedResumeText: string, suggestions: seq<string>)

  /** `handleSuggestImprovements`: needs text; the answer replaces the text and the list of
      suggestions. */
  function SuggestImprovements(s: SessionState, answer: Result<Improvements>): (r: SessionState)
    requires Valid(s)
    ensures Valid(r)
    ensures r.resumeData == s.resumeData && r.atsScore == s.atsScore
    ensures s.currentResumeText == "" || answer.Err? ==> r == s
    ensures answer.Ok? && s.currentResumeText != "" ==>
              r == s.(currentResumeText := answer.value.improvedResumeText, aiSuggestions := answer.value.suggestions)
  {
    if s.currentResumeText == "" then s
    else match answer
      case Ok(imp) => s.(currentResumeText := imp.improvedResumeText, aiSuggestions := imp.suggestions)
      case Err(_) => s
  }

  /** `handleApplyTextEdits`: the text is extracted again; on success the normalised record
      replaces the resume (and the effect re-renders and re-scores it), on failure nothing
      changes. */
  function ApplyTextEdits(s: SessionState, extraction: Result<ResumeData>, answer: Option<AtsScoreOutput>): (r: SessionState)
    requires Valid(s)
    ensures Valid(r)
    ensures s.currentResumeText == "" || extraction.Err? ==> r == s
    ensures s.currentResumeText != "" && extraction.Ok? ==>
              && r.resumeData == Some(NormalizeExtracted(extraction.value))
              && r.currentResumeText == Format(r.resumeData)
  {
    if s.currentResumeText == "" then s
    else
      var input := ExtractInput(None, Some(s.currentResumeText));
      assert IsValidInput(input);
      var s0 := s.(isLoadingReparse := true);
      var s1 := match ExtractResumeData.ExtractResumeData(input, extraction)
        case Ok(d) => SetResumeData(s0, Some(NormalizeExtracted(d)), answer)
        case Err(_) => s0;
      s1.(isLoadingReparse := false)
  }

  // ---------------------------------------------------------------------------------------
  // Template and export

  /** The picker's `onValueChange`: an unknown id keeps the current template. */
  function SelectTemplate(s: SessionState, id: string): (r: SessionState)
    requires Valid(s)
    ensures Valid(r)
    ensures FindTemplate(AvailableTemplates, id).None? ==> r == s
    ensures FindTemplate(AvailableTemplates, id).Some? ==> r == s.(selectedTemplate := FindTemplate(AvailableTemplates, id).value)
  {
    match FindTemplate(AvailableTemplates, id)
    case Some(t) => s.(selectedTemplate := t)
    case None => s
  }

  /** The name `handleExportPdf` saves under, or none when there is no record. */
  function ExportName(s: SessionState): (r: Option<string>)
    ensures r.None? <==> s.resumeData.None?
    ensures r.Some? ==> r.value == ExportFilename(s.resumeData.value.name, s.selectedTemplate.id)
  {
    match s.resumeData
    case None => None
    case Some(d) => Some(ExportFilename(d.name, s.selectedTemplate.id))
  }

  /** Choosing any catalogue template by its id selects it. */
  lemma SelectListedTemplate(s: SessionState, t: Template)
    requires Valid(s) && t in AvailableTemplates
    ensures SelectTemplate(s, t.id).selectedTemplate == t
  {
    CatalogueIdsDistinct();
    FindListedTemplate(AvailableTemplates, t);
  }

  // ---------------------------------------------------------------------------------------
  // Properties across steps

  /** Adding keywords and suggesting improvements, in any outcome, never alter the record,
      its score or its justification. */
  lemma EnhanceKeepsRecord(s: SessionState, keywords: Result<string>, improvements: Result<Improvements>)
    requires Valid(s)
    ensures var r := SuggestImprovements(AddKeywords(s, keywords), improvements);
            r.resumeData == s.resumeData && r.atsScore == s.atsScore
            && r.atsScoreJustification == s.atsScoreJustification
  {
  }

  /** Submitting the form twice in a row gives the same record: the first submit leaves
      the parsed skills in the form, which the second submit parses to the same list. */
  lemma FormSubmitStable(s: SessionState, a1: Option<AtsScoreOutput>, a2: Option<AtsScoreOutput>)
    requires Valid(s)
    ensures FormSubmit(FormSubmit(s, a1), a2).resumeData == FormSubmit(s, a1).resumeData
  {
    var s1 := FormSubmit(s, a1);
    var w := s.manualFormData.workExperience;
    var w1 := s1.manualFormData.workExperience;
    assert w1 == w;
    var sub1 := SubmitData(s.manualFormData, s.skillsInput);
    var sub2 := SubmitData(s1.manualFormData, s1.skillsInput);
    assert sub2.workExperience == sub1.workExperience;
    assert sub2.skills == sub1.skills;
  }
}
