/** The resume builder page as an object: one field per piece of page state and one method
    per handler. Each method does what the handler does, setter by setter, and is proved to
    leave the state the corresponding step of `SessionSpec` describes. */
module BuilderSession {
  import opened Wrappers
  import opened ResumeTypes
  import opened ExtractResumeData
  import opened CalculateAtsScore
  import opened ResumeFormatter
  import opened BuildPage
  import opened SessionSpec

  class Session {
    var resumeData: Option<ResumeData>
    var currentResumeText: string
    var jobRole: string
    var aiSuggestions: seq<string>
    var selectedTemplate: Template
    var isLoadingExtract: bool
    var isLoadingKeywords: bool
    var isLoadingImprovements: bool
    var isLoadingReparse: bool
    var isExportingPdf: bool
    var atsScore: Option<real>
    var atsScoreJustification: Option<string>
    var isLoadingAtsScore: bool
    var manualFormData: ResumeData
    var skillsInput: string
    var jobRoleForSuggestions: string
    var isSuggestingFor: Option<string>

    function State(): SessionState
      reads this
    {
      SessionState(resumeData, currentResumeText, jobRole, aiSuggestions, selectedTemplate,
        isLoadingExtract, isLoadingKeywords, isLoadingImprovements, isLoadingReparse, isExportingPdf,
        atsScore, atsScoreJustification, isLoadingAtsScore, manualFormData, skillsInput,
        jobRoleForSuggestions, isSuggestingFor)
    }

    predicate Valid()
      reads this
    {
      SessionSpec.Valid(State())
    }

    /** The page's initial `useState` values. */
    constructor()
      ensures State() == InitialState
      ensures Valid()
    {
      resumeData := None;
      currentResumeText := "";
      jobRole := "";
      aiSuggestions := [];
      selectedTemplate := AvailableTemplates[0];
      isLoadingExtract := false;
      isLoadingKeywords := false;
      isLoadingImprovements := false;
      isLoadingReparse := false;
      isExportingPdf := false;
      atsScore := None;
      atsScoreJustification := None;
      isLoadingAtsScore := false;
      manualFormData := InitialForm;
      skillsInput := "";
      jobRoleForSuggestions := "";
      isSuggestingFor := None;
    }

    /** `triggerAtsCalculation(data)`; returns the request it sends, if any. */
    method TriggerAtsCalculation(data: ResumeData, answer: Option<AtsScoreOutput>) returns (request: Option<AtsScoreInput>)
      requires resumeData == Some(data)
      modifies this
      ensures State() == ScoreStep(old(State()), data, answer)
      ensures request == ScoreRequestFor(data)
    {
      if data.name == "" {
        SetScore(None, None);
        return None;
      }
      SetLoadingAtsScore(true);
      request := ScoreRequestFor(data);  // the fields of `data`, jobs without `isCurrent`
      var result := CalculateAtsScoreFlow(answer);
      match result {
        case Ok(scoreData) =>
          SetScore(Some(scoreData.atsScore), Some(scoreData.justification));
        case Err(_) =>
          SetScore(None, None);
      }
      SetLoadingAtsScore(false);
    }

    /** `setAtsScore(score)` and `setAtsScoreJustification(justification)`. */
    method SetScore(score: Option<real>, justification: Option<string>)
      modifies this
      ensures State() == old(State()).(atsScore := score, atsScoreJustification := justification)
    {
      atsScore := score;
      atsScoreJustification := justification;
    }

    /** `setIsLoadingAtsScore(b)`. */
    method SetLoadingAtsScore(b: bool)
      modifies this
      ensures State() == old(State()).(isLoadingAtsScore := b)
    {
      isLoadingAtsScore := b;
    }

    /** `setIsLoadingExtract(b)`. */
    method SetLoadingExtract(b: bool)
      modifies this
      ensures State() == old(State()).(isLoadingExtract := b)
    {
      isLoadingExtract := b;
    }

    /** The effect on `resumeData`. */
    method ResumeDataEffect(answer: Option<AtsScoreOutput>) returns (request: Option<AtsScoreInput>)
      modifies this
      ensures State() == Effect(old(State()), answer)
      ensures request == if old(resumeData).Some? then ScoreRequestFor(old(resumeData).value) else None
    {
      ghost var s0 := State();
      if resumeData.Some? {
        var data := resumeData.value;
        var text := FormatResumeDataToText(resumeData);
        currentResumeText := text;
        ghost var s1 := State();
        assert s1 == s0.(currentResumeText := Format(Some(data)));
        request := TriggerAtsCalculation(data, answer);
        assert State() == ScoreStep(s1, data, answer);
        assert Effect(s0, answer) == ScoreStep(s1, data, answer);
      } else {
        currentResumeText := "";
        SetScore(None, None);
        request := None;
      }
    }

    /** `setResumeData(d)`, with the effect when the value changes. */
    method SetResumeData(d: Option<ResumeData>, answer: Option<AtsScoreOutput>) returns (request: Option<AtsScoreInput>)
      requires Consistent(State())
      modifies this
      ensures State() == SessionSpec.SetResumeData(old(State()), d, answer)
      ensures request == if d.Some? then ScoreRequestFor(d.value) else None
    {
      var changed := !(resumeData.None? && d.None?);
      resumeData := d;
      if changed {
        request := ResumeDataEffect(answer);
      } else {
        request := None;
      }
    }

    /** `handleFileUpload`, given the chosen file (if any), the extraction model's answer and
        the score model's answer. */
    method HandleFileUpload(file: Option<UploadedFile>, extraction: Result<ResumeData>, answer: Option<AtsScoreOutput>)
      returns (request: Option<AtsScoreInput>)
      requires Valid()
      modifies this
      ensures State() == Upload(old(State()), file, extraction, answer)
      ensures Valid()
    {
      request := None;
      if file.None? {
        return;
      }
      var f := file.value;
      if f.mimeType != PdfMime && f.mimeType != DocxMime {
        return;
      }
      request := AcceptUpload(f, extraction, answer);
    }

    /** The accepted-file path of `handleFileUpload`: clear, extract, set the outcome. */
    method AcceptUpload(f: UploadedFile, extraction: Result<ResumeData>, answer: Option<AtsScoreOutput>)
      returns (request: Option<AtsScoreInput>)
      requires Valid() && (f.mimeType == PdfMime || f.mimeType == DocxMime)
      modifies this
      ensures State() == Upload(old(State()), Some(f), extraction, answer)
    {
      ClearForUpload(answer);
      ghost var s1 := State();
      var outcome := ReadAndExtract(f, extraction);
      // On success the normalised record is set; on failure `null` is set again.
      request := SetResumeData(outcome, answer);
      SetLoadingExtract(false);
    }

    /** The start of an accepted upload: the loading flag on, the record set to `null`, the
        form and the skills text reset. */
    method ClearForUpload(answer: Option<AtsScoreOutput>)
      requires Consistent(State())
      modifies this
      ensures State() == SessionSpec.SetResumeData(old(State()).(isLoadingExtract := true), None, answer)
                         .(manualFormData := InitialForm, skillsInput := "")
    {
      SetLoadingExtract(true);
      var _ := SetResumeData(None, answer);
      ResetForm();
    }

    /** `setManualFormData(initialManualFormState)` and `setSkillsInput('')`. */
    method ResetForm()
      modifies this
      ensures State() == old(State()).(manualFormData := InitialForm, skillsInput := "")
    {
      manualFormData := InitialForm;
      skillsInput := "";
    }

    /** The `try` block of `handleFileUpload`: read the file, extract from its content and
        normalise the result; `null` when reading or extracting fails. */
    static method ReadAndExtract(f: UploadedFile, extraction: Result<ResumeData>) returns (outcome: Option<ResumeData>)
      requires f.mimeType == PdfMime || f.mimeType == DocxMime
      ensures outcome == UploadResult(f, extraction)
    {
      outcome := None;
      if f.content.Ok? {
        var extractionInput := if f.mimeType == PdfMime then ExtractInput(Some(f.content.value), None)
                               else ExtractInput(None, Some(f.content.value));
        var extracted := ExtractResumeData.ExtractResumeData(extractionInput, extraction);
        if extracted.Ok? {
          outcome := Some(NormalizeExtracted(extracted.value));
        }
      }
    }

    /** `handleManualFormChange`. */
    method HandleManualFormChange(e: FormEdit)
      requires Consistent(State()) && EditInRange(manualFormData, e)
      modifies this
      ensures State() == FormChange(old(State()), e)
    {
      manualFormData := ApplyEdit(manualFormData, e);
    }

    /** `addItem(section)`. */
    method AddItem(section: Section)
      requires Valid()
      modifies this
      ensures State() == old(State()).(manualFormData := BuildPage.AddItem(old(manualFormData), section))
      ensures Valid()
    {
      var newState := manualFormData;
      match section {
        case WorkSection => newState := newState.(workExperience := newState.workExperience + [BlankWork]);
        case EducationSection => newState := newState.(education := newState.education + [BlankEducation]);
        case ProjectSection => newState := newState.(projects := newState.projects + [BlankProject]);
      }
      manualFormData := newState;
    }

    /** `removeItem(section, index)`. */
    method RemoveItem(section: Section, index: int)
      requires Valid()
      modifies this
      ensures State() == old(State()).(manualFormData := BuildPage.RemoveItem(old(manualFormData), section, index))
      ensures Valid()
    {
      var newState := manualFormData;
      match section {
        case WorkSection => newState := newState.(workExperience := RemoveAt(newState.workExperience, index));
        case EducationSection => newState := newState.(education := RemoveAt(newState.education, index));
        case ProjectSection => newState := newState.(projects := RemoveAt(newState.projects, index));
      }
      manualFormData := newState;
    }

    /** `handleSkillsInputChange`. */
    method HandleSkillsInputChange(value: string)
      requires Valid()
      modifies this
      ensures State() == old(State()).(skillsInput := value)
      ensures Valid()
    {
      skillsInput := value;
    }

    /** `parseSkillsInput`. */
    method ParseSkills()
      requires Consistent(State())
      modifies this
      ensures State() == ParseSkillsStep(old(State()))
    {
      if JsString.Trim(skillsInput) == "" {
        HandleManualFormChange(SetSkills([]));
      } else {
        var skillsArray := SplitSkills(skillsInput);
        HandleManualFormChange(SetSkills(skillsArray));
      }
    }

    /** `handleFormSubmit`. The form it submits is the one the handler was created with:
        the skills parsed at its start reach the form only after it returns. */
    method HandleFormSubmit(answer: Option<AtsScoreOutput>) returns (request: Option<AtsScoreInput>)
      requires Valid()
      modifies this
      ensures State() == FormSubmit(old(State()), answer)
      ensures request == ScoreRequestFor(SubmitData(old(manualFormData), old(skillsInput)))
      ensures Valid()
    {
      var form := manualFormData;
      ghost var s0 := State();
      ParseSkills();
      SetLoadingExtract(true);
      var submittedFormData := SubmitData(form, skillsInput);
      ghost var s1 := State();
      assert s1 == ParseSkillsStep(s0).(isLoadingExtract := true);
      // `setResumeData(null)` and `setResumeData(submittedFormData)` are batched into one
      // update, so the effect runs once, for the submitted record.
      resumeData := Some(submittedFormData);
      request := ResumeDataEffect(answer);
      assert State() == Effect(s1.(resumeData := Some(submittedFormData)), answer);
      SetLoadingExtract(false);
    }

    /** `handleAiSuggestContent`; returns the request it sends, if any. */
    method HandleAiSuggestContent(fieldType: FieldType, index: Option<nat>, answer: Result<string>)
      returns (request: Option<SuggestRequest>)
      requires Valid() && SuggestionTargetExists(State(), fieldType, index)
      modifies this
      ensures State() == AiSuggest(old(State()), fieldType, index, answer)
      ensures request.Some? <==> old(jobRoleForSuggestions) != ""
      ensures request.Some? ==>
                request.value == MakeSuggestRequest(old(jobRoleForSuggestions), fieldType, old(manualFormData), old(skillsInput))
      ensures Valid()
    {
      if jobRoleForSuggestions == "" {
        return None;
      }
      isSuggestingFor := Some(SuggestionKey(fieldType, index));
      request := Some(MakeSuggestRequest(jobRoleForSuggestions, fieldType, manualFormData, skillsInput));
      if answer.Ok? && answer.value != "" {
        ApplySuggestionTo(fieldType, index, answer.value);
      }
      isSuggestingFor := None;
    }

    /** The branch of `handleAiSuggestContent` that writes a non-empty suggestion. */
    method ApplySuggestionTo(fieldType: FieldType, index: Option<nat>, text: string)
      requires Consistent(State()) && SuggestionTargetExists(State(), fieldType, index)
      modifies this
      ensures State() == ApplySuggestion(old(State()), fieldType, index, text)
    {
      if fieldType == SkillsField {
        skillsInput := text;
      }
      var edit := SuggestionEdit(manualFormData, fieldType, index, text);
      ApplyEditIfAny(edit);
    }

    /** Applies the form edit a suggestion maps to, when it maps to one. */
    method ApplyEditIfAny(edit: Option<FormEdit>)
      requires Consistent(State()) && (edit.Some? ==> EditInRange(manualFormData, edit.value))
      modifies this
      ensures edit.None? ==> State() == old(State())
      ensures edit.Some? ==> State() == FormChange(old(State()), edit.value)
    {
      if edit.Some? {
        HandleManualFormChange(edit.value);
      }
    }

    /** `handleAddAtsKeywords`. */
    method HandleAddAtsKeywords(answer: Result<string>)
      requires Valid()
      modifies this
      ensures State() == AddKeywords(old(State()), answer)
      ensures Valid()
    {
      if currentResumeText == "" || jobRole == "" {
        return;
      }
      isLoadingKeywords := true;
      if answer.Ok? {
        currentResumeText := answer.value;
      }
      isLoadingKeywords := false;
    }

    /** `handleSuggestImprovements`. */
    method HandleSuggestImprovements(answer: Result<Improvements>)
      requires Valid()
      modifies this
      ensures State() == SuggestImprovements(old(State()), answer)
      ensures Valid()
    {
      if currentResumeText == "" {
        return;
      }
      isLoadingImprovements := true;
      if answer.Ok? {
        currentResumeText := answer.value.improvedResumeText;
        aiSuggestions := answer.value.suggestions;
      }
      isLoadingImprovements := false;
    }

    /** `handleApplyTextEdits`. */
    method HandleApplyTextEdits(extraction: Result<ResumeData>, answer: Option<AtsScoreOutput>)
      returns (request: Option<AtsScoreInput>)
      requires Valid()
      modifies this
      ensures State() == ApplyTextEdits(old(State()), extraction, answer)
      ensures Valid()
    {
      request := None;
      if currentResumeText == "" {
        return;
      }
      isLoadingReparse := true;
      var extracted := ExtractResumeData.ExtractResumeData(ExtractInput(None, Some(currentResumeText)), extraction);
      if extracted.Ok? {
        request := SetResumeData(Some(NormalizeExtracted(extracted.value)), answer);
      }
      isLoadingReparse := false;
    }

    /** `handleExportPdf`: the file name the PDF is saved under; rendering the page to an
        image and the PDF itself are not part of this model. */
    method HandleExportPdf() returns (filename: Option<string>)
      requires Valid()
      modifies this
      ensures State() == old(State())
      ensures filename == ExportName(old(State()))
    {
      if resumeData.None? {
        return None;
      }
      isExportingPdf := true;
      filename := Some(ExportFilename(resumeData.value.name, selectedTemplate.id));
      isExportingPdf := false;
    }

    /** The template picker's `onValueChange`. */
    method SelectTemplate(templateId: string)
      requires Valid()
      modifies this
      ensures State() == SessionSpec.SelectTemplate(old(State()), templateId)
      ensures Valid()
    {
      var newSelectedTemplate := FindTemplate(AvailableTemplates, templateId);
      if newSelectedTemplate.Some? {
        selectedTemplate := newSelectedTemplate.value;
      }
    }

    /** The job-role inputs and the editable text box. */
    method SetJobRole(value: string)
      requires Valid()
      modifies this
      ensures State() == old(State()).(jobRole := value)
      ensures Valid()
    {
      jobRole := value;
    }

    method SetJobRoleForSuggestions(value: string)
      requires Valid()
      modifies this
      ensures State() == old(State()).(jobRoleForSuggestions := value)
      ensures Valid()
    {
      jobRoleForSuggestions := value;
    }

    method SetCurrentResumeText(value: string)
      requires Valid()
      modifies this
      ensures State() == old(State()).(currentResumeText := value)
      ensures Valid()
    {
      currentResumeText := value;
    }
  }
}
