# Resumintic resume builder: a Dafny model

Resumintic is a web resume builder. A user uploads a PDF or DOCX resume, or fills in a form.
A hosted language model extracts a structured resume record. The record is shown as editable
plain text, scored for ATS (applicant tracking system) compatibility, enhanced by further model
calls, rendered through one of ten templates and exported as a PDF. This project models the
deterministic core underneath the UI and proves its properties:

- `ResumeFormatter` models `formatResumeDataToText`, which turns a resume into plain text. It
  is a method with the source's three `forEach` loops. It is proved equal to a functional
  specification, and the section order, optional lines and the "Present" fallback are proved
  about that specification.
- `BuildPage` holds the pure helpers of the builder page:
  - the "current job" normalisation of extracted records;
  - comma-separated skills parsing;
  - the current-job checkbox;
  - `addItem` and `removeItem` with JavaScript's `splice` semantics;
  - form-submit normalisation;
  - the score request;
  - the pending-suggestion key;
  - the export file name;
  - the template catalogue and lookup.
- `SessionSpec` describes each handler of the page as a step on a `SessionState` value. This
  includes `setResumeData` together with the effect that React runs when `resumeData` changes.
  It proves that every step keeps the page's invariant: a score is shown only together with its
  justification, for a named resume, as a whole number in [0, 100].
- `BuilderSession.Session` is the page as a class. It has one field per piece of `useState`
  state and one method per handler, and it calls the setters in the source's order. Each method
  is proved to reach exactly the state its `SessionSpec` step describes.
- `ExtractResumeData` models the input refinement of the extraction flow: exactly one of a PDF
  data URI or a text. `CalculateAtsScore` models the score schema and the `Math.round` step of
  the scoring flow.
- `TemplateCommon` and the four template modules model what the Infographic, Creative, Executive
  and Technical templates derive from a record:
  - the placeholder;
  - the initials;
  - the skill-bar levels;
  - which contact items appear;
  - the date fallbacks;
  - the description bullets;
  - the optional projects section.
- `JsString` models the JavaScript string operations the source uses: `trim`, `toLowerCase`,
  `split`, `join`, `replace(/\s+/g, …)` and `||` on optional strings.

Language-model calls and file reads are not executed. Their outcomes are parameters of the
handlers: a `Result` for a call that can throw, and an `Option` for the score model's answer.

## Model

| member | source | states |
|---|---|---|
| JsString.OrElse | src/lib/utils.ts:46 | `x \|\| fallback` on an optional string: the value when it is present and non-empty, the fallback otherwise |
| JsString.Trim | src/app/build/page.tsx:269 | the trim is a contiguous slice of the input; it neither starts nor ends with white space; it is empty exactly when the input is all white space |
| JsString.TrimChars | src/app/build/page.tsx:269 | every character of the trimmed string occurs in the input |
| JsString.TrimIdempotent | src/app/build/page.tsx:269 | trimming twice is trimming once |
| JsString.TrimOfPaddedTrimmed | src/app/build/page.tsx:269 | a trimmed string after any white-space padding trims back to itself |
| JsString.ToLower | src/app/build/page.tsx:183 | same length; each ASCII capital moves to its lower-case letter and every other character is kept |
| JsString.Split | src/app/build/page.tsx:269 | at least one piece, and no piece contains the separator |
| JsString.JoinSplit | src/app/build/page.tsx:269 | joining the pieces of a split with the same separator gives the string back |
| JsString.SplitJoin | src/components/resume-templates/ExecutiveTemplate.tsx:61 | splitting a join of separator-free pieces gives the pieces back |
| JsString.SplitMany | src/components/resume-templates/InfographicTemplate.tsx:26 | a split has more than one piece exactly when the separator occurs |
| JsString.ReplaceWhitespaceRuns | src/app/build/page.tsx:454 | with a replacement free of white space, the result has no white space |
| JsString.ReplaceWhitespaceRunsNoWhitespace | src/app/build/page.tsx:454 | a string without white space is unchanged |
| JsString.ReplaceWhitespaceRunsKeepsText | src/app/build/page.tsx:454 | for any replacement character that is not white space, removing that character from the result and from the input with its white space dropped gives the same text: no other character is altered, dropped or reordered |
| JsString.ReplaceWhitespaceRunsCollapse | src/app/build/page.tsx:454 | a maximal white-space run between two parts becomes exactly one copy of the replacement, and each side is replaced on its own |
| JsString.JoinSnoc | src/lib/utils.ts:40 | joining one more element adds one separator and that element at the end |
| ExtractResumeData.InputIssues | src/ai/flows/extract-resume-data.ts:23-36 | no issue exactly when one input is truthy; the "Either…" issue exactly when neither is; the "Only one…" issue exactly when both are; never two issues |
| ExtractResumeData.ExtractResumeData | src/ai/flows/extract-resume-data.ts:75-104 | an invalid input fails with its single issue before the model is asked; a valid one returns the model's outcome |
| ExtractResumeData.EmptyTextAloneRejected | src/ai/flows/extract-resume-data.ts:24-29 | `{resumeText: ""}` alone is refused with the "Either…" issue |
| ExtractResumeData.PdfWithEmptyTextAccepted | src/ai/flows/extract-resume-data.ts:30-35 | a PDF beside an empty text is accepted: "" counts as absent |
| CalculateAtsScore.MathRound | src/ai/flows/calculate-ats-score.ts:112 | the result lies in (x − 0.5, x + 0.5], so it is the nearest integer with ties going up |
| CalculateAtsScore.MathRoundUnique | src/ai/flows/calculate-ats-score.ts:112 | that bound picks out exactly one integer |
| CalculateAtsScore.MathRoundInRange | src/ai/flows/calculate-ats-score.ts:42-46 | a score in [0, 100] rounds to an integer in [0, 100] |
| CalculateAtsScore.MathRoundIdempotent | src/ai/flows/calculate-ats-score.ts:112 | rounding an integer changes nothing |
| CalculateAtsScore.MathRoundExamples | src/ai/flows/calculate-ats-score.ts:112 | 87.6 and 87.5 give 88; 87.4 gives 87 |
| CalculateAtsScore.ScoreFlowResult | src/ai/flows/calculate-ats-score.ts:102-116 | no answer, or a score outside the schema, is an error; otherwise only the score is replaced by its rounding and the justification is kept; an accepted score is a whole number in [0, 100] |
| CalculateAtsScore.CalculateAtsScoreFlow | src/ai/flows/calculate-ats-score.ts:108-115 | the in-place overwrite of `output.atsScore` gives exactly the flow's result |
| CalculateAtsScore.IntegralScoreUnchanged | src/ai/flows/calculate-ats-score.ts:110-114 | an integer score in range passes through unchanged |
| ResumeFormatter.FormatResumeDataToText | src/lib/utils.ts:26-66 | the accumulated text equals the specification `Format`; no resume gives "No resume data available." |
| ResumeFormatter.AppendWorkEntries | src/lib/utils.ts:43-48 | the loop appends each job's lines, in list order |
| ResumeFormatter.AppendEducationEntries | src/lib/utils.ts:50-55 | the loop appends each education entry's lines, in list order |
| ResumeFormatter.AppendProjectEntries | src/lib/utils.ts:59-62 | the loop appends each project's lines, in list order |
| ResumeFormatter.AppendsAreBlocks | src/lib/utils.ts:43-62 | each loop body appends a fixed block determined by the entry alone |
| ResumeFormatter.FoldIsBlocks | src/lib/utils.ts:43-62 | running such a loop over a list writes the entries' blocks after the text, first to last |
| ResumeFormatter.BlocksSnoc | src/lib/utils.ts:43-48 | one more entry at the end adds exactly its block at the end |
| ResumeFormatter.FormatSections | src/lib/utils.ts:38-63 | the text is the head (name, contact, summary, skills, "Work Experience:"), the job blocks, "Education:", the education blocks, then the projects section, in that order |
| ResumeFormatter.FormatStartsWithContactHead | src/lib/utils.ts:27-31 | every resume's text starts with the Name, Email and Phone lines in that order, and differs from the no-resume message |
| ResumeFormatter.ContactExtends | src/lib/utils.ts:29-37 | the contact lines start with Email then Phone, and the optional lines only add after them |
| ResumeFormatter.OptionalExtends | src/lib/utils.ts:32-37 | a LinkedIn or GitHub line is added exactly when its value is non-empty |
| ResumeFormatter.SkillsSmall | src/lib/utils.ts:40 | no skills still writes a lone "- " line; one skill writes one "- skill" line |
| ResumeFormatter.AppendSkillsSnoc | src/lib/utils.ts:40 | one more skill adds one more "\n- skill" line at the end of the section |
| ResumeFormatter.AppendSkillsIsBulletLines | src/lib/utils.ts:40 | for every non-empty skill list the section is the header and then one "- skill" line per skill, in order |
| ResumeFormatter.PresentFallback | src/lib/utils.ts:46 | an absent, empty or "Present" end date prints the same job block, with "Present" |
| ResumeFormatter.SameWorkBlocks | src/lib/utils.ts:43-48 | jobs that print the same blocks give the same text |
| ResumeFormatter.ProjectsText | src/lib/utils.ts:57-63 | the projects section is empty exactly when there are no projects |
| ResumeFormatter.ProjectsSnoc | src/lib/utils.ts:57-63 | adding a project adds its block, and adds the "Projects:" header only for the first project |
| ResumeFormatter.AddProjectAppends | src/lib/utils.ts:57-63 | adding a project to a resume appends exactly that project's lines to its text, plus the header when it is the first |
| BuildPage.NormalizeWork | src/app/build/page.tsx:181-185 | `isCurrent` is set exactly when the end date is absent, empty or "present" in any case; such an entry ends "Present"; any other end date and every other field are kept |
| BuildPage.NormalizeWorkConsistent | src/app/build/page.tsx:183-184 | after normalisation an entry is current exactly when its end date is "Present" |
| BuildPage.NormalizeWorkIdempotent | src/app/build/page.tsx:181-185 | normalising twice is normalising once |
| BuildPage.PresentInAnyCase | src/app/build/page.tsx:183 | "PRESENT", "present" and "" mark a current job; "2021-05" does not |
| BuildPage.NormalizeExtracted | src/app/build/page.tsx:179-186 | every job is normalised in place, the length and order are kept, and the rest of the record is unchanged |
| BuildPage.NormalizeExtractedIdempotent | src/app/build/page.tsx:397-404 | re-parsing already normalised data normalises nothing further |
| BuildPage.TrimAll | src/app/build/page.tsx:269 | `map(trim)`: same length, each piece trimmed |
| BuildPage.DropEmpty | src/app/build/page.tsx:269 | `filter(x => x !== '')`: only non-empty pieces remain, each taken from the input |
| BuildPage.DropEmptyAppend | src/app/build/page.tsx:269 | filtering a concatenation filters each part in turn, so order is kept |
| BuildPage.DropEmptySingle | src/app/build/page.tsx:269 | one piece is kept exactly when it is not empty |
| BuildPage.DropEmptyKeeps | src/app/build/page.tsx:269 | every non-empty piece of the input is in the output |
| BuildPage.SplitSkills | src/app/build/page.tsx:269 | every parsed skill is non-empty and comma-free |
| BuildPage.SplitSkillsNoComma | src/app/build/page.tsx:269 | text without a comma gives its trim as the one skill, or no skill when it trims to "" |
| BuildPage.SplitSkillsAtComma | src/app/build/page.tsx:269 | text up to the first comma gives its skills, then the rest gives its own |
| BuildPage.SkillsOfConsPiece | src/app/build/page.tsx:269 | trimming and filtering a first piece and the later pieces is done piece by piece |
| BuildPage.SplitSkillsOne | src/app/build/page.tsx:269 | a parsed skill alone parses to itself |
| BuildPage.SplitSkillsLeadingBlank | src/app/build/page.tsx:269 | a blank piece before the first comma gives no skill |
| BuildPage.SplitSkillsBlankPiece | src/app/build/page.tsx:269 | a blank piece between two skills is dropped: "a, ,b" gives exactly a and b |
| BuildPage.SplitSkillsTrimmed | src/app/build/page.tsx:269 | every parsed skill is its own trim |
| BuildPage.ParseSkillsInput | src/app/build/page.tsx:265-272 | a blank box gives no skills; anything else is split |
| BuildPage.SplitBlankSkills | src/app/build/page.tsx:266-269 | splitting a white-space-only box already gives [], so the blank-box branch agrees with the split |
| BuildPage.ParseSkillsInputIsSplitSkills | src/app/build/page.tsx:265-272 | `parseSkillsInput` and the bare split at page.tsx:332 give the same skills for every input |
| BuildPage.SplitSkillsJoin | src/app/build/page.tsx:269 | joining parsed skills with ", " and parsing again gives the same skills, in order |
| BuildPage.SplitJoinedSkills | src/app/build/page.tsx:269 | the pieces of that split are the first skill and then each later skill after one space |
| BuildPage.ToggleCurrent | src/app/build/page.tsx:210-218 | checking sets the end date to "Present"; unchecking clears it only when it was "Present"; the other fields are kept |
| BuildPage.ToggleOnOffClearsEndDate | src/app/build/page.tsx:212-217 | checking and then unchecking leaves "" whatever the end date was |
| BuildPage.ToggleCurrentIdempotent | src/app/build/page.tsx:210-218 | setting the checkbox twice to the same value is setting it once |
| BuildPage.ApplyEdit | src/app/build/page.tsx:205-231 | a field edit replaces the addressed entry by that entry with the field set to the text, and nothing else; the current-job edit applies the checkbox to that entry; a name, summary or skills edit replaces that field |
| BuildPage.WithWorkField | src/app/build/page.tsx:209 | the edited work field holds the text afterwards; every other field and the current flag are kept |
| BuildPage.WithEducationField | src/app/build/page.tsx:220 | the edited education field holds the text afterwards; the others are kept |
| BuildPage.WithProjectField | src/app/build/page.tsx:222 | the edited project field holds the text afterwards; the other is kept |
| BuildPage.WithContactField | src/app/build/page.tsx:224 | the edited contact field holds the text afterwards; the others are kept |
| BuildPage.WorkEditWritesField | src/app/build/page.tsx:208-209 | after a work field edit, that entry's field holds the text, its other fields are kept and every other entry is unchanged |
| BuildPage.EducationEditWritesField | src/app/build/page.tsx:219-220 | the same for an education entry |
| BuildPage.ProjectEditWritesField | src/app/build/page.tsx:221-222 | the same for a project |
| BuildPage.ContactEditWritesField | src/app/build/page.tsx:223-224 | after a contact edit, that field holds the text and the other contact fields are kept |
| BuildPage.AddItem | src/app/build/page.tsx:233-245 | one blank entry is appended to the named list only |
| BuildPage.SpliceStart | src/app/build/page.tsx:251 | `splice`'s start: a start within the list is used as is; a negative one counts from the end; one below minus the length clamps to 0 and one past the end to the length |
| BuildPage.RemoveAt | src/app/build/page.tsx:251 | `splice(i, 1)`: the entry at a valid index (or at a negative index counted from the end) goes; an index past the end removes nothing |
| BuildPage.RemoveAtMultiset | src/app/build/page.tsx:251 | removing a valid index takes out exactly that entry |
| BuildPage.RemoveItem | src/app/build/page.tsx:247-259 | only the named list changes |
| BuildPage.RemoveUndoesAdd | src/app/build/page.tsx:233-259 | removing the entry just added, by its index or by −1, gives the form back |
| BuildPage.SubmitWork | src/app/build/page.tsx:289-292 | a current entry gets "Present" as its end date; any other entry is unchanged |
| BuildPage.SubmitData | src/app/build/page.tsx:282-292 | the submitted skills come from the skills box, every job goes through `SubmitWork`, and nothing else changes |
| BuildPage.SubmittedCurrentEntries | src/app/build/page.tsx:289-292 | in submitted data a current entry ends "Present", and a non-current entry keeps its end date and flag |
| BuildPage.ScoreWorkOf | src/app/build/page.tsx:131 | a current job is sent without an end date; any other job is sent with its own end date; title, company, start and description are kept |
| BuildPage.ScoreRequest | src/app/build/page.tsx:127-133 | name, summary, skills and education are sent as they are, with no contact details and no projects; jobs are mapped one by one |
| BuildPage.ScoreRequestOfNormalized | src/app/build/page.tsx:131 | for normalised data, a job is sent without an end date exactly when it is current |
| BuildPage.FieldTypeName | src/app/build/page.tsx:303 | no field type name contains "-" |
| BuildPage.NatToString | src/app/build/page.tsx:312 | a number prints as one or more decimal digits |
| BuildPage.NatToStringInjective | src/app/build/page.tsx:312 | different numbers print differently |
| BuildPage.SuggestionKey | src/app/build/page.tsx:312 | the key is the field type alone, or the field type, "-" and the index |
| BuildPage.SuggestionKeyInjective | src/app/build/page.tsx:312 | different fields, or different entries of one field, never share a key |
| BuildPage.SuggestionKeyExamples | src/app/build/page.tsx:312 | "experienceDescription-2", "projectDescription-12" and "summary" |
| BuildPage.NonEmpty | src/app/build/page.tsx:319-321 | `x \|\| undefined`: present exactly for a non-empty string |
| BuildPage.MakeSuggestRequest | src/app/build/page.tsx:316-323 | the request holds the role, the field, the name when non-empty, the summary except for a summary request, and the skills text except for a skills request |
| BuildPage.ExportFilename | src/app/build/page.tsx:454 | the name is the resume name with each white-space run replaced by "_", then "_", the template id and ".pdf"; it has no white space when the template id has none |
| BuildPage.ExportFilenameJoinsWords | src/app/build/page.tsx:454 | a run of white space between a first word and the rest becomes a single "_" |
| BuildPage.ExportFilenameKeepsPlainName | src/app/build/page.tsx:454 | a name without white space gives `name_id.pdf` |
| BuildPage.ExportStemIdempotent | src/app/build/page.tsx:454 | replacing white-space runs a second time changes nothing |
| BuildPage.FindTemplate | src/app/build/page.tsx:902 | a found template is listed and has the id; nothing is found exactly when no template has the id |
| BuildPage.CatalogueIdsDistinct | src/app/build/page.tsx:53-64 | the ten catalogue ids are distinct |
| BuildPage.FindListedTemplate | src/app/build/page.tsx:901-904 | with distinct ids, looking up a listed template's id finds that template |
| SessionSpec.InitialStateValid | src/app/build/page.tsx:77-99 | the initial state keeps the page invariant |
| SessionSpec.ScoreStep | src/app/build/page.tsx:119-145 | no name clears score and justification; a failed call clears both; a successful call sets both; nothing else changes and the invariant holds |
| SessionSpec.ScoreRequestFor | src/app/build/page.tsx:119-133 | a request is sent exactly for a named resume, and it is that resume's score request |
| SessionSpec.Effect | src/app/build/page.tsx:105-117 | a record sets the text to its formatted text and runs the score step; `null` empties the text and clears score and justification |
| SessionSpec.SetResumeData | src/app/build/page.tsx:105-117 | the new record is stored; the effect runs unless the value stays `null`; only the record, the text and the score fields change |
| SessionSpec.UploadInput | src/app/build/page.tsx:164-171 | a PDF sends only its data URI; a DOCX sends only its text |
| SessionSpec.Upload | src/app/build/page.tsx:147-203 | no file or another MIME type changes nothing; an accepted file resets the form and the skills box and ends with the upload's record; the invariant is kept |
| SessionSpec.UploadResult | src/app/build/page.tsx:163-199 | a readable file with a valid extraction input and a successful extraction gives that extraction normalised; an unreadable file, an invalid input or a failed extraction gives no record |
| SessionSpec.EmptyUploadRejected | src/app/build/page.tsx:164-178 | an empty data URI or DOCX text is refused before the model and ends with no record |
| SessionSpec.FailedUploadClearsScore | src/app/build/page.tsx:190-199 | a failed upload ends with no record and with score and justification cleared |
| SessionSpec.FormChange | src/app/build/page.tsx:205-231 | only the form changes, by `ApplyEdit`, so a field edit writes exactly the addressed field |
| SessionSpec.ParseSkillsStep | src/app/build/page.tsx:265-272 | only the form's skills change, to the parsed skills box |
| SessionSpec.FormSubmit | src/app/build/page.tsx:275-300 | the record becomes the submitted form and the text its formatting; the form holds the parsed skills, which equal the record's |
| SessionSpec.AiSuggest | src/app/build/page.tsx:302-349 | without a job role, or with a failed or empty answer, nothing changes; otherwise only the form and, for skills, the skills box change |
| SessionSpec.SuggestionEdit | src/app/build/page.tsx:327-338 | the form edit a suggestion maps to addresses an entry that exists |
| SessionSpec.ApplySuggestion | src/app/build/page.tsx:327-338 | applying a suggestion keeps the form consistent and changes only the form and the skills box; the box changes only for a skills suggestion, to the suggested text |
| SessionSpec.SuggestedSummary | src/app/build/page.tsx:327-329 | a summary suggestion replaces the summary and nothing else |
| SessionSpec.SuggestedSkills | src/app/build/page.tsx:329-332 | a skills suggestion sets the skills box to the text and the form's skills to the text split at commas, trimmed, without empty pieces |
| SessionSpec.SuggestedWorkDescription | src/app/build/page.tsx:333-334 | a description suggestion for an existing job replaces that job's description only |
| SessionSpec.SuggestedProjectDescription | src/app/build/page.tsx:335-336 | a description suggestion for an existing project replaces that project's description only |
| SessionSpec.DescriptionWithoutIndexIgnored | src/app/build/page.tsx:333-337 | a description suggestion without an index changes nothing, whatever the answer |
| SessionSpec.AddKeywords | src/app/build/page.tsx:352-368 | needs text and a job role; the answer replaces only the text; the record and score are never touched |
| SessionSpec.SuggestImprovements | src/app/build/page.tsx:370-387 | needs text; the answer replaces the text and the suggestions only; the record and score are never touched |
| SessionSpec.ApplyTextEdits | src/app/build/page.tsx:389-413 | empty text or a failed extraction changes nothing; otherwise the record becomes the normalised extraction |
| SessionSpec.SelectTemplate | src/app/build/page.tsx:901-904 | an unknown id keeps the selection; a known one selects that template |
| SessionSpec.ExportName | src/app/build/page.tsx:416-454 | a file name exactly when there is a record, built from its name and the template id |
| SessionSpec.SelectListedTemplate | src/app/build/page.tsx:901-904 | choosing any catalogue template by its id selects it |
| SessionSpec.EnhanceKeepsRecord | src/app/build/page.tsx:352-387 | adding keywords and then suggesting improvements, in any outcome, keeps the record and the score |
| SessionSpec.FormSubmitStable | src/app/build/page.tsx:275-300 | submitting twice in a row gives the same record |
| BuilderSession.Session.constructor | src/app/build/page.tsx:77-99 | the fields hold the initial `useState` values, and the invariant holds |
| BuilderSession.Session.TriggerAtsCalculation | src/app/build/page.tsx:119-145 | the fields reach `ScoreStep`'s state, and the request sent is `ScoreRequestFor` of the data |
| BuilderSession.Session.ResumeDataEffect | src/app/build/page.tsx:105-117 | the fields reach `Effect`'s state, with a score request only for a record |
| BuilderSession.Session.SetResumeData | src/app/build/page.tsx:105-117 | the fields reach `SessionSpec.SetResumeData`'s state |
| BuilderSession.Session.HandleFileUpload | src/app/build/page.tsx:147-203 | the fields reach `Upload`'s state, and the invariant is kept |
| BuilderSession.Session.AcceptUpload | src/app/build/page.tsx:157-202 | an accepted file takes the fields to `Upload`'s state |
| BuilderSession.Session.ClearForUpload | src/app/build/page.tsx:157-160 | the loading flag is raised, the record is set to `null` (with its effect), and the form and skills box are reset |
| BuilderSession.Session.ReadAndExtract | src/app/build/page.tsx:163-186 | the `try` block's outcome is `UploadResult` |
| BuilderSession.Session.HandleManualFormChange | src/app/build/page.tsx:205-231 | the fields reach `FormChange`'s state, so a field edit writes exactly the addressed field |
| BuilderSession.Session.AddItem | src/app/build/page.tsx:233-245 | only the form changes, by `BuildPage.AddItem` |
| BuilderSession.Session.RemoveItem | src/app/build/page.tsx:247-259 | only the form changes, by `BuildPage.RemoveItem` |
| BuilderSession.Session.HandleSkillsInputChange | src/app/build/page.tsx:261-263 | only the skills box changes |
| BuilderSession.Session.ParseSkills | src/app/build/page.tsx:265-272 | the fields reach `ParseSkillsStep`'s state |
| BuilderSession.Session.HandleFormSubmit | src/app/build/page.tsx:275-300 | the fields reach `FormSubmit`'s state, and a score is requested for the submitted record |
| BuilderSession.Session.HandleAiSuggestContent | src/app/build/page.tsx:302-349 | the fields reach `AiSuggest`'s state; a request is made exactly when a job role is set, and it is `MakeSuggestRequest` |
| BuilderSession.Session.ApplySuggestionTo | src/app/build/page.tsx:327-338 | the fields reach `ApplySuggestion`'s state |
| BuilderSession.Session.ApplyEditIfAny | src/app/build/page.tsx:327-338 | with no edit the fields are unchanged; with one they reach `FormChange`'s state |
| BuilderSession.Session.HandleAddAtsKeywords | src/app/build/page.tsx:352-368 | the fields reach `AddKeywords`'s state |
| BuilderSession.Session.HandleSuggestImprovements | src/app/build/page.tsx:370-387 | the fields reach `SuggestImprovements`'s state |
| BuilderSession.Session.HandleApplyTextEdits | src/app/build/page.tsx:389-413 | the fields reach `ApplyTextEdits`'s state |
| BuilderSession.Session.HandleExportPdf | src/app/build/page.tsx:416-463 | no field changes once the export ends; the file name is `ExportName` |
| BuilderSession.Session.SelectTemplate | src/app/build/page.tsx:901-904 | the fields reach `SessionSpec.SelectTemplate`'s state |
| BuilderSession.Session.SetJobRole | src/app/build/page.tsx:823 | only the job role changes |
| BuilderSession.Session.SetJobRoleForSuggestions | src/app/build/page.tsx:544 | only the suggestion job role changes |
| BuilderSession.Session.SetCurrentResumeText | src/app/build/page.tsx:854 | only the text changes |
| TemplateCommon.ShownIf | src/components/resume-templates/ExecutiveTemplate.tsx:21-24 | a contact item appears exactly when its value is non-empty, and then shows that value |
| TemplateCommon.Truthies | src/components/resume-templates/ExecutiveTemplate.tsx:21-24 | a row of `{value && …}` items renders only non-empty values, in the order written |
| TemplateCommon.TruthiesCons | src/components/resume-templates/ExecutiveTemplate.tsx:21 | the first item of such a row is rendered first, then the rest of the row |
| TemplateCommon.TruthiesOfThree | src/components/resume-templates/InfographicTemplate.tsx:34-36 | three such items render each shown item in turn |
| TemplateCommon.TruthiesOfFour | src/components/resume-templates/ExecutiveTemplate.tsx:21-24 | four such items render each shown item in turn |
| TemplateCommon.DateRange | src/components/resume-templates/ExecutiveTemplate.tsx:57 | start, separator, then the end date or the fallback when the end date is absent or empty |
| TemplateCommon.AbsentAndEmptyEndAgree | src/components/resume-templates/InfographicTemplate.tsx:81 | an absent, an empty and a fallback-valued end date show the same range |
| TemplateCommon.EducationViews | src/components/resume-templates/InfographicTemplate.tsx:54-58 | one entry per education item, in order, with the end date shown verbatim |
| TemplateCommon.ProjectsSection | src/components/resume-templates/InfographicTemplate.tsx:87 | the projects section exists exactly when there are projects |
| TemplateCommon.FirstChar | src/components/resume-templates/InfographicTemplate.tsx:26 | `substring(0, 1)`: the first character, or "" for "" |
| TemplateCommon.ThreeWords | src/components/resume-templates/CreativeTemplate.tsx:19 | splitting three space-joined words gives the words |
| TemplateCommon.SplitEndsWithSep | src/components/resume-templates/InfographicTemplate.tsx:26 | a name ending in a space has an empty last piece |
| TemplateCommon.StripDash | src/components/resume-templates/ExecutiveTemplate.tsx:61 | `replace(/^- /, '')`: one leading "- " is removed, and nothing else changes |
| TemplateCommon.BulletsOf | src/components/resume-templates/ExecutiveTemplate.tsx:61 | never more bullets than lines |
| TemplateCommon.Bullets | src/components/resume-templates/ExecutiveTemplate.tsx:61 | never more bullets than the description has lines |
| TemplateCommon.BulletsAreBullets | src/components/resume-templates/ExecutiveTemplate.tsx:61 | no bullet is empty, spans lines or ends in white space |
| TemplateCommon.DescriptionBulletsAreBullets | src/components/resume-templates/ExecutiveTemplate.tsx:61 | the same for the bullets of any description |
| TemplateCommon.BulletsOfAppend | src/components/resume-templates/ExecutiveTemplate.tsx:61 | the bullets of consecutive lines are each group's bullets in turn, so order is kept |
| TemplateCommon.BlankLineDropped | src/components/resume-templates/ExecutiveTemplate.tsx:61 | a white-space-only line gives no bullet, wherever it is |
| TemplateCommon.BulletLineReadsBack | src/components/resume-templates/ExecutiveTemplate.tsx:61 | a clean item written as "- item", or bare, reads back as itself |
| TemplateCommon.BulletListRoundTrip | src/components/resume-templates/ExecutiveTemplate.tsx:61 | writing clean items as a "- " list, one per line, and deriving the bullets gives the items back |
| TemplateCommon.DashLinesBullets | src/components/resume-templates/ExecutiveTemplate.tsx:61 | the "- " lines of clean items give those items as bullets |
| InfographicTemplate.SkillLevel | src/components/resume-templates/InfographicTemplate.tsx:15-18 | every level is in 70..90 and a multiple of 5 |
| InfographicTemplate.SkillLevelClosedForm | src/components/resume-templates/InfographicTemplate.tsx:15-18 | level(i) = 90 − 5·(i mod 5): period 5, and 90 at every fifth skill |
| InfographicTemplate.Initials | src/components/resume-templates/InfographicTemplate.tsx:26 | at most two characters; "" for ""; otherwise the name's first character comes first |
| InfographicTemplate.OneWordInitial | src/components/resume-templates/InfographicTemplate.tsx:26 | a one-word name gives one letter |
| InfographicTemplate.TrailingSpaceInitial | src/components/resume-templates/InfographicTemplate.tsx:26 | a name ending in a space gives one letter |
| InfographicTemplate.ThreeWordInitials | src/components/resume-templates/InfographicTemplate.tsx:26 | three words give the first letters of the first and last words |
| InfographicTemplate.InitialsExample | src/components/resume-templates/InfographicTemplate.tsx:26 | "Mary Ann Smith" gives "MS" |
| InfographicTemplate.ContactItems | src/components/resume-templates/InfographicTemplate.tsx:34-36 | the items are exactly the non-empty values among email, phone and LinkedIn, in that order: one item per non-empty value, the phone right after a non-empty email, LinkedIn last; GitHub never appears |
| InfographicTemplate.SkillBars | src/components/resume-templates/InfographicTemplate.tsx:42-46 | one bar per skill, in order, at the skill's level |
| InfographicTemplate.Render | src/components/resume-templates/InfographicTemplate.tsx:10-104 | the placeholder exactly for no record; the projects section exactly for a non-empty list; one bar per skill and one view per job |
| InfographicTemplate.GitHubNotShown | src/components/resume-templates/InfographicTemplate.tsx:34-36 | the page does not depend on the GitHub address |
| InfographicTemplate.OpenEndedJob | src/components/resume-templates/InfographicTemplate.tsx:81 | a job without an end date runs to "Present" |
| CreativeTemplate.Initials | src/components/resume-templates/CreativeTemplate.tsx:19 | at most two characters; "" for ""; otherwise the name's first character comes first |
| CreativeTemplate.OneWordInitial | src/components/resume-templates/CreativeTemplate.tsx:19 | a one-word name gives one letter |
| CreativeTemplate.ThreeWordInitials | src/components/resume-templates/CreativeTemplate.tsx:19 | three words give the first letters of the first and second words, not the last |
| CreativeTemplate.TwoWordInitials | src/components/resume-templates/CreativeTemplate.tsx:19 | two words give both first letters |
| CreativeTemplate.InitialsExample | src/components/resume-templates/CreativeTemplate.tsx:19 | "Mary Ann Smith" gives "MA" |
| CreativeTemplate.ContactLine | src/components/resume-templates/CreativeTemplate.tsx:24 | email, bullet, phone and a space; then the literal text "&bull; " and the LinkedIn address only when it is non-empty |
| CreativeTemplate.ContactLineStart | src/components/resume-templates/CreativeTemplate.tsx:24 | the line always starts with email, bullet, phone |
| TemplateCommon.JobViews | src/components/resume-templates/InfographicTemplate.tsx:77-82 | one view per job, in order, with the end date falling back to the given label; the infographic and creative (CreativeTemplate.tsx:41-46) templates use "Present" |
| CreativeTemplate.Render | src/components/resume-templates/CreativeTemplate.tsx:10-95 | the placeholder exactly for no record; the projects section exactly for a non-empty list; the skills as given |
| CreativeTemplate.GitHubNotShown | src/components/resume-templates/CreativeTemplate.tsx:24 | the page does not depend on the GitHub address |
| CreativeTemplate.OpenEndedJob | src/components/resume-templates/CreativeTemplate.tsx:45 | a job without an end date runs to "Present" |
| ExecutiveTemplate.ContactItems | src/components/resume-templates/ExecutiveTemplate.tsx:21-24 | the items are exactly the non-empty values among email, phone, LinkedIn and GitHub, in that order: one item per non-empty value, each at the position the earlier non-empty values leave it, a non-empty GitHub last |
| ExecutiveTemplate.WorkViews | src/components/resume-templates/ExecutiveTemplate.tsx:53-61 | one view per job: en-dash dates with the "Present" fallback, and the description's bullets |
| ExecutiveTemplate.Render | src/components/resume-templates/ExecutiveTemplate.tsx:10-98 | the placeholder exactly for no record; the projects section exactly for a non-empty list; one view per job |
| ExecutiveTemplate.JobBulletsAreBullets | src/components/resume-templates/ExecutiveTemplate.tsx:61 | each job's bullets are non-empty single lines and no more than its description's lines |
| ExecutiveTemplate.DashedDescriptionShown | src/components/resume-templates/ExecutiveTemplate.tsx:61 | a description written as a "- " list shows exactly those items |
| ExecutiveTemplate.OpenEndedJob | src/components/resume-templates/ExecutiveTemplate.tsx:57 | a job without an end date runs to "Present" |
| TechnicalTemplate.ContactItems | src/components/resume-templates/TechnicalTemplate.tsx:19-21 | email and phone always, LinkedIn exactly when non-empty, never GitHub; the phone and LinkedIn items carry the "// " printed before them |
| TechnicalTemplate.WorkViews | src/components/resume-templates/TechnicalTemplate.tsx:36-41 | one view per job, with the "Current" fallback and the description's bullets |
| TechnicalTemplate.Render | src/components/resume-templates/TechnicalTemplate.tsx:10-89 | the placeholder exactly for no record; the projects section exactly for a non-empty list; one view per job |
| TechnicalTemplate.OpenEndedJob | src/components/resume-templates/TechnicalTemplate.tsx:39 | a job without an end date runs to "Current", not "Present" |
| TechnicalTemplate.GitHubNotShown | src/components/resume-templates/TechnicalTemplate.tsx:19-21 | the page does not depend on the GitHub address |
| TechnicalTemplate.SameBulletsAsExecutive | src/components/resume-templates/TechnicalTemplate.tsx:41 | every job shows the same bullets here as in the executive template |

## Left out

- Language-model calls. The extraction, scoring, keyword, improvement and field-suggestion flows are not modelled: their prompts run on a hosted service. Each handler takes the call's outcome as a parameter. Only the extraction input check and the score rounding are modelled.
- File reading. `convertFileToDataUri` (FileReader) and `mammoth.extractRawText` are not modelled. The file's content, or the error reading it, is a field of `UploadedFile`. The "Unsupported File Type" branch (page.tsx:172-176) cannot be reached after the MIME check, so it is not modelled.
- PDF export mechanics. html2canvas, jsPDF, and the floating-point fit-to-page arithmetic are not modelled; only the saved file name is.
- Date picking. `DatePickerField` and the date-fns `parse` and `format` calls are not modelled; dates are the strings they produce.
- Concurrency and UI. Each async handler is one atomic step, so overlapping completions are not modelled. Toasts, the active tab, the input-mode radio and disabled buttons are left out. The loading flags are fields, and every step leaves them down.
- `BuilderSession.Session.HandleManualFormChange`, `BuilderSession.Session.HandleAiSuggestContent`: both require the addressed entry to exist. In the source, an out-of-range index throws inside the state updater, and the page only passes indices of rendered entries.
- Every handler of `BuilderSession.Session` requires the page invariant `Valid()` or its score part. The invariant holds initially and every handler keeps it.
- Template markup. Styling, icons, links and the six markup-only templates (Modern, Classic, Academic, Minimalist, Typographic, Entry-Level) are not modelled. The template catalogue keeps only each template's id and name; preview images, descriptions and components are dropped.
- The `contextData` of a suggestion request is the caller's untyped context, so it is not modelled.
- `cn` (class-name merging) is not modelled.
- `JsString.ToLower`: models lower-casing of ASCII letters only. No other character lowercases to a letter of "present", so the end-date check in `BuildPage.NormalizeWork` is exact.
- `TemplateCommon.FirstChar`: takes the first Unicode character. JavaScript's `substring(0, 1)` (InfographicTemplate.tsx:26, CreativeTemplate.tsx:19) takes the first UTF-16 code unit, so for a name starting outside the Basic Multilingual Plane the source shows a lone high surrogate where the model shows the whole character.
- White space for `trim` and `\s` is the full ECMAScript set (white space and line terminators), not only ASCII white space.
