/** The extraction flow's input contract: exactly one of a PDF data URI and a plain-text
    resume, judged by JavaScript truthiness, so an empty string counts as absent. */
module ExtractResumeData {
  import opened Wrappers
  import opened JsString
  import opened ResumeTypes

  datatype ExtractInput = ExtractInput(resumePdfDataUri: Option<string>, resumeText: Option<string>)

  const MissingInputIssue := "Either resumePdfDataUri or resumeText must be provided."
  const BothInputsIssue := "Only one of resumePdfDataUri or resumeText should be provided."

  /** The issues the input schema's refinement reports, in the order it adds them. */
  function InputIssues(input: ExtractInput): (issues: seq<string>)
    ensures |issues| <= 1
    ensures issues == [] <==> Truthy(input.resumePdfDataUri) != Truthy(input.resumeText)
    ensures issues == [MissingInputIssue] <==> !Truthy(input.resumePdfDataUri) && !Truthy(input.resumeText)
    ensures issues == [BothInputsIssue] <==> Truthy(input.resumePdfDataUri) && Truthy(input.resumeText)
  {
    var pdf := Truthy(input.resumePdfDataUri);
    var text := Truthy(input.resumeText);
    assert |MissingInputIssue| != |BothInputsIssue|;
    assert [MissingInputIssue] + [] == [MissingInputIssue] && [] + [BothInputsIssue] == [BothInputsIssue];
    (if !pdf && !text then [MissingInputIssue] else [])
      + (if pdf && text then [BothInputsIssue] else [])
  }

  predicate IsValidInput(input: ExtractInput) {
    InputIssues(input) == []
  }

  /** `extractResumeData(input)`: the input is validated before the model is asked; an
      invalid input fails with its one issue, a valid one yields whatever the model call
      (`modelOutput`, already checked against the output schema) yields. */
  function ExtractResumeData(input: ExtractInput, modelOutput: Result<ResumeData>): (r: Result<ResumeData>)
    ensures !IsValidInput(input) ==> r.Err? && [r.error] == InputIssues(input)
    ensures IsValidInput(input) ==> r == modelOutput
  {
    var issues := InputIssues(input);
    if issues != [] then Err(issues[0]) else modelOutput
  }

  /** A text-only request with an empty text is refused. */
  lemma EmptyTextAloneRejected(modelOutput: Result<ResumeData>)
    ensures ExtractResumeData(ExtractInput(None, Some("")), modelOutput) == Err(MissingInputIssue)
  {
  }

  /** An empty text beside a PDF does not count as a second input. */
  lemma PdfWithEmptyTextAccepted(dataUri: string, modelOutput: Result<ResumeData>)
    requires dataUri != ""
    ensures ExtractResumeData(ExtractInput(Some(dataUri), Some("")), modelOutput) == modelOutput
  {
  }
}
