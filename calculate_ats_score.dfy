/** The ATS scoring flow: its input shape (no contact details, no projects), the bounds of
    its output score and the rounding the flow applies to the model's score. */
module CalculateAtsScore {
  import opened Wrappers
  import opened ResumeTypes

  /** A work entry as the score input schema accepts it: `endDate` optional, no
      `isCurrent` key. */
  datatype ScoreWork = ScoreWork(
    title: string,
    company: string,
    startDate: string,
    endDate: Option<string>,
    description: string)

  datatype AtsScoreInput = AtsScoreInput(
    name: string,
    summary: string,
    skills: seq<string>,
    workExperience: seq<ScoreWork>,
    education: seq<Education>)

  datatype AtsScoreOutput = AtsScoreOutput(atsScore: real, justification: string)

  /** The output schema's bounds on the score. */
  predicate ScoreInRange(x: real) {
    0.0 <= x <= 100.0
  }

  /** ECMAScript `Math.round` on a real argument: the nearest integer, a tie going to the
      larger one. */
  function MathRound(x: real): (n: int)
    ensures x - 0.5 < n as real <= x + 0.5
  {
    (x + 0.5).Floor
  }

  /** The two bounds in `MathRound`'s contract pick out exactly one integer. */
  lemma MathRoundUnique(x: real, n: int)
    requires x - 0.5 < n as real <= x + 0.5
    ensures n == MathRound(x)
  {
    var m := MathRound(x);
    assert -1.0 < (n - m) as real < 1.0;
  }

  /** A score inside the schema's range rounds to an integer inside it. */
  lemma MathRoundInRange(x: real)
    requires ScoreInRange(x)
    ensures 0 <= MathRound(x) <= 100
  {
    assert -0.5 < MathRound(x) as real <= 100.5;
  }

  /** Rounding leaves integers alone, so rounding twice is rounding once. */
  lemma MathRoundIdempotent(x: real)
    ensures MathRound(MathRound(x) as real) == MathRound(x)
  {
    MathRoundUnique(MathRound(x) as real, MathRound(x));
  }

  /** A model score of 87.6 is stored as 88; a tie such as 87.5 goes up. */
  lemma MathRoundExamples()
    ensures MathRound(87.6) == 88 && MathRound(87.5) == 88 && MathRound(87.4) == 87
  {
    MathRoundUnique(87.6, 88);
    MathRoundUnique(87.5, 88);
    MathRoundUnique(87.4, 87);
  }

  const NoOutputError := "calculateAtsScoreFlow: the model returned no output"
  const OutOfRangeError := "calculateAtsScoreFlow: atsScore outside [0, 100]"

  /** What `calculateAtsScoreFlow` resolves to for a given prompt answer: no answer, or one
      whose score is outside [0, 100], fails schema validation; otherwise the score is
      replaced by its rounded value and the justification is returned as received. */
  function ScoreFlowResult(promptOutput: Option<AtsScoreOutput>): (r: Result<AtsScoreOutput>)
    ensures promptOutput.None? ==> r.Err?
    ensures promptOutput.Some? && !ScoreInRange(promptOutput.value.atsScore) ==> r.Err?
    ensures promptOutput.Some? && ScoreInRange(promptOutput.value.atsScore) ==>
              && r.Ok?
              && r.value.atsScore == MathRound(promptOutput.value.atsScore) as real
              && r.value.justification == promptOutput.value.justification
    ensures r.Ok? ==> ScoreInRange(r.value.atsScore) && r.value.atsScore == r.value.atsScore.Floor as real
  {
    match promptOutput
    case None => Err(NoOutputError)
    case Some(output) =>
      if !ScoreInRange(output.atsScore) then Err(OutOfRangeError)
      else
        MathRoundInRange(output.atsScore);
        Ok(output.(atsScore := MathRound(output.atsScore) as real))
  }

  /** The flow as written: the validated output record has its score overwritten in place
      before it is returned. */
  method CalculateAtsScoreFlow(promptOutput: Option<AtsScoreOutput>) returns (r: Result<AtsScoreOutput>)
    ensures r == ScoreFlowResult(promptOutput)
  {
    if promptOutput.None? {
      return Err(NoOutputError);
    }
    var output := promptOutput.value;
    if !ScoreInRange(output.atsScore) {
      return Err(OutOfRangeError);
    }
    output := output.(atsScore := MathRound(output.atsScore) as real);
    r := Ok(output);
  }

  /** A score that is already an integer in range passes through the flow unchanged. */
  lemma {:induction false} IntegralScoreUnchanged(out: AtsScoreOutput)
    requires ScoreInRange(out.atsScore) && out.atsScore == out.atsScore.Floor as real
    ensures ScoreFlowResult(Some(out)) == Ok(out)
  {
    MathRoundUnique(out.atsScore, out.atsScore.Floor);
  }
}
