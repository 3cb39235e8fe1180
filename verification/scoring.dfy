/**
 * The single call into the pre-trained classifier (app.py, "Prediction").
 * The classifier is not part of this model: it is a parameter, a total
 * function from a row to either a probability matrix (one row per input
 * row, one column per class) or the message of the exception it raised.
 */
module Scoring {
  import opened Wrappers
  import opened Features
  import opened Columns

  type Classifier = Row -> Result<seq<seq<real>>, string>

  /** Why no percentage could be shown. */
  datatype ScoreError =
    | Raised(message: string)   // the classifier itself raised
    | NoPositiveClass           // its output has no entry at row 0, column 1

  /** The output has an entry for the positive class of the first row. */
  predicate HasPositiveClass(p: seq<seq<real>>) {
    |p| > 0 && |p[0]| > 1
  }

  /** The positive-class probability of the one input row, scaled to a
      percentage; every failure is reported instead of escaping. */
  function ApprovalPercent(predictProba: Classifier, f: FeatureVector): (r: Result<real, ScoreError>)
    ensures r.Success? <==>
              predictProba(ToRow(f)).Success? && HasPositiveClass(predictProba(ToRow(f)).value)
    ensures r.Success? ==> r.value / 100.0 == predictProba(ToRow(f)).value[0][1]
    ensures predictProba(ToRow(f)).Failure? ==> r == Failure(Raised(predictProba(ToRow(f)).error))
  {
    match predictProba(ToRow(f))
    case Failure(e) => Failure(Raised(e))
    case Success(p) =>
      if HasPositiveClass(p) then Success(p[0][1] * 100.0) else Failure(NoPositiveClass)
  }

  /** A probability in [0, 1] becomes a percentage in [0, 100]. */
  lemma PercentInRange(predictProba: Classifier, f: FeatureVector)
    requires predictProba(ToRow(f)).Success?
    requires HasPositiveClass(predictProba(ToRow(f)).value)
    requires 0.0 <= predictProba(ToRow(f)).value[0][1] <= 1.0
    ensures ApprovalPercent(predictProba, f).Success?
    ensures 0.0 <= ApprovalPercent(predictProba, f).value <= 100.0
  {
  }

  /** The whole request: derive the features from the form, then score them. */
  function Estimate(predictProba: Classifier, x: CaseInput): (r: Result<real, ScoreError>)
    ensures var p := predictProba(ToRow(Derive(x)));
            r.Success? <==> p.Success? && HasPositiveClass(p.value)
    ensures var p := predictProba(ToRow(Derive(x)));
            r.Success? ==> r.value == 100.0 * p.value[0][1]
    ensures var p := predictProba(ToRow(Derive(x)));
            p.Failure? ==> r == Failure(Raised(p.error))
  {
    ApprovalPercent(predictProba, Derive(x))
  }
}
