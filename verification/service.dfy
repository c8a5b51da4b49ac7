/** The `/predict` handler end to end: normalise the request, assemble and
    scale the feature frame, ask the classifier for a probability and map it to
    a tier. Any failure on the way becomes one client-error response.
 */
module Service {
  import opened Results
  import opened Values
  import opened Schema
  import opened Normaliser
  import opened Features
  import opened Risk

  /** The fitted classifier's positive-class probability for one frame row;
      its internals belong to the training pipeline. */
  type Classifier = Vector -> Probability

  /** The four values `predict_risk` returns. */
  datatype Assessment = Assessment(riskPercent: real, riskLevel: string, recommendation: string, colour: string)

  /** The JSON body of the reply: the assessment, or the error of a rejected request. */
  datatype Response = Success(assessment: Assessment) | ClientError(error: Error)

  /** The assessment reported for a probability. */
  function Report(p: Probability): (a: Assessment)
    ensures 0.0 <= a.riskPercent <= 100.0
    ensures TierOfLabel(a.riskLevel) == Some(TierOf(p))
    ensures Dist(a.riskPercent, p * 100.0) <= 0.005
    ensures a.recommendation == TierOf(p).Message() && a.colour == TierOf(p).Colour()
  {
    var t := TierOf(p);
    Assessment(RiskPercent(p), t.Label(), t.Message(), t.Colour())
  }

  /** `predict_risk`: assemble, scale the numeric columns, classify, report. */
  function PredictRisk(m: Request, scaler: Scaler, classifier: Classifier): (r: Result<Assessment>)
    ensures r.Ok? <==> Assemble(m).Ok?
    ensures r.Err? ==> r.error == Assemble(m).error
    ensures r.Ok? ==> Dist(r.value.riskPercent, 100.0 * classifier(Scale(Assemble(m).value, scaler))) <= 0.005
    ensures r.Ok? ==> r.value == Report(classifier(Scale(Assemble(m).value, scaler)))
  {
    match Assemble(m)
    case Err(e) => Err(e)
    case Ok(v) => Ok(Report(classifier(Scale(v, scaler))))
  }

  /** The handler: normalise, then `predict_risk`; any failure is a client error. */
  function Predict(data: Request, scaler: Scaler, classifier: Classifier): (r: Response)
    ensures r.ClientError? <==> Normalise(data).Err?
    ensures r.ClientError? ==> r.error == Normalise(data).error
    ensures r.Success? ==> Normalise(data).Ok? && PredictRisk(Normalise(data).value, scaler, classifier) == Ok(r.assessment)
  {
    match Normalise(data)
    case Err(e) => ClientError(e)
    case Ok(m) =>
      NormalisedAssembles(data);
      match PredictRisk(m, scaler, classifier)
      case Err(e) => ClientError(e)
      case Ok(a) => Success(a)
  }

  /** The label agrees with the shown percentage up to the thresholds: below
      20 is always low and above 65 always high, while a low label may show
      exactly 20 and a medium one exactly 65. */
  lemma LabelAgreesWithPercent(p: Probability)
    ensures Report(p).riskPercent < 20.0 ==> Report(p).riskLevel == "LOW RISK"
    ensures Report(p).riskLevel == "LOW RISK" ==> Report(p).riskPercent <= 20.0
    ensures 65.0 < Report(p).riskPercent ==> Report(p).riskLevel == "HIGH RISK"
    ensures Report(p).riskLevel == "HIGH RISK" ==> 65.0 <= Report(p).riskPercent
    ensures Report(p).riskLevel == "MEDIUM RISK" ==> 20.0 <= Report(p).riskPercent <= 65.0
  {
    var t := TierOf(p);
    assert Report(p).riskLevel == t.Label();
    assert Report(p).riskPercent == RiskPercent(p);
  }

  /** The reply can show a percentage on a threshold with the tier below it:
      0.199996 is reported as 20.0 and "LOW RISK", 0.649996 as 65.0 and
      "MEDIUM RISK". */
  lemma ShownPercentCanContradictLabel()
    ensures Report(0.199996).riskPercent == 20.0 && Report(0.199996).riskLevel == "LOW RISK"
    ensures Report(0.649996).riskPercent == 65.0 && Report(0.649996).riskLevel == "MEDIUM RISK"
  {
    ShownPercentCanReachThreshold();
  }

  // ---------------------------------------------------------------------------
  // Properties of the whole pipeline

  /** After normalisation every schema column holds a number, so assembling the
      frame never fails: the only client errors are coercion failures. */
  lemma NormalisedAssembles(data: Request)
    requires Normalise(data).Ok?
    ensures Assemble(Normalise(data).value).Ok?
  {
    ManagedIsSchema();
  }

  /** Two requests that agree on every field the normaliser reads (the pregnancy
      count aside, when neither request keeps it) normalise alike: the same
      verdict, the same error, and the same schema columns. */
  lemma NormaliseReadsOnlyManagedFields(a: Request, b: Request)
    requires forall k :: Managed(k) && k != PregnanciesField ==> (k in a <==> k in b)
    requires forall k :: Managed(k) && k != PregnanciesField && k in a ==> a[k] == b[k]
    requires (!FemaleWithCount(a) && !FemaleWithCount(b)) ||
             ((PregnanciesField in a <==> PregnanciesField in b) &&
              (PregnanciesField in a ==> a[PregnanciesField] == b[PregnanciesField]))
    ensures Normalise(a).Ok? <==> Normalise(b).Ok?
    ensures Normalise(a).Err? ==> Normalise(a).error == Normalise(b).error
    ensures Normalise(a).Ok? ==>
              forall k :: k in FinalFeatures ==>
                && (k in Normalise(a).value <==> k in Normalise(b).value)
                && (k in Normalise(a).value ==> Normalise(a).value[k] == Normalise(b).value[k])
  {
    HandlerListsAreSeparated();
    GroupsAreDisjoint();
    StepsReadOnlyTheirFields(a, b, YesNoFields, NumericFeatures);
    ManagedIsSchema();
  }

  /** Requests that normalise alike get the same reply. */
  lemma PredictReadsOnlyManagedFields(a: Request, b: Request, scaler: Scaler, classifier: Classifier)
    requires forall k :: Managed(k) && k != PregnanciesField ==> (k in a <==> k in b)
    requires forall k :: Managed(k) && k != PregnanciesField && k in a ==> a[k] == b[k]
    requires (!FemaleWithCount(a) && !FemaleWithCount(b)) ||
             ((PregnanciesField in a <==> PregnanciesField in b) &&
              (PregnanciesField in a ==> a[PregnanciesField] == b[PregnanciesField]))
    ensures Predict(a, scaler, classifier) == Predict(b, scaler, classifier)
  {
    NormaliseReadsOnlyManagedFields(a, b);
    if Normalise(a).Ok? {
      AssembleIgnoresOtherKeys(Normalise(a).value, Normalise(b).value);
    }
  }

  /** Fields outside the 16-column schema never change the reply. */
  lemma PredictIgnoresOtherFields(data: Request, k: string, v: Value, scaler: Scaler, classifier: Classifier)
    requires k !in FinalFeatures
    ensures Predict(data[k := v], scaler, classifier) == Predict(data, scaler, classifier)
  {
    ManagedIsSchema();
    PredictReadsOnlyManagedFields(data[k := v], data, scaler, classifier);
  }

  /** Unless the raw gender flag is 0, the pregnancy count (whatever it is,
      even text `int()` would reject) never changes the reply. */
  lemma PregnanciesIgnoredUnlessFemale(data: Request, v: Value, scaler: Scaler, classifier: Classifier)
    requires !(GenderField in data && GenderFlag(data[GenderField]) == 0)
    ensures Predict(data[PregnanciesField := v], scaler, classifier) == Predict(data, scaler, classifier)
  {
    GroupsAreDisjoint();
    PredictReadsOnlyManagedFields(data[PregnanciesField := v], data, scaler, classifier);
  }

  /** A numeric field that `float()` rejects makes the whole request a client
      error about a numeric field; no default is substituted. */
  lemma MalformedNumberIsRejected(data: Request, k: string, scaler: Scaler, classifier: Classifier)
    requires k in NumericFeatures && k in data && PyFloat(data[k]).None?
    ensures Predict(data, scaler, classifier).ClientError?
    ensures Predict(data, scaler, classifier).error.field in NumericFeatures + [PregnanciesField]
  {
  }

  /** For a subject whose raw gender flag is 0 and who sent a count, a count
      that `int()` rejects makes the request a client error about that field. */
  lemma MalformedCountIsRejected(data: Request, scaler: Scaler, classifier: Classifier)
    requires FemaleWithCount(data) && PyInt(data[PregnanciesField]).None?
    ensures Predict(data, scaler, classifier) == ClientError(CoercionFailed(PregnanciesField, ToInt))
  {
  }
}
