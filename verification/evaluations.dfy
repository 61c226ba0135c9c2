/** The gateway's stored answer (api_gateway routes.py): three models written as JSON and read back with
    the checks of their schemas. */
module Evaluations {
  import opened Base
  import opened Json
  import opened Idempotency

  datatype FeatureVector = FeatureVector(
    applicationId: string, requestedAmount: real, debtToIncome: real, amountToIncome: real,
    creditHistoryMonths: int, existingDefaults: int)

  datatype ScorePrediction = ScorePrediction(
    applicationId: string, requestedAmount: real, riskScore: real, modelVersion: string, reasonCodes: seq<string>)

  datatype DecisionResult = DecisionResult(
    applicationId: string, riskScore: real, decision: string, reasonCodes: seq<string>)

  datatype Evaluation = Evaluation(features: FeatureVector, score: ScorePrediction, decision: DecisionResult)

  predicate FeaturesOk(f: FeatureVector) {
    && |f.applicationId| >= 8 && f.requestedAmount > 0.0 && f.debtToIncome >= 0.0 && f.amountToIncome >= 0.0
    && f.creditHistoryMonths >= 0 && f.existingDefaults >= 0
  }

  predicate ScoreOk(s: ScorePrediction) {
    |s.applicationId| >= 8 && s.requestedAmount > 0.0 && 0.0 <= s.riskScore <= 1.0 && |s.modelVersion| >= 3
  }

  predicate DecisionOk(d: DecisionResult) {
    |d.applicationId| >= 8 && 0.0 <= d.riskScore <= 1.0 && d.decision in {"approve", "review", "decline"}
  }

  predicate EvaluationOk(e: Evaluation) {
    FeaturesOk(e.features) && ScoreOk(e.score) && DecisionOk(e.decision)
  }

  // ---- writing ----

  function Texts(items: seq<string>): seq<Json> {
    seq(|items|, i requires 0 <= i < |items| => Str(items[i]))
  }

  function DumpFeatures(f: FeatureVector): Fields {
    map["application_id" := Str(f.applicationId), "requested_amount" := Real(f.requestedAmount),
        "debt_to_income" := Real(f.debtToIncome), "amount_to_income" := Real(f.amountToIncome),
        "credit_history_months" := Int(f.creditHistoryMonths), "existing_defaults" := Int(f.existingDefaults)]
  }

  function DumpScore(s: ScorePrediction): Fields {
    map["application_id" := Str(s.applicationId), "requested_amount" := Real(s.requestedAmount),
        "risk_score" := Real(s.riskScore), "model_version" := Str(s.modelVersion), "reason_codes" := Arr(Texts(s.reasonCodes))]
  }

  function DumpDecision(d: DecisionResult): Fields {
    map["application_id" := Str(d.applicationId), "risk_score" := Real(d.riskScore),
        "decision" := Str(d.decision), "reason_codes" := Arr(Texts(d.reasonCodes))]
  }

  function Serialize(e: Evaluation): Fields {
    map["features" := Obj(DumpFeatures(e.features)), "score" := Obj(DumpScore(e.score)), "decision" := Obj(DumpDecision(e.decision))]
  }

  /** What is written under each member name. */
  lemma SerializedMembers(e: Evaluation)
    ensures var f, s, d := DumpFeatures(e.features), DumpScore(e.score), DumpDecision(e.decision);
      && Serialize(e) == map["features" := Obj(f), "score" := Obj(s), "decision" := Obj(d)]
      && f["application_id"] == Str(e.features.applicationId) && f["requested_amount"] == Real(e.features.requestedAmount)
      && f["debt_to_income"] == Real(e.features.debtToIncome) && f["amount_to_income"] == Real(e.features.amountToIncome)
      && f["credit_history_months"] == Int(e.features.creditHistoryMonths) && f["existing_defaults"] == Int(e.features.existingDefaults)
      && s["application_id"] == Str(e.score.applicationId) && s["requested_amount"] == Real(e.score.requestedAmount)
      && s["risk_score"] == Real(e.score.riskScore) && s["model_version"] == Str(e.score.modelVersion)
      && s["reason_codes"] == Arr(Texts(e.score.reasonCodes))
      && d["application_id"] == Str(e.decision.applicationId) && d["risk_score"] == Real(e.decision.riskScore)
      && d["decision"] == Str(e.decision.decision) && d["reason_codes"] == Arr(Texts(e.decision.reasonCodes))
  {
  }

  // ---- reading ----

  predicate HasStr(m: Fields, k: string) { k in m && m[k].Str? }

  predicate HasReal(m: Fields, k: string) { k in m && m[k].Real? }

  predicate HasInt(m: Fields, k: string) { k in m && m[k].Int? }

  predicate HasTexts(m: Fields, k: string) {
    k in m && m[k].Arr? && forall i | 0 <= i < |m[k].items| :: m[k].items[i].Str?
  }

  function ReadTexts(m: Fields, k: string): seq<string>
    requires HasTexts(m, k)
  {
    seq(|m[k].items|, i requires 0 <= i < |m[k].items| => m[k].items[i].s)
  }

  /** A model refuses members it does not know. */
  function ReadFeatures(j: Json): Option<FeatureVector> {
    if j.Obj? && j.fields.Keys <= {"application_id", "requested_amount", "debt_to_income", "amount_to_income",
                                   "credit_history_months", "existing_defaults"}
       && HasStr(j.fields, "application_id") && HasReal(j.fields, "requested_amount") && HasReal(j.fields, "debt_to_income")
       && HasReal(j.fields, "amount_to_income") && HasInt(j.fields, "credit_history_months") && HasInt(j.fields, "existing_defaults")
    then
      var f := FeatureVector(j.fields["application_id"].s, j.fields["requested_amount"].r, j.fields["debt_to_income"].r,
                             j.fields["amount_to_income"].r, j.fields["credit_history_months"].n, j.fields["existing_defaults"].n);
      if FeaturesOk(f) then Some(f) else None
    else None
  }

  function ReadScore(j: Json): Option<ScorePrediction> {
    if j.Obj? && j.fields.Keys <= {"application_id", "requested_amount", "risk_score", "model_version", "reason_codes"}
       && HasStr(j.fields, "application_id") && HasReal(j.fields, "requested_amount") && HasReal(j.fields, "risk_score")
       && HasStr(j.fields, "model_version") && HasTexts(j.fields, "reason_codes")
    then
      var s := ScorePrediction(j.fields["application_id"].s, j.fields["requested_amount"].r, j.fields["risk_score"].r,
                               j.fields["model_version"].s, ReadTexts(j.fields, "reason_codes"));
      if ScoreOk(s) then Some(s) else None
    else None
  }

  function ReadDecision(j: Json): Option<DecisionResult> {
    if j.Obj? && j.fields.Keys <= {"application_id", "risk_score", "decision", "reason_codes"}
       && HasStr(j.fields, "application_id") && HasReal(j.fields, "risk_score")
       && HasStr(j.fields, "decision") && HasTexts(j.fields, "reason_codes")
    then
      var d := DecisionResult(j.fields["application_id"].s, j.fields["risk_score"].r, j.fields["decision"].s,
                              ReadTexts(j.fields, "reason_codes"));
      if DecisionOk(d) then Some(d) else None
    else None
  }

  function Deserialize(m: Fields): (r: Result<Evaluation>)
    ensures r.Ok? ==> EvaluationOk(r.value)
  {
    if "features" in m && "score" in m && "decision" in m then
      var f, s, d := ReadFeatures(m["features"]), ReadScore(m["score"]), ReadDecision(m["decision"]);
      if f.Some? && s.Some? && d.Some? then Ok(Evaluation(f.value, s.value, d.value)) else Err(PAYLOAD_INVALID)
    else Err(PAYLOAD_INVALID)
  }

  lemma TextsBack(items: seq<string>, m: Fields, k: string)
    requires k in m && m[k] == Arr(Texts(items))
    ensures HasTexts(m, k) && ReadTexts(m, k) == items
  {
  }

  lemma FeaturesBack(f: FeatureVector)
    requires FeaturesOk(f)
    ensures ReadFeatures(Obj(DumpFeatures(f))) == Some(f)
  {
  }

  lemma ScoreBack(s: ScorePrediction)
    requires ScoreOk(s)
    ensures ReadScore(Obj(DumpScore(s))) == Some(s)
  {
    TextsBack(s.reasonCodes, DumpScore(s), "reason_codes");
  }

  lemma DecisionBack(d: DecisionResult)
    requires DecisionOk(d)
    ensures ReadDecision(Obj(DumpDecision(d))) == Some(d)
  {
    TextsBack(d.reasonCodes, DumpDecision(d), "reason_codes");
  }

  /** What is stored for a valid evaluation reads back as that evaluation. */
  lemma DeserializeSerialize(e: Evaluation)
    requires EvaluationOk(e)
    ensures Deserialize(Serialize(e)) == Ok(e)
  {
    FeaturesBack(e.features);
    ScoreBack(e.score);
    DecisionBack(e.decision);
  }
}
