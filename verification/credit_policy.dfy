/** The credit policy (shared_kernel credit_policy.py): feature ratios, penalty score, decision thresholds. */
module CreditPolicy {
  import opened Base
  import opened Evaluations

  datatype ApplicationInput = ApplicationInput(
    applicationId: string, applicantId: string, monthlyIncome: real, monthlyDebt: real, requestedAmount: real,
    creditHistoryMonths: int, existingDefaults: int)
  {
    predicate Valid() {
      && |applicationId| >= 8 && |applicantId| >= 8 && monthlyIncome > 0.0 && monthlyDebt >= 0.0 && requestedAmount > 0.0
      && creditHistoryMonths >= 0 && existingDefaults >= 0
    }
  }

  datatype Policy = Policy(
    modelVersion: string, baseline: real, highDti: real, highDtiPenalty: real, highRatio: real, highRatioPenalty: real,
    shortHistoryMonths: int, shortHistoryPenalty: real, priorDefaultPenalty: real, decline: real, review: real)
  {
    /** The checks of __post_init__. */
    predicate Valid() {
      && (forall v | v in [baseline, highDti, highDtiPenalty, highRatio, highRatioPenalty, shortHistoryPenalty,
                           priorDefaultPenalty, decline, review] :: 0.0 <= v <= 1.0)
      && shortHistoryMonths >= 0 && review <= decline
    }
  }

  const DEFAULT_POLICY := Policy("baseline_lr_v1", 0.15, 0.45, 0.35, 0.35, 0.25, 18, 0.20, 0.30, 0.70, 0.45)

  function Materialized(a: ApplicationInput): FeatureVector
    requires a.monthlyIncome > 0.0
  {
    FeatureVector(a.applicationId, a.requestedAmount, a.monthlyDebt / a.monthlyIncome,
                  a.requestedAmount / (a.monthlyIncome * 12.0), a.creditHistoryMonths, a.existingDefaults)
  }

  function Clamped(x: real): real {
    if x < 0.0 then 0.0 else if x > 1.0 then 1.0 else x
  }

  function When(flag: bool, penalty: real): real {
    if flag then penalty else 0.0
  }

  function RawScore(f: FeatureVector, p: Policy): real {
    p.baseline + When(f.debtToIncome > p.highDti, p.highDtiPenalty) + When(f.amountToIncome > p.highRatio, p.highRatioPenalty)
    + When(f.creditHistoryMonths < p.shortHistoryMonths, p.shortHistoryPenalty) + When(f.existingDefaults > 0, p.priorDefaultPenalty)
  }

  function Tag(flag: bool, code: string): seq<string> {
    if flag then [code] else []
  }

  /** The codes of the penalties that apply, in the policy's order. */
  function Reasons(f: FeatureVector, p: Policy): seq<string> {
    Tag(f.debtToIncome > p.highDti, "HIGH_DTI") + Tag(f.amountToIncome > p.highRatio, "HIGH_REQUEST_RATIO")
    + Tag(f.creditHistoryMonths < p.shortHistoryMonths, "SHORT_HISTORY") + Tag(f.existingDefaults > 0, "PRIOR_DEFAULT")
  }

  /** The codes of the marks that apply, in order, or the one for none. */
  predicate Lists(codes: seq<string>, debt: bool, request: bool, short: bool, defaulted: bool) {
    var marks := (if debt then ["HIGH_DTI"] else []) + (if request then ["HIGH_REQUEST_RATIO"] else [])
      + (if short then ["SHORT_HISTORY"] else []) + (if defaulted then ["PRIOR_DEFAULT"] else []);
    codes == if !debt && !request && !short && !defaulted then ["LOW_RISK_PROFILE"] else marks
  }

  /** score_application: the clamped sum of the penalties that apply, with their codes, or the one code that
      says none does. */
  method ScoreApplication(f: FeatureVector, p: Policy) returns (s: ScorePrediction)
    ensures s.riskScore == Clamped(RawScore(f, p)) && 0.0 <= s.riskScore <= 1.0
    ensures var raw := p.baseline
        + (if f.debtToIncome > p.highDti then p.highDtiPenalty else 0.0)
        + (if f.amountToIncome > p.highRatio then p.highRatioPenalty else 0.0)
        + (if f.creditHistoryMonths < p.shortHistoryMonths then p.shortHistoryPenalty else 0.0)
        + (if f.existingDefaults > 0 then p.priorDefaultPenalty else 0.0);
      s.riskScore == if raw <= 0.0 then 0.0 else if raw >= 1.0 then 1.0 else raw
    ensures Lists(s.reasonCodes, f.debtToIncome > p.highDti, f.amountToIncome > p.highRatio,
                  f.creditHistoryMonths < p.shortHistoryMonths, f.existingDefaults > 0)
    ensures s.applicationId == f.applicationId && s.requestedAmount == f.requestedAmount && s.modelVersion == p.modelVersion
    ensures s.reasonCodes == if Reasons(f, p) == [] then ["LOW_RISK_PROFILE"] else Reasons(f, p)
  {
    var risk := p.baseline;
    var codes: seq<string> := [];
    if f.debtToIncome > p.highDti {
      risk := risk + p.highDtiPenalty;
      codes := codes + ["HIGH_DTI"];
    }
    assert codes == Tag(f.debtToIncome > p.highDti, "HIGH_DTI");
    if f.amountToIncome > p.highRatio {
      risk := risk + p.highRatioPenalty;
      codes := codes + ["HIGH_REQUEST_RATIO"];
    }
    if f.creditHistoryMonths < p.shortHistoryMonths {
      risk := risk + p.shortHistoryPenalty;
      codes := codes + ["SHORT_HISTORY"];
    }
    if f.existingDefaults > 0 {
      risk := risk + p.priorDefaultPenalty;
      codes := codes + ["PRIOR_DEFAULT"];
    }
    assert codes == Reasons(f, p);
    if |codes| == 0 {
      codes := ["LOW_RISK_PROFILE"];
    }
    var bounded := if risk < 0.0 then 0.0 else risk;
    bounded := if bounded > 1.0 then 1.0 else bounded;
    s := ScorePrediction(f.applicationId, f.requestedAmount, bounded, p.modelVersion, codes);
  }

  function Decision(score: real, p: Policy): string {
    if score >= p.decline then "decline" else if score >= p.review then "review" else "approve"
  }

  function Decided(applicationId: string, score: real, codes: seq<string>, p: Policy): DecisionResult {
    var policyCode :=
      if score >= p.decline then "POLICY_DECLINE_THRESHOLD"
      else if score >= p.review then "POLICY_MANUAL_REVIEW" else "POLICY_AUTO_APPROVE";
    DecisionResult(applicationId, score, Decision(score, p), codes + [policyCode])
  }

  /** How far a decision is from approval. */
  function Severity(decision: string): nat {
    if decision == "approve" then 0 else if decision == "review" then 1 else 2
  }

  // ---- the default policy ----

  predicate HighDti(f: FeatureVector, p: Policy) {
    f.debtToIncome > p.highDti
  }

  predicate HighRatio(f: FeatureVector, p: Policy) {
    f.amountToIncome > p.highRatio
  }

  predicate ShortHistory(f: FeatureVector, p: Policy) {
    f.creditHistoryMonths < p.shortHistoryMonths
  }

  /** The default policy passes its own checks. In exact arithmetic it declines a high debt ratio with any
      other mark, or a high request with a default; it approves at most one of a high request and a short
      history, and everything else goes to review. */
  lemma DefaultDecisions(f: FeatureVector)
    ensures DEFAULT_POLICY.Valid()
    ensures var d, r := HighDti(f, DEFAULT_POLICY), HighRatio(f, DEFAULT_POLICY);
      var h, b := ShortHistory(f, DEFAULT_POLICY), f.existingDefaults > 0;
      var decision := Decision(Clamped(RawScore(f, DEFAULT_POLICY)), DEFAULT_POLICY);
      && (decision == "decline" <==> (d && (r || h || b)) || (r && b))
      && (decision == "approve" <==> !d && !b && !(r && h))
  {
    DecisionWords();
  }

  // ---- monotonicity ----

  /** b is at least as risky as a in every input, and strictly nothing is safer. */
  predicate Riskier(a: ApplicationInput, b: ApplicationInput) {
    && a.monthlyDebt <= b.monthlyDebt && a.requestedAmount <= b.requestedAmount && a.existingDefaults <= b.existingDefaults
    && b.monthlyIncome <= a.monthlyIncome && b.creditHistoryMonths <= a.creditHistoryMonths
  }

  lemma Scale(q: real, r: real, n: real)
    requires q > r && n > 0.0
    ensures q * n > r * n
  {
  }

  lemma Widen(q: real, n: real, m: real)
    requires q >= 0.0 && n <= m
    ensures q * n <= q * m
  {
  }

  lemma RatioMonotone(x: real, y: real, m: real, n: real)
    requires 0.0 <= x <= y && 0.0 < n <= m
    ensures 0.0 <= x / m <= y / n
  {
    var q, r := x / m, y / n;
    assert q * m == x && r * n == y;
    if q < 0.0 {
      Scale(0.0, q, m);
    }
    if q > r {
      Widen(q, n, m);
      Scale(q, r, n);
    }
  }

  lemma FeaturesMonotone(a: ApplicationInput, b: ApplicationInput)
    requires a.Valid() && b.Valid() && Riskier(a, b)
    ensures var f, g := Materialized(a), Materialized(b);
      && 0.0 <= f.debtToIncome <= g.debtToIncome && 0.0 <= f.amountToIncome <= g.amountToIncome
      && f.existingDefaults <= g.existingDefaults && g.creditHistoryMonths <= f.creditHistoryMonths
  {
    RatioMonotone(a.monthlyDebt, b.monthlyDebt, a.monthlyIncome, b.monthlyIncome);
    RatioMonotone(a.requestedAmount, b.requestedAmount, a.monthlyIncome * 12.0, b.monthlyIncome * 12.0);
  }

  lemma PenaltyMonotone(x: bool, y: bool, penalty: real)
    requires (x ==> y) && penalty >= 0.0
    ensures When(x, penalty) <= When(y, penalty)
  {
  }

  lemma PenaltiesValid(p: Policy)
    requires p.Valid()
    ensures p.highDtiPenalty >= 0.0 && p.highRatioPenalty >= 0.0 && p.shortHistoryPenalty >= 0.0 && p.priorDefaultPenalty >= 0.0
  {
    var values := [p.baseline, p.highDti, p.highDtiPenalty, p.highRatio, p.highRatioPenalty, p.shortHistoryPenalty,
                   p.priorDefaultPenalty, p.decline, p.review];
    assert values[2] in values && values[4] in values && values[5] in values && values[6] in values;
  }

  /** Under every valid policy, more debt, a larger request, more defaults, less income or a shorter history
      never lowers the score, never drops a reason, and never moves the decision towards approval. */
  lemma RiskIsMonotone(a: ApplicationInput, b: ApplicationInput, p: Policy)
    requires a.Valid() && b.Valid() && Riskier(a, b) && p.Valid()
    ensures var x, y := Clamped(RawScore(Materialized(a), p)), Clamped(RawScore(Materialized(b), p));
      x <= y && Severity(Decision(x, p)) <= Severity(Decision(y, p))
    ensures forall code | code in Reasons(Materialized(a), p) :: code in Reasons(Materialized(b), p)
  {
    var f, g := Materialized(a), Materialized(b);
    FeaturesMonotone(a, b);
    PenaltiesValid(p);
    PenaltyMonotone(f.debtToIncome > p.highDti, g.debtToIncome > p.highDti, p.highDtiPenalty);
    PenaltyMonotone(f.amountToIncome > p.highRatio, g.amountToIncome > p.highRatio, p.highRatioPenalty);
    PenaltyMonotone(f.creditHistoryMonths < p.shortHistoryMonths, g.creditHistoryMonths < p.shortHistoryMonths, p.shortHistoryPenalty);
    PenaltyMonotone(f.existingDefaults > 0, g.existingDefaults > 0, p.priorDefaultPenalty);
    DecisionMonotone(Clamped(RawScore(f, p)), Clamped(RawScore(g, p)), p);
  }

  lemma DecisionMonotone(x: real, y: real, p: Policy)
    requires x <= y && p.review <= p.decline
    ensures Severity(Decision(x, p)) <= Severity(Decision(y, p))
  {
    DecisionWords();
  }

  lemma DecisionWords()
    ensures "approve" != "review" && "review" != "decline" && "approve" != "decline"
  {
    assert "approve"[0] != "review"[0] && "review"[0] != "decline"[0] && "approve"[0] != "decline"[0];
  }

  /** The whole chain stays inside the message schemas: a valid application gives valid features, and they a
      valid score and decision. */
  method EvaluateCredit(a: ApplicationInput, p: Policy) returns (e: Evaluation)
    requires a.Valid() && p.Valid() && |p.modelVersion| >= 3
    ensures EvaluationOk(e)
    ensures e.features == Materialized(a)
    ensures e.score.riskScore == Clamped(RawScore(e.features, p)) == e.decision.riskScore
    ensures e.decision.decision == Decision(e.score.riskScore, p)
    ensures e.decision.applicationId == a.applicationId == e.score.applicationId == e.features.applicationId
    ensures e.features.debtToIncome * a.monthlyIncome == a.monthlyDebt
    ensures e.features.amountToIncome * (a.monthlyIncome * 12.0) == a.requestedAmount == e.features.requestedAmount
    ensures e.features.creditHistoryMonths == a.creditHistoryMonths && e.features.existingDefaults == a.existingDefaults
    ensures e.score.riskScore >= p.decline ==>
      e.decision.decision == "decline" && e.decision.reasonCodes == e.score.reasonCodes + ["POLICY_DECLINE_THRESHOLD"]
    ensures p.review <= e.score.riskScore < p.decline ==>
      e.decision.decision == "review" && e.decision.reasonCodes == e.score.reasonCodes + ["POLICY_MANUAL_REVIEW"]
    ensures e.score.riskScore < p.review ==>
      e.decision.decision == "approve" && e.decision.reasonCodes == e.score.reasonCodes + ["POLICY_AUTO_APPROVE"]
  {
    var features := Materialized(a);
    FeaturesMonotone(a, a);
    var score := ScoreApplication(features, p);
    var decision := Decided(score.applicationId, score.riskScore, score.reasonCodes, p);
    e := Evaluation(features, score, decision);
  }
}
