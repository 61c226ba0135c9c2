/** The default credit policy's functions in the arithmetic they are written for: IEEE 754 binary64, round to nearest,
    ties to even (sections 3.3 and 4.3.1 of IEEE 754-2008). Values are whole numbers of 2^-56. */
module CreditRounding {
  import opened Evaluations
  import opened CreditPolicy

  const ONE: int := 0x100_0000_0000_0000

  /** The multiple of the unit nearest to n / d, ties to the even multiple. */
  function Nearest(n: int, d: int, unit: int): int
    requires d > 0 && unit > 0
  {
    var q, rest := n / (d * unit), n % (d * unit);
    if 2 * rest < d * unit || (2 * rest == d * unit && q % 2 == 0) then q * unit else (q + 1) * unit
  }

  /** The spacing of binary64 numbers at n / d, for values from 1/8 to 2. */
  function Spacing(n: int, d: int): (unit: int)
    ensures unit > 0
  {
    if 4 * n < d * ONE then 2 else if 2 * n < d * ONE then 4 else if n < d * ONE then 8 else 16
  }

  function Rounded(n: int, d: int): int
    requires d > 0
  {
    Nearest(n, d, Spacing(n, d))
  }

  /** The binary64 value of a decimal constant in hundredths. */
  function Hundredths(h: int): int {
    Rounded(h * ONE, 100)
  }

  /** risk_score += penalty. */
  function Plus(risk: int, flag: bool, penalty: int): int {
    if flag then Rounded(risk + Hundredths(penalty), 1) else risk
  }

  /** The score of the default policy in hundredths, exactly and as computed. */
  function ExactScore(d: bool, r: bool, h: bool, b: bool): int {
    15 + (if d then 35 else 0) + (if r then 25 else 0) + (if h then 20 else 0) + (if b then 30 else 0)
  }

  function ComputedScore(d: bool, r: bool, h: bool, b: bool): int {
    var score := Plus(Plus(Plus(Plus(Hundredths(15), d, 35), r, 25), h, 20), b, 30);
    if score > ONE then ONE else score
  }

  /** decide_credit on the exact score and on the computed one. */
  function ExactDecision(score: int): string {
    if score >= 70 then "decline" else if score >= 45 then "review" else "approve"
  }

  function ComputedDecision(score: int): string {
    if score >= Hundredths(70) then "decline" else if score >= Hundredths(45) then "review" else "approve"
  }

  /** The exact score here is that of the policy. */
  lemma ExactIsPolicy(f: FeatureVector)
    ensures var score := ExactScore(HighDti(f, DEFAULT_POLICY), HighRatio(f, DEFAULT_POLICY), ShortHistory(f, DEFAULT_POLICY),
                                    f.existingDefaults > 0);
      && RawScore(f, DEFAULT_POLICY) == score as real / 100.0
      && Decision(Clamped(RawScore(f, DEFAULT_POLICY)), DEFAULT_POLICY) == ExactDecision(score)
  {
  }

  // ---- away from the thresholds rounding is too small to matter ----

  predicate Near(computed: int, exact: int, error: int) {
    -100 * error <= 100 * computed - exact * ONE <= 100 * error
  }

  lemma NearestIsNear(n: int, d: int, unit: int)
    requires d > 0 && unit > 0
    ensures -d * unit <= 2 * (d * Nearest(n, d, unit) - n) <= d * unit
  {
    var q, rest := n / (d * unit), n % (d * unit);
    assert n == q * (d * unit) + rest;
    assert d * (q * unit) == q * (d * unit);
    assert d * ((q + 1) * unit) == q * (d * unit) + d * unit;
  }

  lemma HundredthsNear(h: int)
    ensures Near(Hundredths(h), h, 8)
  {
    NearestIsNear(h * ONE, 100, Spacing(h * ONE, 100));
  }

  lemma PlusNear(risk: int, exact: int, error: nat, flag: bool, penalty: int)
    requires Near(risk, exact, error)
    ensures Near(Plus(risk, flag, penalty), exact + (if flag then penalty else 0), error + 16)
  {
    HundredthsNear(penalty);
    NearestIsNear(risk + Hundredths(penalty), 1, Spacing(risk + Hundredths(penalty), 1));
  }

  lemma SumNear(d: bool, r: bool, h: bool, b: bool)
    ensures Near(Plus(Plus(Plus(Plus(Hundredths(15), d, 35), r, 25), h, 20), b, 30), ExactScore(d, r, h, b), 72)
  {
    HundredthsNear(15);
    PlusNear(Hundredths(15), 15, 8, d, 35);
    var s1, e1 := Plus(Hundredths(15), d, 35), 15 + (if d then 35 else 0);
    PlusNear(s1, e1, 24, r, 25);
    var s2, e2 := Plus(s1, r, 25), e1 + (if r then 25 else 0);
    PlusNear(s2, e2, 40, h, 20);
    PlusNear(Plus(s2, h, 20), e2 + (if h then 20 else 0), 56, b, 30);
  }

  /** A score at least a hundredth away from both thresholds gets the decision of its exact value. */
  lemma NearDecides(computed: int, exact: int)
    requires Near(computed, exact, 72) && exact != 45 && exact != 70
    ensures ComputedDecision(if computed > ONE then ONE else computed) == ExactDecision(exact)
  {
    HundredthsNear(70);
    HundredthsNear(45);
  }

  // ---- on the thresholds it decides ----

  lemma Constants()
    ensures Hundredths(15) == 0x26_6666_6666_6666 && Hundredths(30) == 0x4c_cccc_cccc_cccc
    ensures Hundredths(45) == 0x73_3333_3333_3334 && Hundredths(70) == 0xb3_3333_3333_3330
  {
  }

  lemma OtherConstants()
    ensures Hundredths(35) == 0x59_9999_9999_9998 && Hundredths(20) == 0x33_3333_3333_3334
    ensures Hundredths(25) == 0x40_0000_0000_0000
  {
  }

  lemma Sums()
    ensures Rounded(0x26_6666_6666_6666 + 0x4c_cccc_cccc_cccc, 1) == 0x73_3333_3333_3330
    ensures Rounded(0x26_6666_6666_6666 + 0x59_9999_9999_9998, 1) == 0x80_0000_0000_0000
    ensures Rounded(0x80_0000_0000_0000 + 0x33_3333_3333_3334, 1) == 0xb3_3333_3333_3330
  {
  }

  lemma OtherSums()
    ensures Rounded(0x26_6666_6666_6666 + 0x40_0000_0000_0000, 1) == 0x66_6666_6666_6668
    ensures Rounded(0x66_6666_6666_6668 + 0x4c_cccc_cccc_cccc, 1) == 0xb3_3333_3333_3330
  {
  }

  lemma OnTheThresholds()
    ensures ComputedScore(false, false, false, true) == 0x73_3333_3333_3330
    ensures ComputedScore(true, false, true, false) == 0xb3_3333_3333_3330
    ensures ComputedScore(false, true, false, true) == 0xb3_3333_3333_3330
  {
    Constants();
    OtherConstants();
    Sums();
    OtherSums();
  }

  /** Rounding changes the decision exactly for an applicant whose only mark is a prior default: the exact
      score meets the review threshold, the computed one falls short of it and the decision is approve. */
  lemma RoundingFlipsIff(d: bool, r: bool, h: bool, b: bool)
    ensures ComputedDecision(ComputedScore(d, r, h, b)) != ExactDecision(ExactScore(d, r, h, b)) <==> b && !d && !r && !h
    ensures ExactDecision(ExactScore(false, false, false, true)) == "review"
    ensures ComputedDecision(ComputedScore(false, false, false, true)) == "approve"
  {
    DecisionWords();
    Constants();
    OnTheThresholds();
    if ExactScore(d, r, h, b) != 45 && ExactScore(d, r, h, b) != 70 {
      SumNear(d, r, h, b);
      NearDecides(Plus(Plus(Plus(Plus(Hundredths(15), d, 35), r, 25), h, 20), b, 30), ExactScore(d, r, h, b));
    }
  }
}
