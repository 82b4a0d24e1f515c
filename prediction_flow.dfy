/** The derivation step of AgeWell's prediction flow: from four integer vitals and the
    classifier's (integer) prediction it derives the risk label, the heuristic health
    score and the pair of recommendation strings. The classifier itself is opaque and
    appears here only as its output `pred`. */
module PredictionFlow {

  /** The four integer vitals the form collects. */
  datatype Vitals = Vitals(age: int, heartRate: int, systolicBp: int, cholesterol: int)

  /** The bounds the form's number inputs enforce. */
  predicate InFormRange(v: Vitals) {
    && 40 <= v.age <= 120
    && 30 <= v.heartRate <= 200
    && 80 <= v.systolicBp <= 250
    && 100 <= v.cholesterol <= 400
  }

  // ---------------------------------------------------------------------------
  // Risk label

  const HIGH_RISK_LABEL: string := "High Risk"
  const LOW_RISK_LABEL: string := "Low Risk"

  /** The prediction class the classifier uses for "high risk". */
  const HIGH_RISK_CLASS := 1

  /** The label shown and stored for a prediction: high risk exactly for class 1. */
  function RiskLabel(pred: int): (shown: string)
    ensures shown == HIGH_RISK_LABEL <==> pred == HIGH_RISK_CLASS
    ensures shown == LOW_RISK_LABEL <==> pred != HIGH_RISK_CLASS
  {
    if pred == HIGH_RISK_CLASS then HIGH_RISK_LABEL else LOW_RISK_LABEL
  }

  // ---------------------------------------------------------------------------
  // Recommendations

  /** A food plan and an exercise plan. */
  datatype Plan = Plan(food: string, exercise: string)

  const HIGH_RISK_PLAN := Plan(
    "Low-fat diet: oats, fruits, grilled veggies, avoid fried food.",
    "Walk 30 min, breathing & light yoga.")
  const LOW_RISK_PLAN := Plan(
    "Balanced diet: milk, nuts, rice, dal, vegetables.",
    "Light jog, stretching, 20 min walk.")

  /** The two canned pairs are different. */
  lemma PlansDiffer()
    ensures HIGH_RISK_PLAN != LOW_RISK_PLAN
  {
  }

  /** The canned recommendation pair chosen by the prediction. */
  function Recommendation(pred: int): (plan: Plan)
    ensures plan == HIGH_RISK_PLAN <==> pred == HIGH_RISK_CLASS
    ensures plan == LOW_RISK_PLAN <==> pred != HIGH_RISK_CLASS
  {
    PlansDiffer();
    if pred == HIGH_RISK_CLASS then HIGH_RISK_PLAN else LOW_RISK_PLAN
  }

  /** The recommendation always agrees with the risk label shown beside it. */
  lemma RecommendationAgreesWithLabel(pred: int)
    ensures Recommendation(pred) == HIGH_RISK_PLAN <==> RiskLabel(pred) == HIGH_RISK_LABEL
    ensures Recommendation(pred) == LOW_RISK_PLAN <==> RiskLabel(pred) == LOW_RISK_LABEL
  {
  }

  /** Predictions with the same label get the same recommendation: nothing but the
      prediction class decides it. */
  lemma RecommendationDependsOnlyOnLabel(p: int, q: int)
    requires RiskLabel(p) == RiskLabel(q)
    ensures Recommendation(p) == Recommendation(q)
  {
  }

  // ---------------------------------------------------------------------------
  // Health score: the penalty rules as a reference table

  const BP_LIMIT := 140
  const CHOLESTEROL_LIMIT := 220
  const HEART_RATE_LIMIT := 100
  const AGE_LIMIT := 70

  const CARDIO_PENALTY := 30
  const HEART_RATE_PENALTY := 20
  const AGE_PENALTY := 10
  const HIGH_RISK_PENALTY := 20

  const FULL_SCORE := 100

  /** One of the four fixed penalty rules. */
  datatype Rule = CardioRule | HeartRateRule | AgeRule | HighRiskRule

  const PENALTY_RULES: seq<Rule> := [CardioRule, HeartRateRule, AgeRule, HighRiskRule]

  function Amount(r: Rule): nat {
    match r
    case CardioRule => CARDIO_PENALTY
    case HeartRateRule => HEART_RATE_PENALTY
    case AgeRule => AGE_PENALTY
    case HighRiskRule => HIGH_RISK_PENALTY
  }

  /** Whether a rule's (strict) threshold is breached: the four conditions of app.py
      lines 120, 122, 124 and 126. */
  predicate Fires(r: Rule, v: Vitals, pred: int) {
    match r
    case CardioRule => v.systolicBp > BP_LIMIT || v.cholesterol > CHOLESTEROL_LIMIT
    case HeartRateRule => v.heartRate > HEART_RATE_LIMIT
    case AgeRule => v.age > AGE_LIMIT
    case HighRiskRule => pred == HIGH_RISK_CLASS
  }

  /** Total of the amounts of a list of rules; every amount is a multiple of 10. */
  function SumAmounts(rules: seq<Rule>): (total: nat)
    ensures total % 10 == 0
  {
    if rules == [] then 0 else Amount(rules[0]) + SumAmounts(rules[1..])
  }

  /** The rules of `rules` that fire, in order; they never add up to more than all of them. */
  function Triggered(rules: seq<Rule>, v: Vitals, pred: int): (fired: seq<Rule>)
    ensures forall r :: r in fired <==> r in rules && Fires(r, v, pred)
    ensures SumAmounts(fired) <= SumAmounts(rules)
  {
    if rules == [] then []
    else
      var rest := Triggered(rules[1..], v, pred);
      if Fires(rules[0], v, pred) then [rules[0]] + rest else rest
  }

  lemma AllRulesTotal()
    ensures SumAmounts(PENALTY_RULES) == 80
  {
  }

  /** The total penalty: the sum of the amounts of the rules that fire. */
  function Penalty(v: Vitals, pred: int): (p: nat)
    ensures p <= 80 && p % 10 == 0
  {
    AllRulesTotal();
    SumAmounts(Triggered(PENALTY_RULES, v, pred))
  }

  /** Reference definition of the health score: full marks minus the triggered penalties. */
  function Score(v: Vitals, pred: int): (s: int)
    ensures 20 <= s <= FULL_SCORE && s % 10 == 0
  {
    FULL_SCORE - Penalty(v, pred)
  }

  /** The penalty rule by rule: each rule contributes its amount exactly when it fires. */
  lemma {:induction false} PenaltyBreakdown(v: Vitals, pred: int)
    ensures Penalty(v, pred)
         == (if Fires(CardioRule, v, pred) then CARDIO_PENALTY else 0)
          + (if Fires(HeartRateRule, v, pred) then HEART_RATE_PENALTY else 0)
          + (if Fires(AgeRule, v, pred) then AGE_PENALTY else 0)
          + (if Fires(HighRiskRule, v, pred) then HIGH_RISK_PENALTY else 0)
  {
    var rs := PENALTY_RULES;
    assert rs[1..] == [HeartRateRule, AgeRule, HighRiskRule];
    assert rs[1..][1..] == [AgeRule, HighRiskRule];
    assert rs[1..][1..][1..] == [HighRiskRule];
    assert rs[1..][1..][1..][1..] == [];
    var t3 := Triggered(rs[1..][1..][1..], v, pred);
    var t2 := Triggered(rs[1..][1..], v, pred);
    var t1 := Triggered(rs[1..], v, pred);
    var t0 := Triggered(rs, v, pred);
    assert SumAmounts(t3) == (if Fires(HighRiskRule, v, pred) then HIGH_RISK_PENALTY else 0) by {
      if Fires(HighRiskRule, v, pred) { assert t3[1..] == []; }
    }
    if Fires(AgeRule, v, pred) { assert t2[1..] == t3; }
    if Fires(HeartRateRule, v, pred) { assert t1[1..] == t2; }
    if Fires(CardioRule, v, pred) { assert t0[1..] == t1; }
  }

  function Max(a: int, b: int): int {
    if a >= b then a else b
  }

  /** The step-by-step accumulator of the prediction flow, including its final
      `max(0, ...)` clamp; it computes exactly the reference score. */
  method HealthScore(v: Vitals, pred: int) returns (score: int)
    ensures score == Score(v, pred)
  {
    score := FULL_SCORE;
    if v.systolicBp > BP_LIMIT || v.cholesterol > CHOLESTEROL_LIMIT {
      score := score - CARDIO_PENALTY;
    }
    if v.heartRate > HEART_RATE_LIMIT {
      score := score - HEART_RATE_PENALTY;
    }
    if v.age > AGE_LIMIT {
      score := score - AGE_PENALTY;
    }
    if pred == HIGH_RISK_CLASS {
      score := score - HIGH_RISK_PENALTY;
    }
    PenaltyBreakdown(v, pred);
    score := Max(0, score);
  }

  /** The penalties add up to at most 80, so the `max(0, ...)` clamp never changes the score. */
  lemma ClampNeverActive(v: Vitals, pred: int)
    ensures Max(0, FULL_SCORE - Penalty(v, pred)) == FULL_SCORE - Penalty(v, pred)
    ensures Max(0, FULL_SCORE - Penalty(v, pred)) >= 20
  {
  }

  /** Exactly the multiples of 10 from 20 to 100 are the score of some vitals inside the
      form's ranges together with some classifier output. */
  lemma {:induction false} AttainableScores(s: int)
    ensures (exists v: Vitals, pred: int :: InFormRange(v) && Score(v, pred) == s)
        <==> 20 <= s <= FULL_SCORE && s % 10 == 0
  {
    if 20 <= s <= FULL_SCORE && s % 10 == 0 {
      var k := (FULL_SCORE - s) / 10;
      var highRisk := k >= 7;
      var m0 := if highRisk then k - 2 else k;
      var cardio := m0 >= 3;
      var m1 := if cardio then m0 - 3 else m0;
      var fast := m1 >= 2;
      var m2 := if fast then m1 - 2 else m1;
      var elderly := m2 >= 1;
      var v := Vitals(if elderly then 75 else 60, if fast then 120 else 80,
                      if cardio then 160 else 120, 200);
      var pred := if highRisk then HIGH_RISK_CLASS else 0;
      PenaltyBreakdown(v, pred);
      assert InFormRange(v) && Score(v, pred) == s;
    }
  }

  /** Which scores need which classifier output: a prediction other than 1 scores at
      least 40, so 20 and 30 need class 1; class 1 scores at most 80, so 90 and 100
      need any other class. */
  lemma {:induction false} ScoreByPrediction(v: Vitals, pred: int)
    ensures pred != HIGH_RISK_CLASS ==> Score(v, pred) >= 40
    ensures pred == HIGH_RISK_CLASS ==> Score(v, pred) <= 80
  {
    PenaltyBreakdown(v, pred);
  }

  /** The blood-pressure/cholesterol penalty is one penalty of 30, never 60: with both
      breached, removing either breach leaves the score unchanged, removing both adds 30. */
  lemma {:induction false} CardioPenaltyTakenOnce(v: Vitals, pred: int)
    requires v.systolicBp > BP_LIMIT && v.cholesterol > CHOLESTEROL_LIMIT
    ensures Score(v, pred) == Score(v.(systolicBp := BP_LIMIT), pred)
    ensures Score(v, pred) == Score(v.(cholesterol := CHOLESTEROL_LIMIT), pred)
    ensures Score(v.(systolicBp := BP_LIMIT, cholesterol := CHOLESTEROL_LIMIT), pred)
         == Score(v, pred) + CARDIO_PENALTY
  {
    PenaltyBreakdown(v, pred);
    PenaltyBreakdown(v.(systolicBp := BP_LIMIT), pred);
    PenaltyBreakdown(v.(cholesterol := CHOLESTEROL_LIMIT), pred);
    PenaltyBreakdown(v.(systolicBp := BP_LIMIT, cholesterol := CHOLESTEROL_LIMIT), pred);
  }

  /** The thresholds are strict, for every input: moving a vital from its limit to one above
      it costs exactly that rule's penalty (for BP and cholesterol, when the other of the
      two is not already over its own limit). */
  lemma {:induction false} ThresholdsStrict(v: Vitals, pred: int)
    ensures Score(v.(age := AGE_LIMIT), pred)
         == Score(v.(age := AGE_LIMIT + 1), pred) + AGE_PENALTY
    ensures Score(v.(heartRate := HEART_RATE_LIMIT), pred)
         == Score(v.(heartRate := HEART_RATE_LIMIT + 1), pred) + HEART_RATE_PENALTY
    ensures v.cholesterol <= CHOLESTEROL_LIMIT ==>
      (Score(v.(systolicBp := BP_LIMIT), pred)
       == Score(v.(systolicBp := BP_LIMIT + 1), pred) + CARDIO_PENALTY)
    ensures v.systolicBp <= BP_LIMIT ==>
      (Score(v.(cholesterol := CHOLESTEROL_LIMIT), pred)
       == Score(v.(cholesterol := CHOLESTEROL_LIMIT + 1), pred) + CARDIO_PENALTY)
  {
    PenaltyBreakdown(v.(age := AGE_LIMIT), pred);
    PenaltyBreakdown(v.(age := AGE_LIMIT + 1), pred);
    PenaltyBreakdown(v.(heartRate := HEART_RATE_LIMIT), pred);
    PenaltyBreakdown(v.(heartRate := HEART_RATE_LIMIT + 1), pred);
    PenaltyBreakdown(v.(systolicBp := BP_LIMIT), pred);
    PenaltyBreakdown(v.(systolicBp := BP_LIMIT + 1), pred);
    PenaltyBreakdown(v.(cholesterol := CHOLESTEROL_LIMIT), pred);
    PenaltyBreakdown(v.(cholesterol := CHOLESTEROL_LIMIT + 1), pred);
  }

  /** Strictness at one point: with every vital at its limit and a low-risk prediction
      nothing is deducted, and one step over any single limit costs that rule's penalty. */
  lemma {:induction false} ThresholdsStrictExample(pred: int)
    requires pred != HIGH_RISK_CLASS
    ensures Score(Vitals(70, 100, 140, 220), pred) == 100
    ensures Score(Vitals(71, 100, 140, 220), pred) == 90
    ensures Score(Vitals(70, 101, 140, 220), pred) == 80
    ensures Score(Vitals(70, 100, 141, 220), pred) == 70
    ensures Score(Vitals(70, 100, 140, 221), pred) == 70
  {
    PenaltyBreakdown(Vitals(70, 100, 140, 220), pred);
    PenaltyBreakdown(Vitals(71, 100, 140, 220), pred);
    PenaltyBreakdown(Vitals(70, 101, 140, 220), pred);
    PenaltyBreakdown(Vitals(70, 100, 141, 220), pred);
    PenaltyBreakdown(Vitals(70, 100, 140, 221), pred);
  }

  /** `w`/`q` is at least as bad as `v`/`p`: no vital lower, and a high-risk prediction
      stays high risk. */
  predicate NoBetter(v: Vitals, p: int, w: Vitals, q: int) {
    && v.age <= w.age
    && v.heartRate <= w.heartRate
    && v.systolicBp <= w.systolicBp
    && v.cholesterol <= w.cholesterol
    && (p == HIGH_RISK_CLASS ==> q == HIGH_RISK_CLASS)
  }

  lemma {:induction false} TriggeredMonotone(rules: seq<Rule>, v: Vitals, p: int, w: Vitals, q: int)
    requires forall r :: r in rules && Fires(r, v, p) ==> Fires(r, w, q)
    ensures SumAmounts(Triggered(rules, v, p)) <= SumAmounts(Triggered(rules, w, q))
  {
    if rules != [] {
      var a, b := Triggered(rules[1..], v, p), Triggered(rules[1..], w, q);
      TriggeredMonotone(rules[1..], v, p, w, q);
      if Fires(rules[0], v, p) { assert ([rules[0]] + a)[1..] == a; }
      if Fires(rules[0], w, q) { assert ([rules[0]] + b)[1..] == b; }
    }
  }

  /** Raising any vital, or turning the prediction into high risk, never raises the score. */
  lemma {:induction false} ScoreMonotone(v: Vitals, p: int, w: Vitals, q: int)
    requires NoBetter(v, p, w, q)
    ensures Score(w, q) <= Score(v, p)
  {
    TriggeredMonotone(PENALTY_RULES, v, p, w, q);
  }

  /** The two worked examples: bp 150, cholesterol 200, heart rate 80, age 60. */
  lemma WorkedExamples()
    ensures Score(Vitals(60, 80, 150, 200), 0) == 70
    ensures Score(Vitals(60, 80, 150, 200), 1) == 50
  {
  }

  // ---------------------------------------------------------------------------
  // The whole derivation step

  /** What the prediction flow derives from one form submission. */
  datatype Assessment = Assessment(riskLabel: string, healthScore: int, plan: Plan)

  /** Label, score and recommendation for one submission, as the flow computes them. */
  method Assess(v: Vitals, pred: int) returns (a: Assessment)
    ensures a.riskLabel == RiskLabel(pred)
    ensures a.healthScore == Score(v, pred)
    ensures a.plan == Recommendation(pred)
    ensures a.riskLabel == HIGH_RISK_LABEL <==> a.plan == HIGH_RISK_PLAN
  {
    RecommendationAgreesWithLabel(pred);
    var riskLabel := RiskLabel(pred);
    var score := HealthScore(v, pred);
    var plan := Recommendation(pred);
    a := Assessment(riskLabel, score, plan);
  }
}
