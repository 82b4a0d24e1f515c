# AgeWell prediction flow, modelled in Dafny

AgeWell is a Streamlit form. A user enters a patient's age, heart rate, systolic blood
pressure and cholesterol. A pre-trained classifier labels the patient, and the app then
derives three things from the four vitals and the classifier's output:

- the risk label: "High Risk" exactly when the prediction is class 1, and "Low Risk" otherwise;
- a heuristic health score: start at 100, then subtract
  - 30 when systolic BP > 140 or cholesterol > 220,
  - 20 when heart rate > 100,
  - 10 when age > 70,
  - 20 when the prediction is class 1,
  
  and finally clamp the result at 0 from below;
- a fixed (food plan, exercise plan) pair, chosen by the prediction.

`prediction_flow.dfy` (module `PredictionFlow`) models this derivation step.
`RiskLabel` and `Recommendation` are pure functions over the prediction.
`HealthScore` is a method with a mutable accumulator, written step by step as the source does.
It is proved equal to `Score`, a reference definition that subtracts from 100 the amounts of
the rules that fire, taken from a four-rule table (`PENALTY_RULES`, `Triggered`, `SumAmounts`).
The table's conditions are in `Fires` (app.py:120, 122, 124, 126) and its amounts in
`Amount` (app.py:121, 123, 125, 127).
`Assess` puts the three results together.

The main proved fact is that the penalties add up to at most 80. So the score always lies in
[20, 100] and is a multiple of 10, and the `max(0, …)` clamp never changes it. Every multiple
of 10 in that range is the score of some vitals inside the form's ranges together with some
classifier output. Which of them occur depends on the classifier: 20 and 30 need a class-1
prediction, and 90 and 100 need any other class. The other proved properties are:

- the blood-pressure/cholesterol penalty is taken once, never twice;
- every threshold is strict;
- the score never rises when a vital rises, or when the prediction becomes class 1;
- the two worked examples give 70 and 50;
- the recommendation always agrees with the risk label.

## Model

| member | source | states |
|---|---|---|
| `PredictionFlow.RiskLabel` | app.py:116 | the label is "High Risk" if and only if the prediction is 1, and "Low Risk" if and only if it is any other value |
| `PredictionFlow.Recommendation` | app.py:131-136 | the low-fat diet / walk-and-yoga pair is chosen if and only if the prediction is 1; the balanced diet / light-jog pair is chosen for every other value |
| `PredictionFlow.RecommendationAgreesWithLabel` | app.py:116-136 | the high-risk plan goes with the "High Risk" label, and the low-risk plan with the "Low Risk" label, both ways |
| `PredictionFlow.RecommendationDependsOnlyOnLabel` | app.py:131-136 | two predictions with the same label get the same recommendation pair |
| `PredictionFlow.SumAmounts` | app.py:119-127 | every total of penalty amounts is a multiple of 10 |
| `PredictionFlow.Triggered` | app.py:120-127 | a rule is among the triggered penalties exactly when it is in the table and its strict threshold is breached; the triggered penalties never add up to more than the whole table |
| `PredictionFlow.AllRulesTotal` | app.py:120-127 | the four penalties (30, 20, 10, 20) add up to 80 |
| `PredictionFlow.Penalty` | app.py:119-127 | the total penalty lies between 0 and 80 and is a multiple of 10 |
| `PredictionFlow.Score` | app.py:119-128 | the health score (100 minus the triggered penalties) lies in [20, 100] and is a multiple of 10 |
| `PredictionFlow.PenaltyBreakdown` | app.py:120-127 | each rule contributes its own amount to the total exactly when its condition holds; no other penalty is taken |
| `PredictionFlow.HealthScore` | app.py:119-128 | the step-by-step accumulator, including the final `max(0, …)`, returns exactly 100 minus the sum of the triggered penalties |
| `PredictionFlow.ClampNeverActive` | app.py:128 | `max(0, …)` applied to 100 minus the penalty returns its argument unchanged, and the result is at least 20 |
| `PredictionFlow.AttainableScores` | app.py:91-95 | a value is the score of some input within the form's ranges (with some prediction) if and only if it is a multiple of 10 in [20, 100] |
| `PredictionFlow.ScoreByPrediction` | app.py:119-128 | a prediction other than 1 scores at least 40, and a class-1 prediction scores at most 80 |
| `PredictionFlow.CardioPenaltyTakenOnce` | app.py:120-121 | with both BP > 140 and cholesterol > 220, lowering either one to its limit leaves the score unchanged, and lowering both raises it by exactly 30 (never 60) |
| `PredictionFlow.ThresholdsStrict` | app.py:120-125 | for every input, moving age from 70 to 71 costs exactly 10 and heart rate from 100 to 101 exactly 20; moving BP from 140 to 141 (cholesterol not over 220) or cholesterol from 220 to 221 (BP not over 140) costs exactly 30 |
| `PredictionFlow.ThresholdsStrictExample` | app.py:120-125 | with a non-1 prediction, age 70, heart rate 100, BP 140 and cholesterol 220 score 100; raising one of them by 1 (to 71, 101, 141 or 221) costs 10, 20, 30 and 30 |
| `PredictionFlow.TriggeredMonotone` | app.py:120-127 | if every rule that fires for one input also fires for another, the second input's penalty is at least the first's |
| `PredictionFlow.ScoreMonotone` | app.py:119-127 | raising any vital, or turning the prediction into 1, never raises the score |
| `PredictionFlow.WorkedExamples` | app.py:119-128 | BP 150, cholesterol 200, heart rate 80 and age 60 score 70 with prediction 0, and 50 with prediction 1 |
| `PredictionFlow.Assess` | app.py:115-136 | one submission yields the label, the score and the recommendation above, and its plan is the high-risk plan exactly when its label is "High Risk" (by `RecommendationAgreesWithLabel`) |

## Left out

- The classifier (app.py:29-31, 69-71, 115) is an opaque artifact called through a foreign library. Its output is the unconstrained integer `pred`. The `int(raw_pred)` conversion of a non-integer prediction is not modelled.
- The scoring functions take no form-range preconditions. The source computes the score for any integers, and the bounds hold for all of them. `InFormRange` (app.py:91-95) is used only to show that every score is the score of some vitals inside the form's ranges together with some classifier output.
- BMI (app.py:118) is floating-point division and rounding, so it is not modelled.
- The MySQL connection, the insert, `LAST_INSERT_ID` and the latest-20 query (app.py:33-38, 145-170, 189-208) are database I/O.
- `convert_row_types` (app.py:40-46) is a set of type casts on database rows, and nothing calls it.
- PDF generation and download (app.py:48-64, 172-184) are file I/O.
- The Streamlit widgets, session state, the table display and the blood-pressure chart (app.py:16, 74-111, 138-141, 186-211) are user interface.
- The database credentials (app.py:18-23) are configuration.
