# Hybrid genetic cardiovascular risk scoring, modelled in Dafny

The repository scores cardiovascular risk in two places. One is a web form
handler (`app.py`, function `predict`). The other is a command-line report
script (`hybrid_cardio_predict.py`). Both take a pre-trained classifier's base
probability `p`. They pick a relative-risk multiplier from the number of
first-degree relatives with premature cardiovascular disease, amplify `p` with
`1 - (1 - p) ** RR`, cap the result at 0.95, and put it into one of four
half-open bands. They also rank the classifier's feature importances,
highest first.

This project models that pipeline after the classifier:

- `risk.dfy`, module `Risk`: the labels, the multiplier, the cap and the
  categoriser. These are shared by both programs.
- `ranking.dfy`, module `Ranking`: the stable descending sort of
  (name, importance) pairs and its top-K prefix.
- `web_handler.dfy`, module `WebHandler`: the handler's pure pipeline. This
  covers the joined top-three names and the "Yes"/"No" family-history flag.
- `report.dfy`, module `Report`: the script as a straight-line method. It
  categorises before capping, loops over the top five factors, branches the
  genetic section on `relatives > 0`, and looks up the advice sentence.

The classifier's probability and the floating-point transform are parameters.
The transform is a function value of type `Transform`. The model applies it
but never defines it or gives it a numeric value. No modelled step depends
on the range of `p`, so `p` has no precondition.

The key cross-file fact is this. The script categorises the uncapped risk
(lines 89-99). The handler categorises the capped risk (lines 60-75). They
always agree, because the ceiling 0.95 lies inside the top band, which starts
at 0.75. `Risk.CapKeepsCategory` proves this. `Report.Run` states it against
`WebHandler.Predict` directly.

Negative counts of relatives are handled as the code handles them:

- The multiplier is 2.3 for every count other than 0 and 1, negative counts
  included. The script's prompt (hybrid_cardio_predict.py:69) only offers
  "0,1,2+".
- The family-history flag is "No" for a negative count. The multiplier for
  that count is still 2.3 (`WebHandler.NegativeRelativesInconsistency`).
- The script then reports "No genetic amplification applied." while its
  category comes from the risk amplified by 2.3
  (`Report.NegativeRelativesReport`).

The model makes no claim that the adjusted risk equals `p` when the
multiplier is 1.0, because `1 - (1 - p)` is not exact in doubles.

## Model

| member | source | states |
|---|---|---|
| `Risk.LevelName` | app.py:68-75 | every category is shown as one of the four label strings "Low Risk", "Borderline Risk", "Elevated Risk", "High Risk" |
| `Risk.Multiplier` | app.py:53-58 | the multiplier is 1.0 exactly when the count is 0, 1.6 exactly when it is 1, 2.3 exactly for every other integer (negatives included), and never below 1 |
| `Risk.Cap` | app.py:61 | the capped value is at most 0.95 and at most the input; it is either the input or 0.95; it is the input whenever the input is at most 0.95 |
| `Risk.CapIdempotent` | app.py:61 | capping twice is the same as capping once |
| `Risk.Categorise` | app.py:68-75 | total over the reals; Low exactly below 0.25, Borderline exactly on [0.25, 0.50), Elevated exactly on [0.50, 0.75), High exactly from 0.75 up |
| `Risk.LevelNameInjective` | app.py:68-75 | the four category names are distinct, so a name identifies its category |
| `Risk.SeverityIsThresholdsReached` | app.py:68-75 | a category's rank (Low 0 … High 3) equals the number of the cut points 0.25, 0.50, 0.75 that lie at or below the value |
| `Risk.CategoriseMonotone` | app.py:68-75 | if x ≤ y then the category of x ranks no higher than that of y |
| `Risk.CategoriseEdges` | app.py:68-75 | each lower band edge belongs to the band above it (0.25 Borderline, 0.50 Elevated, 0.75 High, 1.0 High); the sample adjusted values 0.2152 (about 1 - 0.9 ** 2.3) and 0.7692 (about 1 - 0.4 ** 1.6) are Low and High |
| `Risk.CapKeepsCategory` | hybrid_cardio_predict.py:89-99 | categorising the uncapped risk gives the same category as categorising the capped one, for every real |
| `Risk.AdjustmentNeverLowersCategory` | app.py:60-75 | if the transformed probability stays at or above every cut point (0.25, 0.50, 0.75) that the base probability reached, the adjusted category ranks at least as high as the category of the base probability |
| `Risk.CertainRiskSaturates` | app.py:60-61 | if the transform takes a base probability of 1 to at least 0.95 (in doubles `1 - 0.0 ** RR` is 1), the reported risk is exactly 0.95 whatever the number of relatives |
| `Ranking.Rank` | app.py:84-88 | the ranking has as many pairs as its input; that it is the stable descending sort is stated by the four lemmas below |
| `Ranking.Top` | hybrid_cardio_predict.py:60 | `s[:k]`: a prefix of `s` with exactly min(k, n) entries |
| `Ranking.RankPermutes` | app.py:84-88 | the ranking is a permutation of the zipped (name, importance) pairs |
| `Ranking.RankSorted` | app.py:84-88 | the ranking's importances never increase from left to right |
| `Ranking.RankStable` | app.py:84-88 | for every importance value, the pairs with that value appear in the ranking in their input order |
| `Ranking.RankIsTheStableSort` | app.py:84-88 | any non-increasing sequence that keeps every group of equal importances in input order is the ranking, so the ranking is exactly a stable descending sort |
| `Ranking.TopOfRanking` | hybrid_cardio_predict.py:53-60 | the first K ranked pairs are exactly min(K, n) pairs of the input, non-increasing, none below a pair left out, and each group of equal importances is an initial part of that group in input order |
| `WebHandler.Join` | app.py:90 | ", ".join gives "" for no names, the name itself for one, and always starts with the first name; `WebHandler.SplitJoin` is its inverse |
| `WebHandler.TopFeatures` | app.py:84-90 | the explanation's factor string is empty when there are no features and otherwise starts with the highest-ranked name; `WebHandler.TopFeaturesNamesTopRanked` gives its whole content |
| `WebHandler.SplitJoin` | app.py:90 | joining names with ", " can be undone: when no name holds a comma, splitting the joined string gives the names back |
| `WebHandler.TopFeaturesNamesTopRanked` | app.py:84-90 | the top-features string holds the names of the first min(3, n) ranked pairs, in ranked order, and nothing else |
| `WebHandler.GeneticFlag` | app.py:91 | the flag is "Yes" exactly when the count of relatives is positive and "No" exactly when it is zero or negative |
| `WebHandler.NegativeRelativesInconsistency` | app.py:53-91 | for a negative count the flag says "No" while the multiplier is 2.3 |
| `WebHandler.Predict` | app.py:53-91 | the reported risk is at most 0.95 and equals the transformed probability whenever that is at most 0.95 (0.95 otherwise); the category is that of the uncapped transformed probability; the flag is "Yes" exactly for a positive count; the flag is "No" exactly for a zero or negative count; the features string is the top-three names |
| `Report.Advice` | hybrid_cardio_predict.py:116-123 | each of the three named categories gets its own sentence, and every other string, "High Risk" included, gets the clinical-evaluation sentence |
| `Report.AdviceTableIsOneToOne` | hybrid_cardio_predict.py:116-123 | two categories get the same advice only if they are the same category; High gets the clinical-evaluation sentence |
| `Report.Run` | hybrid_cardio_predict.py:53-123 | the listed factors are the first min(5, n) ranked pairs, non-increasing; the multiplier is the handler's; the category fixed before the cap equals the handler's clamp-then-categorise category; the genetic section appears exactly when the count is positive, with that multiplier and the capped risk (at most 0.95); the advice is the table entry for the category |
| `Report.NegativeRelativesReport` | hybrid_cardio_predict.py:71-111 | for a negative count the report shows no genetic amplification while its multiplier is 2.3 and its category is that of the risk transformed with 2.3 |

## Left out

- The classifier and its model artifact (`pickle.load`, `predict_proba`).
  They are a foreign trained model. The base probability is a parameter of
  `WebHandler.Predict` and `Report.Run`. The script's repeated
  `predict_proba` call on the same input is left out for the same reason.
- The power transform `1 - (1 - p) ** RR`. It is floating-point
  exponentiation with non-integer exponents. It is a function-valued
  parameter, and the model claims nothing about its numeric value.
- Risk.AdjustmentNeverLowersCategory: its hypothesis, that the transform never
  takes a probability below a cut point it had reached, is assumed of the
  floating-point computation and not proved of it. The stronger `p <= f(p, m)`
  is not assumed, because doubles break it (`1 - (1 - 0.1) ** 1.0` is below
  0.1).
- Floating-point semantics in general: rounding, NaN, and the fact that
  importances are doubles. Scores and probabilities are exact reals.
- Rounding for display (`round(... * 100, 2)`, `round(score, 3)`). This is
  output formatting.
- Input and output: Flask routing, form parsing and its int/float
  conversions, template rendering, markdown conversion, and the script's
  `input()` and `print` calls. These include the banner, disclaimer and the
  "- " bullet in front of each advice sentence. `Report.Run` returns what the
  script prints as a value.
- The explanation request (`ai_explainer.py`): the prompt text, the remote
  generation call and its fallback sentence. It is a network call to an
  external service. The model stops at the three values passed to it:
  category, top-features string and flag.
- `train_cardio_ml.py` and `inspect_cardio.py`. These are the training
  pipeline and dataset printing; neither is part of the scoring path.
- WebHandler.SplitJoin: the round trip is stated only for feature names
  without commas, because a comma inside a name cannot be told apart from
  the separator.
