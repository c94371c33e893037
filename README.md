# EVOQUE suitability prediction service — decision model

This project models the `/predict` HTTP handler of the EVOQUE suitability
service. The handler reads two annular measurements from a JSON request,
the S-L dimension and the A-P dimension in millimetres. If either is missing,
it answers `{"error": "Missing input values"}` with status 400. Otherwise it
asks a trained random-forest classifier for the probability of a screen
failure. It maps that probability to one of three triage categories and
answers with the category and the probability rounded to three decimals.

- `Decision` (decision.dfy) holds the three-way decision rule `Classify`. It
  also holds an independent description of the rule as one interval per
  category, and `Round3`, the model of Python's `round(prob, 3)`: the nearest
  multiple of 1/1000, with ties going to the even multiple.
- `WebApp` (web_app.dfy) holds the request and response shapes and the handler
  `Predict`. The classifier is a parameter `estimate(sl, ap)`.

`data.get(key)` yields `None` both when the key is absent and when its value
is JSON `null`. So the guard rejects both. A measurement of `0` is present,
because the guard tests `is None` and not falsiness.

## Model

| member | source | states |
|---|---|---|
| Decision.ClassifyIsBand | web_app.py:35-40 | the rule returns a category exactly when the probability lies in that category's interval: (-inf, 0.4], (0.4, 0.45) or [0.45, +inf) |
| Decision.BandsPartition | web_app.py:35-40 | the three intervals cover every real without overlap, so each probability gets exactly one category |
| Decision.ScreenFailRegion | web_app.py:35-36 | Screen Fail if and only if the probability is at least 0.45 |
| Decision.CTRecommendedRegion | web_app.py:37-38 | CT Recommended if and only if the probability is strictly between 0.4 and 0.45 |
| Decision.SuitableRegion | web_app.py:39-40 | Suitable if and only if the probability is at most 0.4 |
| Decision.Boundaries | web_app.py:35-40 | tie-breaks: exactly 0.4 is Suitable (strict lower test), exactly 0.45 is Screen Fail (inclusive upper test) |
| Decision.ClassifyMonotone | web_app.py:35-40 | a larger probability never gives a less severe category, in the order Suitable < CT Recommended < Screen Fail |
| Decision.LabelInjective | web_app.py:36-40 | the three category labels are pairwise distinct |
| Decision.Round3 | web_app.py:44 | the reported probability is a whole number of thousandths within 0.0005 of the probability, and an exact tie goes to the even thousandth |
| Decision.Round3Unique | web_app.py:44 | the rounded value is the only thousandth strictly closer than 0.0005 to the probability |
| Decision.Round3Idempotent | web_app.py:44 | rounding an already rounded probability changes nothing |
| Decision.Round3Monotone | web_app.py:44 | rounding preserves the order of probabilities |
| Decision.Round3Example | web_app.py:44 | 0.4521 is reported as 0.452 |
| Decision.RoundingCrossesBand | web_app.py:35-44 | the reported (rounded) probability falls in a different band from the prediction exactly when the probability is in (0.4, 0.4005] or [0.4495, 0.45) |
| Decision.RoundingCanCrossUpperThreshold | web_app.py:35-44 | some probability is classified CT Recommended while its reported value would itself be Screen Fail |
| WebApp.Get | web_app.py:26-27 | a field reads as missing exactly when its key is absent or its value is null; otherwise it reads as the number sent |
| WebApp.Predict | web_app.py:24-45 | a missing field gives the 400 error response; otherwise status 200 with exactly the keys `prediction` and `probability`, the label of the classifier's probability, and that probability rounded to thousandths |
| WebApp.MissingInputIgnoresClassifier | web_app.py:29-30 | with a field missing, the response is the same 400 error whatever the classifier would answer, so the classifier is not consulted |
| WebApp.PresentInputsConsultClassifier | web_app.py:32-40 | with both fields present, classifiers that disagree about the 0.45 threshold for the pair give different responses |
| WebApp.MissingAPExample | web_app.py:29-30 | a request without the A-P dimension gets the error `Missing input values` with status 400 |
| WebApp.ZeroIsPresent | web_app.py:29 | zero measurements pass the guard |
| WebApp.SuccessShape | web_app.py:42-45 | a successful response has exactly two fields and never the `error` key |
| WebApp.EndToEndExample | web_app.py:32-45 | sl = 46, ap = 42 with a classifier answering 0.46 gives Screen Fail with probability 0.46 |
| WebApp.RoundedProbabilityCanCrossThreshold | web_app.py:35-44 | the category is decided on the unrounded probability: 0.4496 is classified CT Recommended yet reported as 0.45, which on its own would be Screen Fail |

## Left out

- Loading the Excel dataset (web_app.py:8-12): file I/O.
- The train/test split and the random-forest training (web_app.py:15-17). The trained classifier `model.predict_proba` (web_app.py:33) is the function parameter `estimate`. Nothing is assumed about it, not even that it returns a value in [0, 1].
- Flask app construction, routing, JSON parsing and `app.run` (web_app.py:20-25, 48-49): web plumbing. A request body that is not a JSON object is not modelled.
- Non-numeric request values (strings, lists, objects). The handler passes them to the classifier unchecked, and any failure comes from the library. The request model has only numbers and `null`.
- Floating point. Probabilities and thresholds are exact reals. In the source, the literals 0.45 and 0.4 are binary doubles slightly off those decimals. This only matters for a probability equal to such a double.
- Decision.Round3: models the exact decimal result of `round(prob, 3)`, not the nearest double that Python returns.
- The percentage response format ("45.2%") and the HTML form entry point belong to other revisions of the script and are not part of this model.
