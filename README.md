# Predictive-maintenance back end, modelled in Dafny

This project models the server-side logic of a predictive-maintenance web application. The model covers five parts:

- **The local health scorer** (`mockMLPredict`) and the `POST /api/ml/predict` handler. The handler validates the request, passes a remote scorer's reply through with two fields defaulted, or else falls back to the local scorer.
- **The Python scoring service's `/predict` endpoint.** It maps feature names to a feature vector, derives the health score and risk tier from the classifier's failure probability, and signs the feature impacts. It also estimates the five failure-type probabilities (TWF, HDF, PWF, OSF, RNF), works out which features are responsible for which failure type, and picks the tier's explanation.
- **The prediction history** (`/api/predictions`): an append-only in-memory array, a filtered listing with newest records first, and a create handler.
- **The alert list** (`/api/alerts`): the same shape, with a status filter and a risk-level check on create.
- **The demo reseed** (`/api/seed`): it empties both stores and refills them with fixed records.

Modules, one per source file plus shared helpers:

| module | file | models |
|---|---|---|
| `Wrappers` | wrappers.dfy | `Option` |
| `Sequences` | sequences.dfy | `Array.prototype.filter` and the stable `Array.prototype.sort` with a descending numeric comparator |
| `Text` | text.dfy | `lower()`, the character stripping of feature names, and Python's substring test `in` |
| `Numbers` | numbers.dfy | `min`, `max` and `abs` on reals, shared by both scorers |
| `Dates` | dates.dfy | instants in milliseconds, `Invalid Date`, and the UTC day start |
| `Risk` | risk.dfy | the four risk tiers, the 75/50/25 thresholds, and the tier names |
| `MlPredictRoute` | ml_predict_route.dfy | app/api/ml/predict/route.ts |
| `PredictService` | predict_service.dfy | ml_service/predict_service.py |
| `PredictionsRoute` | predictions_route.dfy | app/api/predictions/route.ts |
| `AlertsRoute` | alerts_route.dfy | app/api/alerts/route.ts |
| `SeedRoute` | seed_route.dfy | app/api/seed/route.ts |

The module-level arrays become classes (`PredictionStore`, `AlertStore`) whose `seq` field the handlers reassign. Each listing method is proved equal to a specification function (`Listing`) that filters once by the conjunction of the active filters and then sorts. The lemmas beside it state what that function returns.

Four details of the code that the model reproduces:

- The prediction create handler stores any non-empty `risk` string. Only the alert handler checks it against the four tiers.
- The local scorer takes the tier from the clamped score before rounding. The returned `score` and `risk` can therefore disagree at a tier boundary (`RoundedScoreCanCrossTier`).
- Because of `||`, a telemetry reading of 0 is replaced by its default (`ZeroTorqueReadsAsDefault`).
- The Python service keeps a present reading even when it is 0.

## Model

| member | source | states |
|---|---|---|
| MlPredictRoute.Field | app/api/ml/predict/route.ts:38-47 | A reading that is absent or 0 takes the default. Any other reading is kept. |
| MlPredictRoute.TotalPenalty | app/api/ml/predict/route.ts:53-71 | The four penalties together never raise the score. |
| MlPredictRoute.Clamp | app/api/ml/predict/route.ts:74 | The result lies in [0,100]. It equals the input inside that range, 0 below it and 100 above it. |
| MlPredictRoute.HealthScore | app/api/ml/predict/route.ts:51-74 | The clamped health score lies in [0,100]. |
| MlPredictRoute.ScoreMonotone | app/api/ml/predict/route.ts:53-74 | Raising process temperature, tool wear or vibration, or lowering torque, never raises the score. |
| MlPredictRoute.EmptyTelemetryIsHealthy | app/api/ml/predict/route.ts:38-86 | With every reading defaulted no penalty applies: the score is 100 and the tier is low. |
| MlPredictRoute.ZeroTorqueReadsAsDefault | app/api/ml/predict/route.ts:42-71 | Torque 0 is read as 40 and costs nothing. Torque 10 costs 20 points. |
| MlPredictRoute.RoundTenth | app/api/ml/predict/route.ts:168 | The result is a whole number of tenths, above x − 0.05 and at most x + 0.05, so a half rounds up. |
| MlPredictRoute.RoundTenthBounds | app/api/ml/predict/route.ts:168 | Rounding a score in [0,100] to one decimal stays in [0,100] and within 0.05 of the score. |
| MlPredictRoute.MockScoreInRange | app/api/ml/predict/route.ts:73-74 | The returned, rounded score lies in [0,100]. |
| MlPredictRoute.RoundedScoreCanCrossTier | app/api/ml/predict/route.ts:77-86 | The tier comes from the unrounded score. Tool wear 50.08 returns score 75.0 with tier medium, although 75 is a low score. |
| Risk.Tier | app/api/ml/predict/route.ts:77-86 | The tier is low, medium, high or critical exactly when the score is ≥75, in [50,75), in [25,50) or <25. |
| Risk.TierMonotone | app/api/ml/predict/route.ts:77-86 | A higher score never gives a more severe tier. |
| Risk.Parse | app/api/alerts/route.ts:95 | A string names a tier exactly when it is one of the four tier names, and then it names that tier. |
| Risk.ParseName | app/api/predictions/route.ts:43 | Every tier's name parses back to that tier. |
| MlPredictRoute.Probabilities | app/api/ml/predict/route.ts:89-115 | Every entry lies in [0,1]. The computed tier's entry is strictly larger than every other tier's entry. |
| MlPredictRoute.RankedIsSortedPermutation | app/api/ml/predict/route.ts:156-157 | Sorting by \|impact\| and keeping six keeps every candidate. The result is a permutation sorted by non-increasing \|impact\|. |
| MlPredictRoute.ShapFeaturesRanked | app/api/ml/predict/route.ts:118-157 | `shapFeatures` has six entries, is a permutation of the six fixed candidates, and is sorted by non-increasing \|impact\|. |
| MlPredictRoute.ExplanationNamesMachine | app/api/ml/predict/route.ts:160-165 | The explanation begins with "Machine " and the machine id. |
| MlPredictRoute.ExplanationDeterminesTier | app/api/ml/predict/route.ts:160-171 | Two tiers never share an explanation for the same machine. |
| MlPredictRoute.MockPrediction | app/api/ml/predict/route.ts:33-176 | The tier is the clamped score's tier, and the reported score lies within 0.05 of the clamped score. The tier carries the strictly largest probability. There are six impacts, the model version is "1.0.0" and the timestamp is the clock reading. |
| MlPredictRoute.MockMLPredict | app/api/ml/predict/route.ts:33-176 | The step-by-step scorer returns what the specification function `MockPrediction` gives. The lemmas above state that function's properties. |
| MlPredictRoute.WithEnrichmentDefaults | app/api/ml/predict/route.ts:209-215 | Every other key is passed through unchanged. `failureTypes` and `featureResponsibilities` are always present and truthy. A truthy value the reply already had is kept. |
| MlPredictRoute.Post | app/api/ml/predict/route.ts:178-224 | A missing or empty `machineId`, or a missing `telemetry`, gives the 400 message. A remote reply is forwarded with the defaults. Otherwise the result is exactly the local scorer's. |
| PredictService.Get | ml_service/predict_service.py:53-60 | The key wins whenever present, even at 0. Then comes the alias, then the default. |
| PredictService.ClassifyFirstRule | ml_service/predict_service.py:65-82 | `Classify` returns a source whose rule holds for the normalised name, and no earlier rule holds for it. It returns `None` exactly when no rule holds. |
| PredictService.DefaultValue | ml_service/predict_service.py:91-104 | Every default is one of the seven constants. A temperature name gets 300 exactly when its raw name contains "Air", and 310 otherwise. A name with none of the keywords gets 0. |
| PredictService.MatchFeatures | ml_service/predict_service.py:62-82 | Every name some rule matches gets an entry, holding the value of the first matching rule, and no other name does. |
| PredictService.BuildFeatureVector | ml_service/predict_service.py:84-104 | There is one entry per feature name, in order. It is the value of the first matching rule, or else the name-based default. |
| PredictService.TorqueNamesAlwaysMatch | ml_service/predict_service.py:65-96 | A name mentioning torque always matches a rule, so the torque default 40 is never used. |
| PredictService.UnmatchedTemperatureGets310 | ml_service/predict_service.py:65-92 | An unmatched temperature name can never contain "Air", so it always gets 310. |
| PredictService.HealthScoreInRange | ml_service/predict_service.py:113-124 | For p in [0,1], `(1-p)*100` lies in [0,100]. The tier is low exactly when p ≤ 0.25, and critical exactly when p > 0.75. |
| PredictService.ReplyProbabilities | ml_service/predict_service.py:292-297 | Every entry lies in [0,1], and every tier other than the computed one gets 0.1. |
| PredictService.MaxOf | ml_service/predict_service.py:147 | The result bounds every importance and is one of them. |
| PredictService.Normaliser | ml_service/predict_service.py:147 | The divisor is always positive. |
| PredictService.Impact | ml_service/predict_service.py:146-170 | \|impact\| = importance/max·100. The impact is non-positive when the feature counts against the machine, and non-negative otherwise. |
| PredictService.ShapFeatures | ml_service/predict_service.py:140-177 | One entry per top index, in order. Wear above 0, or a temperature above its baseline (310 for process, 300 otherwise), gets a non-positive impact. Any other feature's impact is non-positive when failure is predicted and non-negative otherwise. A zero importance gives 0 either way. |
| PredictService.ImpactWithinHundred | ml_service/predict_service.py:146-148 | For non-negative importances, every impact lies in [-100,100]. The most important feature's impact is exactly ±100. |
| PredictService.Clamp01 | ml_service/predict_service.py:196-207 | `min(1, max(0, x))` lies in [0,1] and equals x inside that range. |
| PredictService.Twf | ml_service/predict_service.py:196 | Above 200 minutes of wear TWF lies in [0,1]. Below, for non-negative wear, it lies in [0,0.5]. It is never above 1, and it is negative exactly for negative wear. |
| PredictService.Hdf | ml_service/predict_service.py:199 | Above a 10 K difference HDF lies in [0,1]. Below, for a non-negative difference, it lies in [0,0.3]. It is never above 1, and it is negative exactly for a negative difference. |
| PredictService.Pwf | ml_service/predict_service.py:202-204 | PWF always lies in [0,1]. It is 0 when torque ≥ 40 and power ≥ 5000. |
| PredictService.Osf | ml_service/predict_service.py:207 | Above 1800 rpm OSF lies in [0,1]. Below, for non-negative speed, it lies in [0,0.2]. It is never above 1, and it is negative exactly for negative speed. |
| PredictService.Rnf | ml_service/predict_service.py:210 | RNF is at most 1. When the other four lie in [0,1], so does RNF. |
| PredictService.LastIndexOf | ml_service/predict_service.py:184 | `feat_dict[name]` is the last index holding the name. |
| PredictService.Lookup | ml_service/predict_service.py:184-192 | A name the model lacks gives the telemetry fallback. A name it has gives the feature-vector entry at the name's last index. |
| PredictService.PredictFailureTypes | ml_service/predict_service.py:180-218 | The tool wear and speed readings come from the last model feature of that exact name, and from the telemetry when the model has no such feature. |
| PredictService.FailureTypesBounded | ml_service/predict_service.py:180-218 | Every failure probability is at most 1, and PWF is never negative. RNF lies in [0,1] whenever TWF, HDF and OSF are not negative. |
| PredictService.AirHotterThanProcessGivesNegativeHdf | ml_service/predict_service.py:190-199 | Below its threshold HDF is not clamped. Air 5 K hotter than the process gives HDF = -0.15. |
| PredictService.ResponsibilitiesParts | ml_service/predict_service.py:221-263 | The responsibilities are exactly the entries whose rule holds, each with its type's probability. |
| PredictService.Responsibilities | ml_service/predict_service.py:221-263 | A feature is responsible for at most four failure types. The lemmas below give the rule for each type. |
| PredictService.TwfResponsibility | ml_service/predict_service.py:226-231 | A feature is blamed for TWF exactly when its lower-cased name mentions wear, with the TWF probability. |
| PredictService.HdfResponsibility | ml_service/predict_service.py:233-247 | A temperature feature is blamed for HDF exactly when it is a process or difference temperature, with the HDF probability, or an air temperature above 310, with half of it. |
| PredictService.PwfResponsibility | ml_service/predict_service.py:249-254 | A feature is blamed for PWF exactly when its name mentions torque or power, with the PWF probability. |
| PredictService.OsfResponsibility | ml_service/predict_service.py:256-261 | A feature is blamed for OSF exactly when its name mentions speed or rotation, with the OSF probability. |
| PredictService.ResponsibilityEntries | ml_service/predict_service.py:269-279 | There is at most one entry per examined feature, and no entry has an empty responsibility list. |
| PredictService.ResponsibilityEntriesAppend | ml_service/predict_service.py:269-279 | The entries follow the order of the examined indices: those for `a + b` are those for `a` followed by those for `b`. |
| PredictService.EntryForResponsibleIndex | ml_service/predict_service.py:269-279 | Every examined feature responsible for some failure type gets its entry. |
| PredictService.FirstFive | ml_service/predict_service.py:270 | `top[:5]` is a prefix of at most five indices. |
| PredictService.FeatureResponsibilities | ml_service/predict_service.py:268-279 | The loop builds the specified entries and returns at most five. |
| PredictService.ResponsibilityEntryFromIndex | ml_service/predict_service.py:269-279 | Every entry is the named feature, its value and its responsibilities, for one of the examined indices. |
| PredictService.ExplanationDeterminesTier | ml_service/predict_service.py:282-287 | For the same machine, two tiers never share an explanation, whatever the formatted probability. |
| PredictService.Predict | ml_service/predict_service.py:43-306 | The reply's score is `(1-p)*100` in [0,100], its tier is that score's tier, and its probabilities, explanation (machine id defaulting to "unknown"), impacts, failure types and responsibilities are the specified ones for the feature vector the telemetry yields. |
| Sequences.Filter | app/api/predictions/route.ts:37-56 | Filtering keeps exactly the elements that pass, each as often as it occurs. |
| Sequences.FilterTwice | app/api/predictions/route.ts:36-57 | Two successive filters are one filter by the conjunction. |
| Sequences.SortDesc | app/api/predictions/route.ts:60-63 | Sorting is a permutation. |
| Sequences.SortDescSorted | app/api/predictions/route.ts:60-63 | The sorted array is in non-increasing key order. |
| Sequences.SortDescOfSorted | app/api/predictions/route.ts:60-63 | The sort is stable: an array already in order is returned unchanged. |
| Dates.DayStart | app/api/seed/route.ts:27 | The calendar day of an instant starts at a multiple of a day, at or before the instant and less than a day before it. |
| PredictionsRoute.ListingSpec | app/api/predictions/route.ts:33-68 | The listing holds exactly the stored records that pass every active filter, each as often as it is stored, sorted newest `createdAt` first. |
| PredictionsRoute.ListingHonoursFilters | app/api/predictions/route.ts:36-57 | Every listed record has the requested machine and the requested tier, and its `predictionDate` lies within the inclusive bounds given. |
| PredictionsRoute.UnknownRiskIgnored | app/api/predictions/route.ts:43-45 | A risk value that is not a tier name is ignored. |
| PredictionsRoute.UnparsableStartDateListsNothing | app/api/predictions/route.ts:48-52 | A start date that does not parse filters out every record. |
| PredictionsRoute.UnfilteredListing | app/api/predictions/route.ts:33-63 | Without parameters the listing is the whole store, newest first. |
| PredictionsRoute.NewPrediction | app/api/predictions/route.ts:81-124 | The new record carries the request's fields and the given id and time. `modelVersion` defaults to "1.0.0" only when absent. |
| PredictionsRoute.PredictionStore.constructor | app/api/predictions/route.ts:23 | The store starts empty. |
| PredictionsRoute.PredictionStore.List | app/api/predictions/route.ts:25-68 | The successive filters and the sort return `Listing(records, q)`, and `total` is its length. The store is unchanged. |
| PredictionsRoute.PredictionStore.Create | app/api/predictions/route.ts:78-126 | A missing or empty required field (a score of 0 passes) gives the 400 and an unchanged store. Otherwise exactly one record is appended. |
| PredictionsRoute.PredictionStore.Truncate | app/api/seed/route.ts:106 | Setting the length to 0 empties the store. |
| PredictionsRoute.PredictionStore.PushAll | app/api/seed/route.ts:110 | `push(...more)` appends `more` at the end. |
| PredictionsRoute.ListingAfterCreate | app/api/predictions/route.ts:126 | Appending a record adds it to exactly the listings it matches and changes no other listing's contents. |
| AlertsRoute.ParseStatus | app/api/alerts/route.ts:37 | A string names a status exactly when it is active, acknowledged or resolved, and then it names that status. |
| AlertsRoute.ListingSpec | app/api/alerts/route.ts:34-55 | The listing holds exactly the matching alerts, each as often as stored, sorted newest first. |
| AlertsRoute.ListingHonoursFilters | app/api/alerts/route.ts:36-44 | With a valid status or risk in the query, every returned alert has it. |
| AlertsRoute.UnknownValuesIgnored | app/api/alerts/route.ts:37-44 | When neither the status nor the risk names anything, the listing is the whole store, newest first. |
| AlertsRoute.UnknownStatusIgnored | app/api/alerts/route.ts:37-39 | A status that names no status is ignored, whatever the risk filter: the listing equals the one without a status. |
| AlertsRoute.UnknownRiskIgnored | app/api/alerts/route.ts:42-44 | A risk that names no tier is ignored, whatever the status filter: the listing equals the one without a risk. |
| AlertsRoute.NewAlert | app/api/alerts/route.ts:100-111 | A new alert is always active, with no acknowledgement, whatever its risk. It carries the request's risk and score and the given id and time. |
| AlertsRoute.AlertStore.constructor | app/api/alerts/route.ts:26 | The store starts empty. |
| AlertsRoute.AlertStore.List | app/api/alerts/route.ts:28-55 | The two filters and the sort return `Listing(alerts, q)`, and `total` is its length. The store is unchanged. |
| AlertsRoute.AlertStore.Create | app/api/alerts/route.ts:65-113 | A missing field, and then an unknown risk, each give their 400 and an unchanged store. Otherwise exactly one active alert is appended. The acknowledgement invariant `Valid` is kept. |
| AlertsRoute.AlertStore.Truncate | app/api/seed/route.ts:107 | Setting the length to 0 empties the store. |
| AlertsRoute.AlertStore.PushAll | app/api/seed/route.ts:111 | `push(...more)` appends `more` and keeps `Valid`. |
| AlertsRoute.ListingAfterCreate | app/api/alerts/route.ts:113 | Appending an alert adds it to exactly the listings it matches. |
| SeedRoute.SeedPredictions | app/api/seed/route.ts:14-69 | There are three seed predictions. |
| SeedRoute.SeedAlerts | app/api/seed/route.ts:72-103 | There are two seed alerts. |
| SeedRoute.SeedAlertsConsistent | app/api/seed/route.ts:72-102 | The seed alerts satisfy the acknowledgement invariant. |
| SeedRoute.Seed | app/api/seed/route.ts:6-117 | Whatever the stores held, they end up holding exactly the seed records. The reported counts are 3 and 2, the store sizes. |
| SeedRoute.SeedPredictionRisksMatchScores | app/api/seed/route.ts:19-55 | Every seeded prediction's risk is the tier of its score: 92 low, 35 high, 85 low. |
| SeedRoute.SeedAlertRisksMatchScores | app/api/seed/route.ts:79-92 | Every seeded alert's risk is the tier of its score: 35 high, 42 high. |
| SeedRoute.SeedAcknowledgement | app/api/seed/route.ts:81-100 | The first alert is active with no acknowledgement. The second was acknowledged by the maintenance user two days after it was raised. |
| SeedRoute.SeedPredictionsNewestFirst | app/api/seed/route.ts:28-64 | The seed predictions' creation times strictly decrease. |
| SeedRoute.SeedPredictionsListedInOrder | app/api/seed/route.ts:9-64 | An unfiltered listing after seeding returns the predictions in seed order. |
| SeedRoute.SeedAlertsListedNewestFirst | app/api/seed/route.ts:82-94 | An unfiltered listing after seeding returns the acknowledged alert before the active one. |

## Left out

- Request parsing, JSON serialisation, status codes other than the modelled 400s, and the 500 paths for exceptions are not modelled. Handlers return a response datatype instead.
- The remote call (`fetch` with its 5-second timeout) is an input. `None` stands for a failure, a timeout or a non-success status.
- Clocks, `Date.now()`, `Math.random()` ids and `pd.Timestamp.now()` are parameters (`now`, `id`, `stamp`).
- SeedRoute.Seed: the five `Date.now()` calls that build the seed ids share one `stamp`. In the source they may differ by a millisecond.
- ISO date strings are not formatted or parsed. A stored date is the instant it parses to, a client's date is its text plus that instant, and the seed dates use the UTC day start.
- The trained classifier (`predict_proba`, `predict`, `feature_importances_`, `argsort`) and model loading are inputs (`ModelOutputs`).
- Arithmetic is on exact reals rather than binary floating point. `np.pi` is a rational constant.
- PredictService.Predict: the score is not rounded with Python's `round(x, 1)`, and the probability's percent formatting is an input string. The rounded score in the Python reply can therefore fall in a different tier from the one reported: p = 0.2504 gives health 74.96, risk "medium" and score 75.0, as in the local scorer.
- PredictService.PredictFailureTypes: the values are not rounded to three decimals with `round(x, 3)`.
- PredictService.Responsibilities: the human-readable `reason` strings (float formatting) are not modelled.
- Text.Lower: only ASCII letters are lower-cased. Names outside ASCII are not modelled.
- JSON fields of unexpected types (a number where a string is expected, an explicit `null` for `modelVersion`) are not modelled. Request fields are optional typed values.
- The alert acknowledge handler is not part of this model. The `Valid` invariant covers only the create and seed paths.
- The telemetry-synthesis predict route for machines and all React pages and components are not part of this model.
- Authentication (JWT, bcrypt, cookies) is not part of this model.
- Sequences.SortDesc: stability is stated only through `SortDescOfSorted`, not as a general "equal keys keep their order" property.
