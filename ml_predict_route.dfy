/**
 * The Next.js prediction endpoint `/api/ml/predict`: the local mock scorer
 * (`mockMLPredict`) and the `POST` handler that prefers the remote Python
 * scorer and falls back to the mock one.
 */
module MlPredictRoute {
  import opened Wrappers
  import opened Risk
  import opened Numbers
  import Sequences
  import Text

  /** The request's `telemetry` object: numbers keyed by field name. */
  type Telemetry = map<string, real>

  /** `telemetry[key] || fallback`: an absent field and a zero both fall back. */
  function Field(t: Telemetry, key: string, fallback: real): (v: real)
    ensures key in t && t[key] != 0.0 ==> v == t[key]
    ensures key !in t || t[key] == 0.0 ==> v == fallback
  {
    if key in t && t[key] != 0.0 then t[key] else fallback
  }

  /** The scorer's inputs after the defaults are filled in. */
  datatype Features = Features(
    airTemperature: real,
    processTemperature: real,
    rotationalSpeed: real,
    torque: real,
    toolWear: real,
    vibration: real,
    pressure: real,
    humidity: real)

  function ModelInputs(t: Telemetry): Features {
    Features(
      Field(t, "air_temperature", 300.0),
      Field(t, "process_temperature", 310.0),
      Field(t, "rotational_speed", 1500.0),
      Field(t, "torque", 40.0),
      Field(t, "tool_wear", 0.0),
      Field(t, "vibration", 40.0),
      Field(t, "pressure", 100.0),
      Field(t, "humidity", 50.0))
  }

  // The four penalty terms, each zero unless its threshold is crossed.

  function ProcessTemperaturePenalty(f: Features): real {
    if f.processTemperature > 310.0 then (f.processTemperature - 310.0) * 2.0 else 0.0
  }

  function ToolWearPenalty(f: Features): real {
    if f.toolWear > 0.0 then f.toolWear * 0.5 else 0.0
  }

  function VibrationPenalty(f: Features): real {
    if f.vibration > 40.0 then (f.vibration - 40.0) * 1.5 else 0.0
  }

  function TorquePenalty(f: Features): real {
    if f.torque < 30.0 then (30.0 - f.torque) * 1.0 else 0.0
  }

  function TotalPenalty(f: Features): (p: real)
    ensures p >= 0.0
  {
    ProcessTemperaturePenalty(f) + ToolWearPenalty(f) + VibrationPenalty(f) + TorquePenalty(f)
  }

  /** `Math.max(0, Math.min(100, x))`. */
  function Clamp(x: real): (r: real)
    ensures 0.0 <= r <= 100.0
    ensures 0.0 <= x <= 100.0 ==> r == x
    ensures x < 0.0 ==> r == 0.0
    ensures x > 100.0 ==> r == 100.0
  {
    Max(0.0, Min(100.0, x))
  }

  /** The clamped health score before rounding: 100 less the penalties. */
  function HealthScore(f: Features): (s: real)
    ensures 0.0 <= s <= 100.0
  {
    Clamp(100.0 - TotalPenalty(f))
  }

  /**
   * `Math.round(x * 10) / 10`; `Math.round` rounds halves up. The result
   * is a whole number of tenths, within 0.05 of `x`, a half rounding up.
   */
  function RoundTenth(x: real): (r: real)
    ensures (r * 10.0).Floor as real == r * 10.0
    ensures x - 0.05 < r <= x + 0.05
  {
    var n := (x * 10.0 + 0.5).Floor;
    assert n as real <= x * 10.0 + 0.5 < n as real + 1.0;
    assert (n as real / 10.0) * 10.0 == n as real;
    n as real / 10.0
  }

  /** Rounding a score in [0,100] keeps it in [0,100] and moves it by at most 0.05. */
  lemma RoundTenthBounds(x: real)
    requires 0.0 <= x <= 100.0
    ensures 0.0 <= RoundTenth(x) <= 100.0
    ensures x - 0.05 < RoundTenth(x) <= x + 0.05
  {
    var y := x * 10.0 + 0.5;
    var n := y.Floor;
    assert n as real <= y < n as real + 1.0;
    assert 0 <= n <= 1000;
  }

  /** The per-tier probability table. */
  /** Every entry is a probability, and the computed tier carries the largest one. */
  function Probabilities(r: Risk): (p: Distribution)
    ensures forall t :: 0.0 <= p.Of(t) <= 1.0
    ensures forall t :: t != r ==> p.Of(t) < p.Of(r)
  {
    Distribution(
      if r == Low then 0.7 else if r == Medium then 0.2 else if r == High then 0.1 else 0.0,
      if r == Medium then 0.6 else if r == Low then 0.2 else if r == High then 0.15 else 0.05,
      if r == High then 0.6 else if r == Medium then 0.2 else if r == Critical then 0.15 else 0.05,
      if r == Critical then 0.7 else if r == High then 0.2 else if r == Medium then 0.1 else 0.0)
  }

  datatype ShapFeature = ShapFeature(feature: string, value: real, shapValue: real, impact: real)

  /** The sort key: `Math.abs(impact)`. */
  function Magnitude(s: ShapFeature): real {
    Abs(s.impact)
  }

  /** The six fixed candidates, in the order the scorer lists them. */
  function Candidates(f: Features): seq<ShapFeature> {
    [ ShapFeature("Process Temperature", f.processTemperature,
                  if f.processTemperature > 310.0 then -15.0 else -2.0,
                  if f.processTemperature > 310.0 then -25.0 else -5.0),
      ShapFeature("Tool Wear", f.toolWear, -f.toolWear * 0.1, -f.toolWear * 0.3),
      ShapFeature("Vibration", f.vibration,
                  if f.vibration > 40.0 then -12.0 else -3.0,
                  if f.vibration > 40.0 then -20.0 else -5.0),
      ShapFeature("Torque", f.torque,
                  if f.torque < 30.0 then -8.0 else 5.0,
                  if f.torque < 30.0 then -15.0 else 8.0),
      ShapFeature("Rotational Speed", f.rotationalSpeed, 3.0, 5.0),
      ShapFeature("Air Temperature", f.airTemperature, -2.0, -3.0) ]
  }

  /** `s.slice(0, n)`. */
  function Take<T>(s: seq<T>, n: nat): seq<T> {
    if |s| <= n then s else s[..n]
  }

  /** `.sort((a, b) => Math.abs(b.impact) - Math.abs(a.impact)).slice(0, 6)`. */
  function Ranked(c: seq<ShapFeature>): seq<ShapFeature> {
    Take(Sequences.SortDesc(c, Magnitude), 6)
  }

  function ShapFeatures(f: Features): seq<ShapFeature> {
    Ranked(Candidates(f))
  }

  /** Ranking at most six features keeps each of them once, by non-increasing |impact|. */
  lemma RankedIsSortedPermutation(c: seq<ShapFeature>)
    requires |c| <= 6
    ensures |Ranked(c)| == |c|
    ensures multiset(Ranked(c)) == multiset(c)
    ensures Sequences.SortedDesc(Ranked(c), Magnitude)
  {
    Sequences.SortDescSorted(c, Magnitude);
  }

  /** The ranked list holds all six candidates, each once, by non-increasing |impact|. */
  lemma ShapFeaturesRanked(f: Features)
    ensures |ShapFeatures(f)| == 6
    ensures multiset(ShapFeatures(f)) == multiset(Candidates(f))
    ensures Sequences.SortedDesc(ShapFeatures(f), Magnitude)
  {
    var c := Candidates(f);
    assert |c| == 6;
    RankedIsSortedPermutation(c);
  }

  /** What follows a tier's opening words. */
  function ExplanationRest(r: Risk): string {
    match r
    case Low => " health indicators. All telemetry parameters are within normal operating ranges."
    case Medium => " performance. Some telemetry parameters indicate potential maintenance needs in the near future."
    case High => " trends. Multiple telemetry parameters suggest increased failure risk. Immediate attention recommended."
    case Critical => " condition. Multiple telemetry parameters indicate high failure probability. Urgent maintenance required."
  }

  /** The sentence that follows "Machine <id>". */
  function ExplanationTail(r: Risk): string {
    Lead(r) + ExplanationRest(r)
  }

  function Explanation(machineId: string, r: Risk): string {
    "Machine " + machineId + ExplanationTail(r)
  }

  /** The explanation begins with "Machine <id>". */
  lemma ExplanationNamesMachine(machineId: string, r: Risk)
    ensures Explanation(machineId, r)[..8 + |machineId|] == "Machine " + machineId
  {
    var prefix := "Machine " + machineId;
    assert |prefix| == 8 + |machineId|;
    assert Explanation(machineId, r) == prefix + ExplanationTail(r);
  }

  /** Different tiers never share an explanation. */
  lemma ExplanationDeterminesTier(machineId: string, a: Risk, b: Risk)
    requires Explanation(machineId, a) == Explanation(machineId, b)
    ensures a == b
  {
    var prefix := "Machine " + machineId;
    Text.Associate(prefix, Lead(a), ExplanationRest(a));
    Text.Associate(prefix, Lead(b), ExplanationRest(b));
    LeadAfterPrefixDeterminesTier(prefix, ExplanationRest(a), ExplanationRest(b), a, b);
  }

  /** What `mockMLPredict` returns; `timestamp` is the caller's clock reading. */
  datatype Prediction = Prediction(
    score: real,
    risk: Risk,
    probability: Distribution,
    explanation: string,
    shapFeatures: seq<ShapFeature>,
    modelVersion: string,
    timestamp: int)

  /**
   * The mock scorer's result as a function of its inputs: the tier is the
   * clamped score's, the reported score lies within 0.05 of that clamped
   * score, and the tier carries the largest probability.
   */
  function MockPrediction(machineId: string, telemetry: Telemetry, now: int): (p: Prediction)
    ensures p.risk == Tier(HealthScore(ModelInputs(telemetry)))
    ensures HealthScore(ModelInputs(telemetry)) - 0.05 < p.score <= HealthScore(ModelInputs(telemetry)) + 0.05
    ensures forall t :: t != p.risk ==> p.probability.Of(t) < p.probability.Of(p.risk)
    ensures |p.shapFeatures| == 6 && p.modelVersion == "1.0.0" && p.timestamp == now
  {
    var f := ModelInputs(telemetry);
    var risk := Tier(HealthScore(f));
    Prediction(RoundTenth(HealthScore(f)), risk, Probabilities(risk),
               Explanation(machineId, risk), ShapFeatures(f), "1.0.0", now)
  }

  /**
   * `mockMLPredict`: start at 100, subtract each penalty whose threshold is
   * crossed, clamp, pick the tier from the clamped score, then round.
   */
  method MockMLPredict(machineId: string, telemetry: Telemetry, now: int) returns (r: Prediction)
    ensures r == MockPrediction(machineId, telemetry, now)
  {
    var features := ModelInputs(telemetry);
    var healthScore := 100.0;
    if features.processTemperature > 310.0 {
      healthScore := healthScore - (features.processTemperature - 310.0) * 2.0;
    }
    if features.toolWear > 0.0 {
      healthScore := healthScore - features.toolWear * 0.5;
    }
    if features.vibration > 40.0 {
      healthScore := healthScore - (features.vibration - 40.0) * 1.5;
    }
    if features.torque < 30.0 {
      healthScore := healthScore - (30.0 - features.torque) * 1.0;
    }
    healthScore := Max(0.0, Min(100.0, healthScore));
    assert healthScore == HealthScore(features);
    var risk;
    if healthScore >= 75.0 {
      risk := Low;
    } else if healthScore >= 50.0 {
      risk := Medium;
    } else if healthScore >= 25.0 {
      risk := High;
    } else {
      risk := Critical;
    }
    assert risk == Tier(HealthScore(features));
    r := Prediction(RoundTenth(healthScore), risk, Probabilities(risk),
                    Explanation(machineId, risk), ShapFeatures(features), "1.0.0", now);
  }

  /** The returned score lies in [0,100]: the clamp holds it there and rounding keeps it there. */
  lemma MockScoreInRange(machineId: string, telemetry: Telemetry, now: int)
    ensures 0.0 <= MockPrediction(machineId, telemetry, now).score <= 100.0
  {
    RoundTenthBounds(HealthScore(ModelInputs(telemetry)));
  }

  /** With every field absent no penalty applies: the score is 100 and the tier `low`. */
  lemma EmptyTelemetryIsHealthy(machineId: string, now: int)
    ensures MockPrediction(machineId, map[], now).score == 100.0
    ensures MockPrediction(machineId, map[], now).risk == Low
  {
    var f := ModelInputs(map[]);
    assert f == Features(300.0, 310.0, 1500.0, 40.0, 0.0, 40.0, 100.0, 50.0);
    assert TotalPenalty(f) == 0.0;
    assert HealthScore(f) == 100.0;
    var n := (100.0 * 10.0 + 0.5).Floor;
    assert n as real <= 1000.5 < n as real + 1.0;
    assert n == 1000;
    assert RoundTenth(100.0) == 100.0;
  }

  /**
   * Raising process temperature, tool wear or vibration, or lowering torque,
   * never raises the score.
   */
  lemma ScoreMonotone(f: Features, g: Features)
    requires g.processTemperature >= f.processTemperature
    requires g.toolWear >= f.toolWear
    requires g.vibration >= f.vibration
    requires g.torque <= f.torque
    ensures HealthScore(g) <= HealthScore(f)
  {
    assert ProcessTemperaturePenalty(g) >= ProcessTemperaturePenalty(f);
    assert ToolWearPenalty(g) >= ToolWearPenalty(f);
    assert VibrationPenalty(g) >= VibrationPenalty(f);
    assert TorquePenalty(g) >= TorquePenalty(f);
  }

  /**
   * Because defaults are applied with `||`, a torque of 0 reads as the
   * default 40 and escapes the low-torque penalty that a torque of 10 incurs.
   */
  lemma ZeroTorqueReadsAsDefault()
    ensures ModelInputs(map["torque" := 0.0]).torque == 40.0
    ensures HealthScore(ModelInputs(map["torque" := 0.0])) == 100.0
    ensures HealthScore(ModelInputs(map["torque" := 10.0])) == 80.0
  {
  }

  /**
   * The tier is taken from the clamped score before rounding, so the
   * returned score and tier can disagree at a boundary: a tool wear of
   * 50.08 leaves 74.96, which is `medium`, and is reported as 75.0.
   */
  lemma RoundedScoreCanCrossTier(machineId: string, now: int)
    ensures MockPrediction(machineId, map["tool_wear" := 50.08], now).score == 75.0
    ensures MockPrediction(machineId, map["tool_wear" := 50.08], now).risk == Medium
    ensures Tier(75.0) == Low
  {
    var f := ModelInputs(map["tool_wear" := 50.08]);
    assert f == Features(300.0, 310.0, 1500.0, 40.0, 50.08, 40.0, 100.0, 50.0);
    assert TotalPenalty(f) == 25.04;
    assert HealthScore(f) == 74.96;
    var n := (74.96 * 10.0 + 0.5).Floor;
    assert n as real <= 750.1 < n as real + 1.0;
    assert n == 750;
    assert RoundTenth(74.96) == 75.0;
  }

  /** JSON values, for the remote scorer's reply that the handler passes through. */
  datatype Json =
    | JNull
    | JBool(b: bool)
    | JNumber(n: real)
    | JString(s: string)
    | JArray(items: seq<Json>)
    | JObject(fields: map<string, Json>)

  /** JavaScript truthiness: `null`, `false`, `0` and `""` are falsy; arrays and objects never are. */
  predicate Truthy(v: Json) {
    match v
    case JNull => false
    case JBool(b) => b
    case JNumber(n) => n != 0.0
    case JString(s) => s != ""
    case JArray(_) => true
    case JObject(_) => true
  }

  /** `obj[key] || fallback`. */
  function OrDefault(obj: map<string, Json>, key: string, fallback: Json): Json {
    if key in obj && Truthy(obj[key]) then obj[key] else fallback
  }

  /**
   * `{...prediction, failureTypes: prediction.failureTypes || {},
   * featureResponsibilities: prediction.featureResponsibilities || []}`.
   */
  function WithEnrichmentDefaults(reply: map<string, Json>): (r: map<string, Json>)
    ensures r.Keys == reply.Keys + {"failureTypes", "featureResponsibilities"}
    ensures forall k :: k in reply && k != "failureTypes" && k != "featureResponsibilities" ==> r[k] == reply[k]
    ensures Truthy(r["failureTypes"]) && Truthy(r["featureResponsibilities"])
    ensures "failureTypes" in reply && Truthy(reply["failureTypes"]) ==> r["failureTypes"] == reply["failureTypes"]
    ensures "featureResponsibilities" in reply && Truthy(reply["featureResponsibilities"]) ==>
              r["featureResponsibilities"] == reply["featureResponsibilities"]
  {
    reply["failureTypes" := OrDefault(reply, "failureTypes", JObject(map[]))]
         ["featureResponsibilities" := OrDefault(reply, "featureResponsibilities", JArray([]))]
  }

  /** The request body's two fields; a field the body lacks is `None`. */
  datatype PredictRequest = PredictRequest(machineId: Option<string>, telemetry: Option<Telemetry>)

  /** `!machineId || !telemetry`: an empty id counts as missing; any object is present. */
  predicate MissingField(req: PredictRequest) {
    req.machineId.None? || req.machineId.value == "" || req.telemetry.None?
  }

  datatype PredictResponse =
    | BadRequest(error: string)          // status 400
    | Forwarded(body: map<string, Json>) // the remote scorer's reply
    | Scored(prediction: Prediction)     // the local mock scorer's result

  /**
   * `POST /api/ml/predict`. `remote` is the remote scorer's reply, or `None`
   * when the call failed, timed out or answered with a non-success status.
   */
  method Post(req: PredictRequest, remote: Option<map<string, Json>>, now: int) returns (resp: PredictResponse)
    ensures MissingField(req) ==> resp == BadRequest("Missing required fields: machineId and telemetry")
    ensures !MissingField(req) && remote.Some? ==> resp == Forwarded(WithEnrichmentDefaults(remote.value))
    ensures !MissingField(req) && remote.None? ==>
              resp == Scored(MockPrediction(req.machineId.value, req.telemetry.value, now))
  {
    if MissingField(req) {
      return BadRequest("Missing required fields: machineId and telemetry");
    }
    if remote.Some? {
      return Forwarded(WithEnrichmentDefaults(remote.value));
    }
    var prediction := MockMLPredict(req.machineId.value, req.telemetry.value, now);
    resp := Scored(prediction);
  }
}
