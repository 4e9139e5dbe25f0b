/**
 * The Flask `/predict` endpoint of the Python scoring service: everything
 * it does around the trained classifier. The classifier's outputs (the
 * failure probability, the predicted class, the feature importances and
 * the indices of the most important features) are inputs here.
 */
module PredictService {
  import opened Wrappers
  import opened Risk
  import opened Numbers
  import opened Text

  /** The request's `telemetry` dictionary. */
  type Telemetry = map<string, real>

  /** `telemetry.get(key, telemetry.get(alias, fallback))`: a present key wins, even when zero. */
  function Get(t: Telemetry, key: string, alias: string, fallback: real): (v: real)
    ensures key in t ==> v == t[key]
    ensures key !in t && alias in t ==> v == t[alias]
    ensures key !in t && alias !in t ==> v == fallback
  {
    if key in t then t[key] else if alias in t then t[alias] else fallback
  }

  /** `telemetry_map`: the six readings with their defaults. */
  datatype TelemetryMap = TelemetryMap(
    airTemperature: real,
    processTemperature: real,
    rotationalSpeed: real,
    torque: real,
    toolWear: real,
    machineType: real)

  function ReadTelemetry(t: Telemetry): TelemetryMap {
    TelemetryMap(
      Get(t, "air_temperature", "Air temperature K", 300.0),
      Get(t, "process_temperature", "Process temperature K", 310.0),
      Get(t, "rotational_speed", "Rotational speed rpm", 1500.0),
      Get(t, "torque", "Torque Nm", 40.0),
      Get(t, "tool_wear", "Tool wear min", 0.0),
      Get(t, "type", "Type", 0.0))
  }

  /** `np.pi`, as a rational constant. */
  const Pi: real := 3.141592653589793

  /** `2 * np.pi * speed / 60 * torque`. */
  function MechanicalPower(speed: real, torque: real): real {
    2.0 * Pi * speed / 60.0 * torque
  }

  /** The telemetry reading a model feature is filled from. */
  datatype Source =
    | AirTemperature
    | ProcessTemperature
    | RotationalSpeed
    | Torque
    | ToolWear
    | MachineType
    | TemperatureDifference
    | MechanicalPowerSource

  /** The rule that selects a source, tested on the normalised name. */
  predicate Rule(s: Source, n: string) {
    match s
    case AirTemperature => Contains(n, "air") && Contains(n, "temperature")
    case ProcessTemperature => Contains(n, "process") && Contains(n, "temperature")
    case RotationalSpeed => Contains(n, "rotational") || (Contains(n, "speed") && Contains(n, "rpm"))
    case Torque => Contains(n, "torque")
    case ToolWear => Contains(n, "tool") && Contains(n, "wear")
    case MachineType => n == "type"
    case TemperatureDifference => Contains(n, "temperature") && Contains(n, "difference")
    case MechanicalPowerSource => Contains(n, "mechanical") && Contains(n, "power")
  }

  /** The position of a source's rule in the `if`/`elif` chain. */
  function Precedence(s: Source): nat {
    match s
    case AirTemperature => 0
    case ProcessTemperature => 1
    case RotationalSpeed => 2
    case Torque => 3
    case ToolWear => 4
    case MachineType => 5
    case TemperatureDifference => 6
    case MechanicalPowerSource => 7
  }

  /** The rules tried in order on the normalised name; the first that matches decides. */
  function Classify(name: string): Option<Source> {
    var n := Normalize(name);
    if Contains(n, "air") && Contains(n, "temperature") then Some(AirTemperature)
    else if Contains(n, "process") && Contains(n, "temperature") then Some(ProcessTemperature)
    else if Contains(n, "rotational") || (Contains(n, "speed") && Contains(n, "rpm")) then Some(RotationalSpeed)
    else if Contains(n, "torque") then Some(Torque)
    else if Contains(n, "tool") && Contains(n, "wear") then Some(ToolWear)
    else if n == "type" then Some(MachineType)
    else if Contains(n, "temperature") && Contains(n, "difference") then Some(TemperatureDifference)
    else if Contains(n, "mechanical") && Contains(n, "power") then Some(MechanicalPowerSource)
    else None
  }

  /**
   * `Classify` picks the first source whose rule holds on the normalised
   * name, and gives `None` exactly when no rule holds.
   */
  lemma ClassifyFirstRule(name: string)
    ensures Classify(name).Some? ==> Rule(Classify(name).value, Normalize(name))
    ensures Classify(name).Some? ==>
              forall s :: Precedence(s) < Precedence(Classify(name).value) ==> !Rule(s, Normalize(name))
    ensures Classify(name).None? <==> forall s :: !Rule(s, Normalize(name))
  {
    var n := Normalize(name);
    if Rule(AirTemperature, n) {
      assert Classify(name) == Some(AirTemperature);
    } else if Rule(ProcessTemperature, n) {
      assert Classify(name) == Some(ProcessTemperature);
    } else if Rule(RotationalSpeed, n) {
      assert Classify(name) == Some(RotationalSpeed);
    } else if Rule(Torque, n) {
      assert Classify(name) == Some(Torque);
    } else if Rule(ToolWear, n) {
      assert Classify(name) == Some(ToolWear);
    } else if Rule(MachineType, n) {
      assert Classify(name) == Some(MachineType);
    } else if Rule(TemperatureDifference, n) {
      assert Classify(name) == Some(TemperatureDifference);
    } else if Rule(MechanicalPowerSource, n) {
      assert Classify(name) == Some(MechanicalPowerSource);
    } else {
      assert Classify(name) == None;
      forall s ensures !Rule(s, n) {
        match s
        case AirTemperature =>
        case ProcessTemperature =>
        case RotationalSpeed =>
        case Torque =>
        case ToolWear =>
        case MachineType =>
        case TemperatureDifference =>
        case MechanicalPowerSource =>
      }
    }
  }


  function SourceValue(s: Source, tm: TelemetryMap): real {
    match s
    case AirTemperature => tm.airTemperature
    case ProcessTemperature => tm.processTemperature
    case RotationalSpeed => tm.rotationalSpeed
    case Torque => tm.torque
    case ToolWear => tm.toolWear
    case MachineType => tm.machineType
    case TemperatureDifference => tm.processTemperature - tm.airTemperature
    case MechanicalPowerSource => MechanicalPower(tm.rotationalSpeed, tm.torque)
  }

  /** The words the defaults are chosen by. */
  const DefaultKeywords: set<string> := {"temperature", "speed", "torque", "wear", "difference", "power"}

  /**
   * The value for a feature no rule matched, chosen from its lower-cased
   * name; a name with none of the keywords gets 0.
   */
  function DefaultValue(name: string): (v: real)
    ensures v in {300.0, 310.0, 1500.0, 40.0, 0.0, 10.0, 100.0}
    ensures Contains(Lower(name), "temperature") ==> (v == 300.0 <==> Contains(name, "Air")) && (v == 300.0 || v == 310.0)
    ensures (forall k :: k in DefaultKeywords ==> !Contains(Lower(name), k)) ==> v == 0.0
  {
    var l := Lower(name);
    if Contains(l, "temperature") then (if Contains(name, "Air") then 300.0 else 310.0)
    else if Contains(l, "speed") then 1500.0
    else if Contains(l, "torque") then 40.0
    else if Contains(l, "wear") then 0.0
    else if Contains(l, "difference") then 10.0
    else if Contains(l, "power") then 100.0
    else 0.0
  }

  /** The entry `feature_vector` holds for a feature name. */
  function FeatureValue(name: string, tm: TelemetryMap): real {
    match Classify(name)
    case Some(s) => SourceValue(s, tm)
    case None => DefaultValue(name)
  }

  /**
   * The first loop: fill the `features` dictionary with the value of the
   * first matching rule, for every name some rule matches.
   */
  method MatchFeatures(names: seq<string>, tm: TelemetryMap) returns (features: map<string, real>)
    ensures forall n :: n in features ==> Classify(n).Some? && features[n] == SourceValue(Classify(n).value, tm)
    ensures forall j :: 0 <= j < |names| && Classify(names[j]).Some? ==> names[j] in features
  {
    features := map[];
    var i := 0;
    while i < |names|
      invariant 0 <= i <= |names|
      invariant forall n :: n in features ==> Classify(n).Some? && features[n] == SourceValue(Classify(n).value, tm)
      invariant forall j :: 0 <= j < i && Classify(names[j]).Some? ==> names[j] in features
    {
      var source := Classify(names[i]);
      if source.Some? {
        features := features[names[i] := SourceValue(source.value, tm)];
      }
      i := i + 1;
    }
  }

  /**
   * Build `feature_vector`: the matched value for each name, or the
   * name-based default for names no rule matched.
   */
  method BuildFeatureVector(names: seq<string>, tm: TelemetryMap) returns (featureVector: seq<real>)
    ensures |featureVector| == |names|
    ensures forall i :: 0 <= i < |names| ==> featureVector[i] == FeatureValue(names[i], tm)
  {
    var features := MatchFeatures(names, tm);
    featureVector := [];
    var i := 0;
    while i < |names|
      invariant 0 <= i <= |names|
      invariant |featureVector| == i
      invariant forall j :: 0 <= j < i ==> featureVector[j] == FeatureValue(names[j], tm)
    {
      if names[i] in features {
        featureVector := featureVector + [features[names[i]]];
      } else {
        featureVector := featureVector + [DefaultValue(names[i])];
      }
      i := i + 1;
    }
  }

  /**
   * The torque default (40) is never used: a name whose lower-cased form
   * mentions "torque" still does after spaces and brackets are removed,
   * so some rule matches it.
   */
  lemma TorqueNamesAlwaysMatch(name: string)
    requires Contains(Lower(name), "torque")
    ensures Classify(name).Some?
  {
    StripKeepsSubstring(Lower(name), "torque");
  }

  /**
   * Nor is the air-temperature default (300): an unmatched name that
   * mentions "temperature" cannot contain "Air", or the first rule would
   * have matched it, so it gets 310.
   */
  lemma UnmatchedTemperatureGets310(name: string)
    requires Classify(name).None?
    requires Contains(Lower(name), "temperature")
    ensures DefaultValue(name) == 310.0
  {
    ClassifyFirstRule(name);
    assert !Rule(AirTemperature, Normalize(name));
    UnmatchedNameLacksAir(name);
  }

  /** The step behind it: "Air" in the raw name would make the first rule match. */
  lemma UnmatchedNameLacksAir(name: string)
    requires !(Contains(Normalize(name), "air") && Contains(Normalize(name), "temperature"))
    requires Contains(Lower(name), "temperature")
    ensures !Contains(name, "Air")
  {
    if Contains(name, "Air") {
      AirSurvivesNormalize(name);
      StripKeepsSubstring(Lower(name), "temperature");
      assert false;
    }
  }

  lemma AirSurvivesNormalize(name: string)
    requires Contains(name, "Air")
    ensures Contains(Normalize(name), "air")
  {
    LowerKeepsSubstring(name, "Air");
    assert Lower("Air") == "air";
    StripKeepsSubstring(Lower(name), "air");
  }


  /** `health_score = (1 - failure_probability) * 100`. */
  function HealthScore(p: real): real {
    (1.0 - p) * 100.0
  }

  /** A probability gives a score in [0,100], and the tier follows the shared thresholds. */
  lemma HealthScoreInRange(p: real)
    requires 0.0 <= p <= 1.0
    ensures 0.0 <= HealthScore(p) <= 100.0
    ensures Tier(HealthScore(p)) == Low <==> p <= 0.25
    ensures Tier(HealthScore(p)) == Critical <==> p > 0.75
  {
  }

  /** The reply's `probability` field. */
  function ReplyProbabilities(r: Risk, p: real): (d: Distribution)
    requires 0.0 <= p <= 1.0
    ensures forall t :: 0.0 <= d.Of(t) <= 1.0
    ensures forall t :: t != r ==> d.Of(t) == 0.1
  {
    Distribution(
      if r == Low then 1.0 - p else 0.1,
      if r == Medium then 0.3 else 0.1,
      if r == High then p * 0.6 else 0.1,
      if r == Critical then p else 0.1)
  }

  // ---------------------------------------------------------------------
  // Signed feature impacts

  datatype ShapFeature = ShapFeature(feature: string, value: real, shapValue: real, impact: real)

  /** `feature_importance.max()`. */
  function MaxOf(s: seq<real>): (m: real)
    requires |s| > 0
    ensures forall i :: 0 <= i < |s| ==> s[i] <= m
    ensures exists i :: 0 <= i < |s| && s[i] == m
  {
    if |s| == 1 then s[0]
    else
      var rest := MaxOf(s[1..]);
      assert forall i :: 1 <= i < |s| ==> s[i] == s[1..][i - 1];
      if s[0] >= rest then s[0] else rest
  }

  /** `feature_importance.max() if feature_importance.max() > 0 else 1`. */
  function Normaliser(importances: seq<real>): (m: real)
    requires |importances| > 0
    ensures m > 0.0
  {
    if MaxOf(importances) > 0.0 then MaxOf(importances) else 1.0
  }

  /** The baseline a temperature feature is compared with. */
  function TemperatureBaseline(lowerName: string): real {
    if Contains(lowerName, "process") then 310.0 else 300.0
  }

  /**
   * Whether a feature counts against the machine: a wear feature above 0,
   * a temperature feature above its baseline, and any other feature
   * exactly when a failure is predicted.
   */
  predicate CountsAgainst(name: string, value: real, failurePredicted: bool) {
    var l := Lower(name);
    if Contains(l, "wear") then value > 0.0
    else if Contains(l, "temperature") then value > TemperatureBaseline(l)
    else failurePredicted
  }

  /** The importance, normalised to the largest one and scaled to a percentage, with its sign. */
  function Impact(importance: real, normaliser: real, against: bool): (r: real)
    requires normaliser > 0.0
    ensures Abs(r) == Abs(importance / normaliser * 100.0)
    ensures against ==> r <= 0.0
    ensures !against ==> r >= 0.0
  {
    var magnitude := Abs(importance / normaliser * 100.0);
    if against then -magnitude else magnitude
  }

  /** The entry `shap_features` gets for feature index `idx`. */
  function ShapEntry(names: seq<string>, featureVector: seq<real>, importances: seq<real>,
                     idx: nat, failurePredicted: bool): ShapFeature
    requires |featureVector| == |names| == |importances|
    requires idx < |names|
  {
    ShapFeature(names[idx], featureVector[idx], importances[idx] * 10.0,
                Impact(importances[idx], Normaliser(importances),
                       CountsAgainst(names[idx], featureVector[idx], failurePredicted)))
  }

  /** The indices `argsort` produced are indices of the feature list. */
  predicate ValidIndices(top: seq<nat>, n: nat) {
    forall j :: 0 <= j < |top| ==> top[j] < n
  }

  /** The loop over the top feature indices that builds `shap_features`. */
  method ShapFeatures(names: seq<string>, featureVector: seq<real>, importances: seq<real>,
                      top: seq<nat>, failurePredicted: bool) returns (shap: seq<ShapFeature>)
    requires |featureVector| == |names| == |importances|
    requires ValidIndices(top, |names|)
    ensures |shap| == |top|
    ensures forall j :: 0 <= j < |top| ==>
              shap[j] == ShapEntry(names, featureVector, importances, top[j], failurePredicted)
  {
    shap := [];
    var j := 0;
    while j < |top|
      invariant 0 <= j <= |top|
      invariant |shap| == j
      invariant forall k :: 0 <= k < j ==>
                  shap[k] == ShapEntry(names, featureVector, importances, top[k], failurePredicted)
    {
      var idx := top[j];
      var maxImportance := if MaxOf(importances) > 0.0 then MaxOf(importances) else 1.0;
      var impact := importances[idx] / maxImportance * 100.0;
      var l := Lower(names[idx]);
      if Contains(l, "wear") {
        impact := if featureVector[idx] > 0.0 then -Abs(impact) else Abs(impact);
      } else if Contains(l, "temperature") {
        var baseline := if Contains(l, "process") then 310.0 else 300.0;
        impact := if featureVector[idx] > baseline then -Abs(impact) else Abs(impact);
      } else if failurePredicted {
        impact := -Abs(impact);
      } else {
        impact := Abs(impact);
      }
      shap := shap + [ShapFeature(names[idx], featureVector[idx], importances[idx] * 10.0, impact)];
      j := j + 1;
    }
  }

  lemma RatioAtMostOne(x: real, m: real)
    requires 0.0 <= x <= m && m > 0.0
    ensures 0.0 <= x / m <= 1.0
    ensures x == m ==> x / m == 1.0
  {
    assert m * (x / m) == x;
  }

  /**
   * With non-negative importances (as a gradient-boosted model reports
   * them) every impact lies in [-100,100], and the most important feature
   * has magnitude exactly 100 unless all importances are zero.
   */
  lemma ImpactWithinHundred(importances: seq<real>, idx: nat, against: bool)
    requires idx < |importances|
    requires forall i :: 0 <= i < |importances| ==> importances[i] >= 0.0
    ensures -100.0 <= Impact(importances[idx], Normaliser(importances), against) <= 100.0
    ensures importances[idx] == MaxOf(importances) > 0.0 ==>
              Abs(Impact(importances[idx], Normaliser(importances), against)) == 100.0
  {
    var m := Normaliser(importances);
    var x := importances[idx];
    if MaxOf(importances) > 0.0 {
      RatioAtMostOne(x, m);
    } else {
      assert x == 0.0;
    }
    var ratio := x / m;
    assert 0.0 <= ratio <= 1.0;
    assert Abs(Impact(x, m, against)) == Abs(ratio * 100.0);
  }

  // ---------------------------------------------------------------------
  // Failure-type probabilities (`predict_failure_types`)

  /** `min(1.0, max(0.0, x))`. */
  function Clamp01(x: real): (r: real)
    ensures 0.0 <= r <= 1.0
    ensures 0.0 <= x <= 1.0 ==> r == x
  {
    Min(1.0, Max(0.0, x))
  }

  /** Tool wear failure: clamped above 200 minutes, linear up to 0.5 below. */
  function Twf(toolWear: real): (r: real)
    ensures toolWear > 200.0 ==> 0.0 <= r <= 1.0
    ensures 0.0 <= toolWear <= 200.0 ==> 0.0 <= r <= 0.5
    ensures r <= 1.0
    ensures r >= 0.0 <==> toolWear >= 0.0
  {
    if toolWear > 200.0 then Clamp01((toolWear - 200.0) / 100.0) else (toolWear / 200.0) * 0.5
  }

  /** Heat dissipation failure: clamped above a 10 K difference, linear up to 0.3 below. */
  function Hdf(temperatureDifference: real): (r: real)
    ensures temperatureDifference > 10.0 ==> 0.0 <= r <= 1.0
    ensures 0.0 <= temperatureDifference <= 10.0 ==> 0.0 <= r <= 0.3
    ensures r <= 1.0
    ensures r >= 0.0 <==> temperatureDifference >= 0.0
  {
    if temperatureDifference > 10.0 then Clamp01((temperatureDifference - 10.0) / 10.0)
    else (temperatureDifference / 10.0) * 0.3
  }

  /**
   * Power failure: from a torque deficit below 40 Nm, raised to the
   * low-power estimate when mechanical power is under 5000 W.
   */
  function Pwf(torque: real, power: real): (r: real)
    ensures 0.0 <= r <= 1.0
    ensures torque >= 40.0 && power >= 5000.0 ==> r == 0.0
  {
    var fromTorque := if torque < 40.0 then Clamp01((40.0 - torque) / 20.0) else 0.0;
    if power < 5000.0 then Max(fromTorque, Min(1.0, (5000.0 - power) / 3000.0)) else fromTorque
  }

  /** Overstrain failure: clamped above 1800 rpm, linear up to 0.2 below. */
  function Osf(speed: real): (r: real)
    ensures speed > 1800.0 ==> 0.0 <= r <= 1.0
    ensures 0.0 <= speed <= 1800.0 ==> 0.0 <= r <= 0.2
    ensures r <= 1.0
    ensures r >= 0.0 <==> speed >= 0.0
  {
    if speed > 1800.0 then Clamp01((speed - 1800.0) / 400.0) else (speed / 1800.0) * 0.2
  }

  /** Random failure: a weighted mix of the other four, capped at 1. */
  function Rnf(twf: real, hdf: real, pwf: real, osf: real): (r: real)
    ensures r <= 1.0
    ensures 0.0 <= twf <= 1.0 && 0.0 <= hdf <= 1.0 && 0.0 <= pwf <= 1.0 && 0.0 <= osf <= 1.0 ==>
              0.0 <= r <= 1.0
  {
    Min(1.0, twf * 0.3 + hdf * 0.3 + pwf * 0.2 + osf * 0.2)
  }

  datatype FailureTypes = FailureTypes(twf: real, hdf: real, pwf: real, osf: real, rnf: real)

  /** `feat_dict[name]`: the last index holding `name`, since later entries overwrite earlier ones. */
  function LastIndexOf(names: seq<string>, name: string): (i: nat)
    requires name in names
    ensures i < |names| && names[i] == name
    ensures forall j :: i < j < |names| ==> names[j] != name
  {
    if names[|names| - 1] == name then |names| - 1
    else LastIndexOf(names[..|names| - 1], name)
  }

  /** `feature_vector[feat_dict[name]] if name in feat_dict else fallback`. */
  function Lookup(names: seq<string>, featureVector: seq<real>, name: string, fallback: real): (v: real)
    requires |featureVector| == |names|
    ensures name !in names ==> v == fallback
    ensures forall i :: 0 <= i < |names| && names[i] == name && name !in names[i + 1..] ==> v == featureVector[i]
  {
    if name in names then featureVector[LastIndexOf(names, name)] else fallback
  }

  /**
   * `predict_failure_types`, before the three-decimal rounding for display.
   * A reading comes from the last model feature of its exact name, and
   * from the telemetry when the model has no such feature.
   */
  function PredictFailureTypes(tm: TelemetryMap, featureVector: seq<real>, names: seq<string>): (ft: FailureTypes)
    requires |featureVector| == |names|
    ensures "Tool wear min" !in names ==> ft.twf == Twf(tm.toolWear)
    ensures forall i :: 0 <= i < |names| && names[i] == "Tool wear min" && "Tool wear min" !in names[i + 1..] ==>
              ft.twf == Twf(featureVector[i])
    ensures "Rotational speed rpm" !in names ==> ft.osf == Osf(tm.rotationalSpeed)
    ensures forall i :: 0 <= i < |names| && names[i] == "Rotational speed rpm" && "Rotational speed rpm" !in names[i + 1..] ==>
              ft.osf == Osf(featureVector[i])
  {
    var toolWear := Lookup(names, featureVector, "Tool wear min", tm.toolWear);
    var airTemp := Lookup(names, featureVector, "Air temperature K", tm.airTemperature);
    var processTemp := Lookup(names, featureVector, "Process temperature K", tm.processTemperature);
    var speed := Lookup(names, featureVector, "Rotational speed rpm", tm.rotationalSpeed);
    var torque := Lookup(names, featureVector, "Torque Nm", tm.torque);
    var power := MechanicalPower(speed, torque);
    var twf := Twf(toolWear);
    var hdf := Hdf(processTemp - airTemp);
    var pwf := Pwf(torque, power);
    var osf := Osf(speed);
    FailureTypes(twf, hdf, pwf, osf, Rnf(twf, hdf, pwf, osf))
  }

  /**
   * Every probability is at most 1 and PWF is never negative; the other
   * three are negative only for negative readings, and once they are not,
   * RNF lies in [0,1] too.
   */
  lemma FailureTypesBounded(tm: TelemetryMap, featureVector: seq<real>, names: seq<string>)
    requires |featureVector| == |names|
    ensures var ft := PredictFailureTypes(tm, featureVector, names);
            ft.twf <= 1.0 && ft.hdf <= 1.0 && ft.osf <= 1.0 && ft.rnf <= 1.0
    ensures 0.0 <= PredictFailureTypes(tm, featureVector, names).pwf <= 1.0
    ensures var ft := PredictFailureTypes(tm, featureVector, names);
            ft.twf >= 0.0 && ft.hdf >= 0.0 && ft.osf >= 0.0 ==> 0.0 <= ft.rnf <= 1.0
  {
  }

  /**
   * As written, the below-threshold branches are not clamped: air hotter
   * than the process gives a negative heat-dissipation "probability".
   */
  lemma AirHotterThanProcessGivesNegativeHdf()
    ensures Hdf(300.0 - 305.0) == -0.15
  {
  }

  // ---------------------------------------------------------------------
  // Feature responsibilities (`get_feature_responsibility` and its loop)

  datatype FailureType = TWF | HDF | PWF | OSF

  datatype Responsibility = Responsibility(failureType: FailureType, probability: real)

  /** Some entry of `rs` blames failure type `t`. */
  predicate Blames(rs: seq<Responsibility>, t: FailureType) {
    exists e :: e in rs && e.failureType == t
  }

  /**
   * The failure types a feature is responsible for, in the order TWF,
   * HDF, PWF, OSF, decided on its lower-cased name; the four lemmas after
   * it state the rule for each type. The reason texts are not modelled.
   */
  function Responsibilities(name: string, value: real, ft: FailureTypes): (rs: seq<Responsibility>)
    ensures |rs| <= 4
  {
    var l := Lower(name);
    var wear := if Contains(l, "wear") then [Responsibility(TWF, ft.twf)] else [];
    var heat :=
      if !Contains(l, "temperature") then []
      else if Contains(l, "difference") || Contains(l, "process") then [Responsibility(HDF, ft.hdf)]
      else if Contains(l, "air") && value > 310.0 then [Responsibility(HDF, ft.hdf * 0.5)]
      else [];
    var power := if Contains(l, "torque") || Contains(l, "power") then [Responsibility(PWF, ft.pwf)] else [];
    var strain := if Contains(l, "speed") || Contains(l, "rotational") then [Responsibility(OSF, ft.osf)] else [];
    wear + heat + power + strain
  }

  /** The parts of `Responsibilities` that blame each type, in order. */
  lemma ResponsibilitiesParts(name: string, value: real, ft: FailureTypes)
    ensures var l := Lower(name);
            forall e :: e in Responsibilities(name, value, ft) <==>
              (Contains(l, "wear") && e == Responsibility(TWF, ft.twf)) ||
              (Contains(l, "temperature") && (Contains(l, "difference") || Contains(l, "process")) &&
                 e == Responsibility(HDF, ft.hdf)) ||
              (Contains(l, "temperature") && !(Contains(l, "difference") || Contains(l, "process")) &&
                 Contains(l, "air") && value > 310.0 && e == Responsibility(HDF, ft.hdf * 0.5)) ||
              ((Contains(l, "torque") || Contains(l, "power")) && e == Responsibility(PWF, ft.pwf)) ||
              ((Contains(l, "speed") || Contains(l, "rotational")) && e == Responsibility(OSF, ft.osf))
  {
  }

  /** A feature is blamed for tool-wear failure exactly when its name mentions wear, with the TWF probability. */
  lemma TwfResponsibility(name: string, value: real, ft: FailureTypes)
    ensures Blames(Responsibilities(name, value, ft), TWF) <==> Contains(Lower(name), "wear")
    ensures forall e :: e in Responsibilities(name, value, ft) && e.failureType == TWF ==> e.probability == ft.twf
  {
    ResponsibilitiesParts(name, value, ft);
  }

  /**
   * A temperature feature is blamed for heat-dissipation failure when it is
   * a process or difference temperature, with the HDF probability, or else
   * when it is an air temperature above 310 K, with half of it.
   */
  lemma HdfResponsibility(name: string, value: real, ft: FailureTypes)
    ensures Blames(Responsibilities(name, value, ft), HDF) <==>
              Contains(Lower(name), "temperature") &&
              (Contains(Lower(name), "difference") || Contains(Lower(name), "process") ||
               (Contains(Lower(name), "air") && value > 310.0))
    ensures forall e :: e in Responsibilities(name, value, ft) && e.failureType == HDF ==>
              e.probability == if Contains(Lower(name), "difference") || Contains(Lower(name), "process")
                               then ft.hdf else ft.hdf * 0.5
  {
    ResponsibilitiesParts(name, value, ft);
  }

  /** A torque or power feature is blamed for power failure, with the PWF probability. */
  lemma PwfResponsibility(name: string, value: real, ft: FailureTypes)
    ensures Blames(Responsibilities(name, value, ft), PWF) <==>
              Contains(Lower(name), "torque") || Contains(Lower(name), "power")
    ensures forall e :: e in Responsibilities(name, value, ft) && e.failureType == PWF ==> e.probability == ft.pwf
  {
    ResponsibilitiesParts(name, value, ft);
  }

  /** A speed or rotation feature is blamed for overstrain failure, with the OSF probability. */
  lemma OsfResponsibility(name: string, value: real, ft: FailureTypes)
    ensures Blames(Responsibilities(name, value, ft), OSF) <==>
              Contains(Lower(name), "speed") || Contains(Lower(name), "rotational")
    ensures forall e :: e in Responsibilities(name, value, ft) && e.failureType == OSF ==> e.probability == ft.osf
  {
    ResponsibilitiesParts(name, value, ft);
  }

  datatype FeatureResponsibility = FeatureResponsibility(feature: string, value: real, responsibleFor: seq<Responsibility>)

  /**
   * The `feature_responsibilities` list for the feature indices `idxs`,
   * in order, skipping features responsible for nothing.
   */
  function ResponsibilityEntries(names: seq<string>, featureVector: seq<real>, ft: FailureTypes,
                                 idxs: seq<nat>): (r: seq<FeatureResponsibility>)
    requires |featureVector| == |names|
    requires ValidIndices(idxs, |names|)
    ensures |r| <= |idxs|
    ensures forall e :: e in r ==> e.responsibleFor != []
  {
    if idxs == [] then []
    else
      var init := idxs[..|idxs| - 1];
      var last := idxs[|idxs| - 1];
      var rs := Responsibilities(names[last], featureVector[last], ft);
      var earlier := ResponsibilityEntries(names, featureVector, ft, init);
      earlier + (if rs != [] then [FeatureResponsibility(names[last], featureVector[last], rs)] else [])
  }

  /** `top_features_idx[:5]`. */
  function FirstFive(top: seq<nat>): (r: seq<nat>)
    ensures |r| <= 5 && |r| <= |top| && r == top[..|r|]
    ensures |top| <= 5 ==> r == top
  {
    if |top| <= 5 then top else top[..5]
  }

  /** The loop over the five most important features that builds `feature_responsibilities`. */
  method FeatureResponsibilities(names: seq<string>, featureVector: seq<real>, ft: FailureTypes,
                                 top: seq<nat>) returns (entries: seq<FeatureResponsibility>)
    requires |featureVector| == |names|
    requires ValidIndices(top, |names|)
    ensures entries == ResponsibilityEntries(names, featureVector, ft, FirstFive(top))
    ensures |entries| <= 5
  {
    var topFive := FirstFive(top);
    entries := [];
    var j := 0;
    while j < |topFive|
      invariant 0 <= j <= |topFive|
      invariant entries == ResponsibilityEntries(names, featureVector, ft, topFive[..j])
    {
      var idx := topFive[j];
      var responsibilities := Responsibilities(names[idx], featureVector[idx], ft);
      if responsibilities != [] {
        entries := entries + [FeatureResponsibility(names[idx], featureVector[idx], responsibilities)];
      }
      assert topFive[..j + 1][..j] == topFive[..j];
      j := j + 1;
    }
    assert topFive[..j] == topFive;
  }

  /** Every responsibility entry comes from one of the indices it was built from. */
  lemma {:induction false} ResponsibilityEntryFromIndex(names: seq<string>, featureVector: seq<real>,
                                                        ft: FailureTypes, idxs: seq<nat>, e: FeatureResponsibility)
    requires |featureVector| == |names|
    requires ValidIndices(idxs, |names|)
    requires e in ResponsibilityEntries(names, featureVector, ft, idxs)
    ensures exists j :: 0 <= j < |idxs| && e == FeatureResponsibility(names[idxs[j]], featureVector[idxs[j]],
                          Responsibilities(names[idxs[j]], featureVector[idxs[j]], ft))
  {
    var init := idxs[..|idxs| - 1];
    var last := idxs[|idxs| - 1];
    var rs := Responsibilities(names[last], featureVector[last], ft);
    if e in ResponsibilityEntries(names, featureVector, ft, init) {
      ResponsibilityEntryFromIndex(names, featureVector, ft, init, e);
      var j :| 0 <= j < |init| && e == FeatureResponsibility(names[init[j]], featureVector[init[j]],
                 Responsibilities(names[init[j]], featureVector[init[j]], ft));
      assert init[j] == idxs[j];
    } else {
      assert e == FeatureResponsibility(names[last], featureVector[last], rs);
    }
  }

  /**
   * The entries follow the order of the indices: the entries for `a + b`
   * are those for `a` followed by those for `b`.
   */
  lemma {:induction false} ResponsibilityEntriesAppend(names: seq<string>, featureVector: seq<real>,
                                                       ft: FailureTypes, a: seq<nat>, b: seq<nat>)
    requires |featureVector| == |names|
    requires ValidIndices(a, |names|) && ValidIndices(b, |names|)
    ensures ValidIndices(a + b, |names|)
    ensures ResponsibilityEntries(names, featureVector, ft, a + b) ==
            ResponsibilityEntries(names, featureVector, ft, a) + ResponsibilityEntries(names, featureVector, ft, b)
  {
    assert forall i :: 0 <= i < |a + b| ==> (a + b)[i] in a || (a + b)[i] in b;
    if b == [] {
      assert a + b == a;
    } else {
      var init := b[..|b| - 1];
      var last := b[|b| - 1];
      assert (a + b)[..|a + b| - 1] == a + init;
      assert (a + b)[|a + b| - 1] == last;
      assert ValidIndices(init, |names|) by {
        assert forall i :: 0 <= i < |init| ==> init[i] == b[i];
      }
      ResponsibilityEntriesAppend(names, featureVector, ft, a, init);
    }
  }

  /**
   * Conversely, every examined feature responsible for some failure type
   * gets its entry.
   */
  lemma EntryForResponsibleIndex(names: seq<string>, featureVector: seq<real>,
                                 ft: FailureTypes, idxs: seq<nat>, j: nat)
    requires |featureVector| == |names|
    requires ValidIndices(idxs, |names|)
    requires j < |idxs|
    requires Responsibilities(names[idxs[j]], featureVector[idxs[j]], ft) != []
    ensures FeatureResponsibility(names[idxs[j]], featureVector[idxs[j]],
              Responsibilities(names[idxs[j]], featureVector[idxs[j]], ft))
            in ResponsibilityEntries(names, featureVector, ft, idxs)
  {
    var before, at, after := idxs[..j], [idxs[j]], idxs[j + 1..];
    assert idxs == before + at + after;
    assert ValidIndices(before, |names|) && ValidIndices(at, |names|) && ValidIndices(after, |names|) by {
      assert forall i :: 0 <= i < |before| ==> before[i] == idxs[i];
      assert forall i :: 0 <= i < |after| ==> after[i] == idxs[j + 1 + i];
    }
    ResponsibilityEntriesAppend(names, featureVector, ft, before, at);
    ResponsibilityEntriesAppend(names, featureVector, ft, before + at, after);
    assert at[..0] == [];
  }

  // ---------------------------------------------------------------------
  // Explanation and the whole reply

  /**
   * The text after the tier's lead in `explanations[risk]`; `percent`
   * stands for the probability formatted to one decimal percent.
   */
  function ExplanationRest(r: Risk, percent: string): string {
    match r
    case Low => " health indicators. All telemetry parameters are within normal operating ranges. Failure probability: " + percent
    case Medium => " performance. Some telemetry parameters indicate potential maintenance needs. Failure probability: " + percent
    case High => " trends. Multiple telemetry parameters suggest increased failure risk. Failure probability: " + percent
    case Critical => " condition. High failure probability detected: " + percent + ". Urgent maintenance required."
  }

  function Explanation(machineId: string, r: Risk, percent: string): string {
    "Machine " + machineId + Lead(r) + ExplanationRest(r, percent)
  }

  /** The explanation names the tier: two explanations for one machine agree only if their tiers do. */
  lemma ExplanationDeterminesTier(machineId: string, a: Risk, b: Risk, percentA: string, percentB: string)
    requires Explanation(machineId, a, percentA) == Explanation(machineId, b, percentB)
    ensures a == b
  {
    LeadAfterPrefixDeterminesTier("Machine " + machineId, ExplanationRest(a, percentA), ExplanationRest(b, percentB), a, b);
  }

  /** What the trained classifier and its formatter contribute to one request. */
  datatype ModelOutputs = ModelOutputs(
    failureProbability: real,    // predict_proba(X)[0][1]
    failurePredicted: bool,      // predict(X)[0]
    importances: seq<real>,      // feature_importances_
    top: seq<nat>,               // argsort(importances)[::-1][:6]
    percent: string)             // the probability formatted as a percentage

  predicate WellFormed(model: ModelOutputs, names: seq<string>) {
    && 0.0 <= model.failureProbability <= 1.0
    && |model.importances| == |names|
    && ValidIndices(model.top, |names|)
  }

  datatype Reply = Reply(
    score: real,
    risk: Risk,
    probability: Distribution,
    explanation: string,
    shapFeatures: seq<ShapFeature>,
    failureTypes: FailureTypes,
    featureResponsibilities: seq<FeatureResponsibility>,
    modelVersion: string,
    timestamp: int,
    failureProbability: real,
    failurePredicted: bool)

  /** The feature vector the first two loops of the handler build. */
  function ExpectedFeatures(names: seq<string>, tm: TelemetryMap): (v: seq<real>)
    ensures |v| == |names|
  {
    seq(|names|, i requires 0 <= i < |names| => FeatureValue(names[i], tm))
  }

  /**
   * The `/predict` handler: read the telemetry, build the feature vector,
   * score it, and assemble the reply. The machine id defaults to
   * "unknown" only when the key is absent.
   */
  method Predict(machineId: Option<string>, telemetry: Telemetry, names: seq<string>,
                 model: ModelOutputs, now: int) returns (reply: Reply)
    requires WellFormed(model, names)
    ensures var p := model.failureProbability;
            && reply.score == HealthScore(p)
            && 0.0 <= reply.score <= 100.0
            && reply.risk == Tier(HealthScore(p))
            && reply.probability == ReplyProbabilities(reply.risk, p)
            && reply.explanation == Explanation(machineId.GetOr("unknown"), reply.risk, model.percent)
            && reply.failureProbability == p
            && reply.failurePredicted == model.failurePredicted
            && reply.modelVersion == "1.0.0"
            && reply.timestamp == now
    ensures var fv := ExpectedFeatures(names, ReadTelemetry(telemetry));
            && |reply.shapFeatures| == |model.top|
            && (forall j :: 0 <= j < |model.top| ==>
                  reply.shapFeatures[j] == ShapEntry(names, fv, model.importances, model.top[j], model.failurePredicted))
            && reply.failureTypes == PredictFailureTypes(ReadTelemetry(telemetry), fv, names)
            && reply.featureResponsibilities == ResponsibilityEntries(names, fv, reply.failureTypes, FirstFive(model.top))
  {
    var id := machineId.GetOr("unknown");
    var tm := ReadTelemetry(telemetry);
    var featureVector := BuildFeatureVector(names, tm);
    assert featureVector == ExpectedFeatures(names, tm);
    var p := model.failureProbability;
    var healthScore := HealthScore(p);
    HealthScoreInRange(p);
    var risk := Tier(healthScore);
    var shap := ShapFeatures(names, featureVector, model.importances, model.top, model.failurePredicted);
    var failureTypes := PredictFailureTypes(tm, featureVector, names);
    var responsibilities := FeatureResponsibilities(names, featureVector, failureTypes, model.top);
    reply := Reply(healthScore, risk, ReplyProbabilities(risk, p), Explanation(id, risk, model.percent),
                   shap, failureTypes, responsibilities, "1.0.0", now, p, model.failurePredicted);
  }
}
