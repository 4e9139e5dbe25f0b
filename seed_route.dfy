/**
 * The demo reseed of `app/api/seed/route.ts`: both stores are emptied and
 * refilled with three fixed predictions and two fixed alerts dated one,
 * two and three weeks before the request.
 */
module SeedRoute {
  import opened Wrappers
  import opened Dates
  import opened Risk
  import Sequences
  import P = PredictionsRoute
  import A = AlertsRoute

  const WeekMs: int := 7 * DayMs

  /**
   * The seeded predictions; `now` is the request time and `stamp` the
   * text of `Date.now()` that the ids embed.
   */
  function SeedPredictions(now: int, stamp: string): (s: seq<P.Prediction>)
    ensures |s| == 3
  {
    [MachineAPrediction(now, stamp), MachineBPrediction(now, stamp), MachineCPrediction(now, stamp)]
  }

  function MachineAPrediction(now: int, stamp: string): P.Prediction
  {
    P.Prediction("pred-" + stamp + "-1", "1", "Machine A - Production Line 1", 92.0, "low",
                 "Machine A shows excellent operational health.",
                 [ P.TopFeature("Vibration Analysis", -5.0, "Normal vibration levels"),
                   P.TopFeature("Temperature Trends", 8.0, "Optimal temperature range"),
                   P.TopFeature("Maintenance History", 10.0, "Recent maintenance completed") ],
                 At(DayStart(now - WeekMs)), now - WeekMs, Some("3"), Some("manager@example.com"), "1.0.0")
  }

  function MachineBPrediction(now: int, stamp: string): P.Prediction
  {
    P.Prediction("pred-" + stamp + "-2", "2", "Machine B - Production Line 2", 35.0, "high",
                 "Machine B reveals significant deterioration trends.",
                 [ P.TopFeature("Vibration Analysis", -25.0, "Elevated vibration patterns"),
                   P.TopFeature("Temperature Trends", -18.0, "Gradual temperature increase"),
                   P.TopFeature("Maintenance History", -15.0, "Extended time since maintenance") ],
                 At(DayStart(now - 2 * WeekMs)), now - 2 * WeekMs, Some("2"), Some("maintenance@example.com"), "1.0.0")
  }

  function MachineCPrediction(now: int, stamp: string): P.Prediction
  {
    P.Prediction("pred-" + stamp + "-3", "3", "Machine C - Production Line 1", 85.0, "low",
                 "Machine C indicates excellent operational health.",
                 [ P.TopFeature("Vibration Analysis", -3.0, "Normal vibration levels"),
                   P.TopFeature("Operational Load", 7.0, "Operating within specifications"),
                   P.TopFeature("Oil Quality Index", 9.0, "Oil quality excellent") ],
                 At(DayStart(now - 3 * WeekMs)), now - 3 * WeekMs, Some("1"), Some("operator@example.com"), "1.0.0")
  }

  /** The seeded alerts: one active, one acknowledged two days after it was raised. */
  function SeedAlerts(now: int, stamp: string): (s: seq<A.Alert>)
    ensures |s| == 2
  {
    [MachineBAlert(now, stamp), MachineDAlert(now, stamp)]
  }

  function MachineBAlert(now: int, stamp: string): A.Alert
  {
    A.Alert("alert-" + stamp + "-1", "2", "Machine B - Production Line 2",
            "High Risk Alert: Machine B - Production Line 2",
            "Analysis reveals significant deterioration trends. Multiple indicators suggest increased failure risk. (Score: 35)",
            High, 35.0, A.Active, now - 2 * WeekMs, None, None, At(DayStart(now - 2 * WeekMs)))
  }

  function MachineDAlert(now: int, stamp: string): A.Alert
  {
    A.Alert("alert-" + stamp + "-2", "4", "Machine D - Quality Control",
            "High Risk Alert: Machine D - Quality Control",
            "Analysis reveals significant deterioration trends. Immediate attention recommended. (Score: 42)",
            High, 42.0, A.Acknowledged, now - WeekMs, Some(now - WeekMs + 2 * DayMs),
            Some(A.Identity("2", "maintenance@example.com", "MAINTENANCE")), At(DayStart(now - WeekMs)))
  }

  /** Both seeded alerts agree with the store's acknowledgement invariant. */
  lemma SeedAlertsConsistent(now: int, stamp: string)
    ensures forall a :: a in SeedAlerts(now, stamp) ==> A.Consistent(a)
  {
    var s := SeedAlerts(now, stamp);
    assert A.Consistent(s[0]) && A.Consistent(s[1]);
  }

  /**
   * `POST`: empty both stores, refill them with the seed records and
   * report their sizes. What the stores held before is discarded, so
   * seeding again leaves the same contents up to the new times and ids.
   */
  method Seed(predictions: P.PredictionStore, alerts: A.AlertStore, now: int, stamp: string)
    returns (predictionCount: nat, alertCount: nat)
    modifies predictions, alerts
    ensures predictions.records == SeedPredictions(now, stamp)
    ensures alerts.alerts == SeedAlerts(now, stamp)
    ensures alerts.Valid()
    ensures predictionCount == |predictions.records| == 3
    ensures alertCount == |alerts.alerts| == 2
  {
    var seedPredictions := SeedPredictions(now, stamp);
    var seedAlerts := SeedAlerts(now, stamp);
    SeedAlertsConsistent(now, stamp);
    predictions.Truncate();
    alerts.Truncate();
    predictions.PushAll(seedPredictions);
    alerts.PushAll(seedAlerts);
    predictionCount, alertCount := |predictions.records|, |alerts.alerts|;
  }

  /** Every seeded prediction's risk label is the tier of its score. */
  lemma SeedPredictionRisksMatchScores(now: int, stamp: string)
    ensures forall i :: 0 <= i < 3 ==>
              Parse(SeedPredictions(now, stamp)[i].risk) == Some(Tier(SeedPredictions(now, stamp)[i].score))
  {
    ParseName(Low);
    ParseName(High);
    assert MachineAPrediction(now, stamp).risk == Name(Low) && Tier(92.0) == Low;
    assert MachineBPrediction(now, stamp).risk == Name(High) && Tier(35.0) == High;
    assert MachineCPrediction(now, stamp).risk == Name(Low) && Tier(85.0) == Low;
  }

  /** Every seeded alert's risk is the tier of its score. */
  lemma SeedAlertRisksMatchScores(now: int, stamp: string)
    ensures forall i :: 0 <= i < 2 ==> SeedAlerts(now, stamp)[i].risk == Tier(SeedAlerts(now, stamp)[i].score)
  {
    assert Tier(35.0) == High && Tier(42.0) == High;
  }

  /**
   * The first seed alert is active and unacknowledged; the second was
   * acknowledged by the maintenance user two days after it was raised.
   */
  lemma SeedAcknowledgement(now: int, stamp: string)
    ensures SeedAlerts(now, stamp)[0].status == A.Active
    ensures SeedAlerts(now, stamp)[0].acknowledgedAt.None? && SeedAlerts(now, stamp)[0].acknowledgedBy.None?
    ensures SeedAlerts(now, stamp)[1].status == A.Acknowledged
    ensures SeedAlerts(now, stamp)[1].acknowledgedAt == Some(SeedAlerts(now, stamp)[1].createdAt + 2 * DayMs)
    ensures SeedAlerts(now, stamp)[1].acknowledgedBy == Some(A.Identity("2", "maintenance@example.com", "MAINTENANCE"))
  {
  }

  /** The seed predictions are stored newest first. */
  lemma SeedPredictionsNewestFirst(now: int, stamp: string)
    ensures forall i, j :: 0 <= i < j < 3 ==>
              SeedPredictions(now, stamp)[i].createdAt > SeedPredictions(now, stamp)[j].createdAt
  {
  }

  /** An unfiltered listing right after seeding returns the predictions in seed order. */
  lemma SeedPredictionsListedInOrder(now: int, stamp: string)
    ensures P.Listing(SeedPredictions(now, stamp), P.NoFilters) == SeedPredictions(now, stamp)
  {
    var s := SeedPredictions(now, stamp);
    SeedPredictionsNewestFirst(now, stamp);
    assert Sequences.SortedDesc(s, P.CreatedKey) by {
      forall i, j | 0 <= i < j < |s| ensures P.CreatedKey(s[i]) >= P.CreatedKey(s[j]) {
        assert s[i].createdAt > s[j].createdAt;
      }
    }
    P.UnfilteredListing(s);
    Sequences.SortDescOfSorted(s, P.CreatedKey);
  }

  /** An unfiltered listing right after seeding returns the newer, acknowledged alert first. */
  lemma SeedAlertsListedNewestFirst(now: int, stamp: string)
    ensures A.Listing(SeedAlerts(now, stamp), A.NoFilters) == [SeedAlerts(now, stamp)[1], SeedAlerts(now, stamp)[0]]
  {
    var s := SeedAlerts(now, stamp);
    A.UnknownValuesIgnored(s, A.NoFilters);
    assert A.CreatedKey(s[1]) > A.CreatedKey(s[0]);
    Sequences.SortDescPair(s[0], s[1], A.CreatedKey);
  }
}
