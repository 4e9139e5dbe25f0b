/**
 * The prediction history kept by `app/api/predictions/route.ts`: an
 * append-only in-memory array, a listing with optional filters that
 * returns the newest records first, and a create handler that checks the
 * required fields.
 */
module PredictionsRoute {
  import opened Wrappers
  import opened Dates
  import opened Sequences
  import Risk

  datatype TopFeature = TopFeature(name: string, impact: real, description: string)

  /**
   * A stored prediction. `risk` is whatever string the client sent (the
   * create handler does not check it), `predictionDate` is the instant the
   * stored date string parses to, and `createdAt` is the creation time in
   * milliseconds.
   */
  datatype Prediction = Prediction(
    id: string,
    machineId: string,
    machineName: string,
    score: real,
    risk: string,
    explanation: string,
    topFeatures: seq<TopFeature>,
    predictionDate: Date,
    createdAt: int,
    userId: Option<string>,
    userEmail: Option<string>,
    modelVersion: string)

  /** The sort key of the listing: `new Date(createdAt).getTime()`. */
  function CreatedKey(p: Prediction): real {
    p.createdAt as real
  }

  // ---------------------------------------------------------------------
  // Listing

  /** The query parameters of a listing; an absent parameter is `None`. */
  datatype Query = Query(machineId: Option<string>, risk: Option<string>,
                         startDate: Option<DateText>, endDate: Option<DateText>)

  const NoFilters := Query(None, None, None, None)

  /** A non-empty machine id turns its filter on. */
  predicate MachineFilterOn(q: Query) {
    q.machineId.Some? && q.machineId.value != ""
  }

  /** Only one of the four tier names turns the risk filter on; any other value is ignored. */
  predicate RiskFilterOn(q: Query) {
    q.risk.Some? && Risk.Parse(q.risk.value).Some?
  }

  predicate StartFilterOn(q: Query) {
    q.startDate.Some? && q.startDate.value.text != ""
  }

  predicate EndFilterOn(q: Query) {
    q.endDate.Some? && q.endDate.value.text != ""
  }

  predicate MachineOk(q: Query, p: Prediction) {
    MachineFilterOn(q) ==> p.machineId == q.machineId.value
  }

  predicate RiskOk(q: Query, p: Prediction) {
    RiskFilterOn(q) ==> p.risk == q.risk.value
  }

  /** The date bounds are inclusive and compare `predictionDate`, not `createdAt`. */
  predicate StartOk(q: Query, p: Prediction) {
    StartFilterOn(q) ==> OnOrAfter(p.predictionDate, q.startDate.value.at)
  }

  predicate EndOk(q: Query, p: Prediction) {
    EndFilterOn(q) ==> OnOrBefore(p.predictionDate, q.endDate.value.at)
  }

  /** A record passes the query when it passes every filter the query turns on. */
  predicate Matches(q: Query, p: Prediction) {
    MachineOk(q, p) && RiskOk(q, p) && StartOk(q, p) && EndOk(q, p)
  }

  /** The records a listing returns: the matching ones, newest first. */
  function Listing(records: seq<Prediction>, q: Query): seq<Prediction> {
    SortDesc(Filter(records, p => Matches(q, p)), CreatedKey)
  }

  /**
   * A listing holds exactly the matching records, each as often as it is
   * stored, sorted by non-increasing creation time.
   */
  lemma ListingSpec(records: seq<Prediction>, q: Query)
    ensures forall p :: multiset(Listing(records, q))[p] == if Matches(q, p) then multiset(records)[p] else 0
    ensures multiset(Listing(records, q)) <= multiset(records)
    ensures SortedDesc(Listing(records, q), CreatedKey)
  {
    SortDescSorted(Filter(records, p => Matches(q, p)), CreatedKey);
  }

  /**
   * Every listed record passes the active filters: with a machine id it
   * has that machine, with a tier name that risk, and its prediction date
   * lies within the bounds given.
   */
  lemma ListingHonoursFilters(records: seq<Prediction>, q: Query)
    ensures forall p :: p in Listing(records, q) ==> Matches(q, p)
  {
    forall p | p in Listing(records, q) ensures Matches(q, p) {
      assert multiset(Listing(records, q))[p] > 0;
    }
  }

  /** A risk value that is not a tier name is ignored. */
  lemma UnknownRiskIgnored(records: seq<Prediction>, q: Query)
    requires q.risk.Some? && Risk.Parse(q.risk.value).None?
    ensures Listing(records, q) == Listing(records, q.(risk := None))
  {
    var ignored := q.(risk := None);
    assert !RiskFilterOn(q) && !RiskFilterOn(ignored);
    FilterPointwise(records, p => Matches(q, p), p => Matches(ignored, p));
  }

  /** A start bound that does not parse as a date leaves nothing to list. */
  lemma UnparsableStartDateListsNothing(records: seq<Prediction>, q: Query)
    requires q.startDate.Some? && q.startDate.value.text != "" && q.startDate.value.at == InvalidDate
    ensures Listing(records, q) == []
  {
    assert forall p :: multiset(Listing(records, q))[p] == 0;
    assert multiset(Listing(records, q)) == multiset{};
  }

  /** Without filters the listing is the whole store, newest first. */
  lemma UnfilteredListing(records: seq<Prediction>)
    ensures Listing(records, NoFilters) == SortDesc(records, CreatedKey)
  {
    FilterAllKept(records, p => Matches(NoFilters, p));
  }

  // ---------------------------------------------------------------------
  // Creation

  /** The body of a create request; a field the body lacks is `None`. */
  datatype CreateRequest = CreateRequest(
    machineId: Option<string>,
    machineName: Option<string>,
    score: Option<real>,
    risk: Option<string>,
    explanation: Option<string>,
    topFeatures: Option<seq<TopFeature>>,
    predictionDate: Option<DateText>,
    userId: Option<string>,
    userEmail: Option<string>,
    modelVersion: Option<string>)

  /**
   * The required-field check: the strings must be non-empty, the score
   * need only be present (a score of 0 passes), and the feature list need
   * only be present.
   */
  predicate Complete(req: CreateRequest) {
    && Present(req.machineId)
    && Present(req.machineName)
    && req.score.Some?
    && Present(req.risk)
    && Present(req.explanation)
    && req.topFeatures.Some?
    && req.predictionDate.Some? && req.predictionDate.value.text != ""
  }

  /** The record a complete request creates, with `modelVersion` defaulting to "1.0.0". */
  function NewPrediction(req: CreateRequest, id: string, now: int): (p: Prediction)
    requires Complete(req)
    ensures p.machineId == req.machineId.value && p.risk == req.risk.value && p.score == req.score.value
    ensures p.createdAt == now && p.id == id
    ensures p.modelVersion == if req.modelVersion.Some? then req.modelVersion.value else "1.0.0"
  {
    Prediction(id, req.machineId.value, req.machineName.value, req.score.value, req.risk.value,
               req.explanation.value, req.topFeatures.value, req.predictionDate.value.at, now,
               req.userId, req.userEmail, req.modelVersion.GetOr("1.0.0"))
  }

  datatype CreateResponse = Rejected(error: string) | Created(prediction: Prediction)

  /** The module-level `predictions` array. */
  class PredictionStore {
    var records: seq<Prediction>

    constructor ()
      ensures records == []
    {
      records := [];
    }

    /** `GET`: filter by the parameters that are set, then sort newest first. */
    method List(q: Query) returns (result: seq<Prediction>, total: nat)
      ensures result == Listing(records, q)
      ensures total == |result|
    {
      ghost var machine := (p: Prediction) => MachineOk(q, p);
      ghost var risk := (p: Prediction) => RiskOk(q, p);
      ghost var start := (p: Prediction) => StartOk(q, p);
      ghost var end := (p: Prediction) => EndOk(q, p);
      ghost var machineRisk := (p: Prediction) => MachineOk(q, p) && RiskOk(q, p);
      ghost var machineRiskStart := (p: Prediction) => MachineOk(q, p) && RiskOk(q, p) && StartOk(q, p);

      var filtered := records;
      if MachineFilterOn(q) {
        filtered := Filter(filtered, (p: Prediction) => p.machineId == q.machineId.value);
        FilterPointwise(records, (p: Prediction) => p.machineId == q.machineId.value, machine);
      } else {
        FilterAllKept(records, machine);
      }
      assert filtered == Filter(records, machine);

      ghost var before := filtered;
      if RiskFilterOn(q) {
        filtered := Filter(filtered, (p: Prediction) => p.risk == q.risk.value);
        FilterPointwise(before, (p: Prediction) => p.risk == q.risk.value, risk);
      } else {
        FilterAllKept(before, risk);
      }
      FilterTwice(records, machine, risk, machineRisk);
      assert filtered == Filter(records, machineRisk);

      before := filtered;
      if StartFilterOn(q) {
        filtered := Filter(filtered, (p: Prediction) => OnOrAfter(p.predictionDate, q.startDate.value.at));
        FilterPointwise(before, (p: Prediction) => OnOrAfter(p.predictionDate, q.startDate.value.at), start);
      } else {
        FilterAllKept(before, start);
      }
      FilterTwice(records, machineRisk, start, machineRiskStart);
      assert filtered == Filter(records, machineRiskStart);

      before := filtered;
      if EndFilterOn(q) {
        filtered := Filter(filtered, (p: Prediction) => OnOrBefore(p.predictionDate, q.endDate.value.at));
        FilterPointwise(before, (p: Prediction) => OnOrBefore(p.predictionDate, q.endDate.value.at), end);
      } else {
        FilterAllKept(before, end);
      }
      FilterTwice(records, machineRiskStart, end, p => Matches(q, p));

      result := SortDesc(filtered, CreatedKey);
      total := |result|;
    }

    /**
     * `POST`: a request missing a required field is rejected and the
     * store is left as it was; otherwise exactly one record is appended.
     */
    method Create(req: CreateRequest, id: string, now: int) returns (resp: CreateResponse)
      modifies this
      ensures !Complete(req) ==> resp == Rejected("Missing required fields") && records == old(records)
      ensures Complete(req) ==> resp == Created(NewPrediction(req, id, now)) &&
                                records == old(records) + [NewPrediction(req, id, now)]
    {
      if !Present(req.machineId) || !Present(req.machineName) || req.score.None? ||
         !Present(req.risk) || !Present(req.explanation) || req.topFeatures.None? ||
         req.predictionDate.None? || req.predictionDate.value.text == "" {
        return Rejected("Missing required fields");
      }
      var prediction := NewPrediction(req, id, now);
      records := records + [prediction];
      resp := Created(prediction);
    }

    /** `predictions.length = 0`. */
    method Truncate()
      modifies this
      ensures records == []
    {
      records := [];
    }

    /** `predictions.push(...more)`. */
    method PushAll(more: seq<Prediction>)
      modifies this
      ensures records == old(records) + more
    {
      records := records + more;
    }
  }

  /**
   * A created record appears in later listings exactly when it matches:
   * creating adds one occurrence of it to the listing of a matching
   * query and leaves every other listing's contents as they were.
   */
  lemma {:induction false} ListingAfterCreate(records: seq<Prediction>, p: Prediction, q: Query)
    ensures multiset(Listing(records + [p], q)) ==
            multiset(Listing(records, q)) + if Matches(q, p) then multiset{p} else multiset{}
  {
    FilterAppend(records, [p], x => Matches(q, x));
    assert Filter([p], x => Matches(q, x)) == if Matches(q, p) then [p] else [];
  }
}
