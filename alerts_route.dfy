/**
 * The alert list kept by `app/api/alerts/route.ts`: an append-only
 * in-memory array, a listing filtered by status and risk that returns the
 * newest alerts first, and a create handler that checks the required
 * fields and the risk level and always opens the alert as active.
 */
module AlertsRoute {
  import opened Wrappers
  import opened Dates
  import opened Sequences
  import opened Risk

  datatype Status = Active | Acknowledged | Resolved

  function StatusName(s: Status): string {
    match s
    case Active => "active"
    case Acknowledged => "acknowledged"
    case Resolved => "resolved"
  }

  /** The status a query parameter names, if it names one. */
  function ParseStatus(s: string): (r: Option<Status>)
    ensures r.Some? <==> s in {"active", "acknowledged", "resolved"}
    ensures r.Some? ==> StatusName(r.value) == s
  {
    if s == "active" then Some(Active)
    else if s == "acknowledged" then Some(Acknowledged)
    else if s == "resolved" then Some(Resolved)
    else None
  }

  /** Who acknowledged an alert. */
  datatype Identity = Identity(id: string, email: string, role: string)

  /** A stored alert; times are milliseconds since the epoch. */
  datatype Alert = Alert(
    id: string,
    machineId: string,
    machineName: string,
    title: string,
    description: string,
    risk: Risk,
    score: real,
    status: Status,
    createdAt: int,
    acknowledgedAt: Option<int>,
    acknowledgedBy: Option<Identity>,
    predictionDate: Date)

  /**
   * The acknowledgement fields agree with the status: an active alert has
   * none, an acknowledged one has both, acknowledged no earlier than it
   * was created.
   */
  predicate Consistent(a: Alert) {
    && (a.status == Active ==> a.acknowledgedAt.None? && a.acknowledgedBy.None?)
    && (a.status == Acknowledged ==>
          a.acknowledgedAt.Some? && a.acknowledgedBy.Some? && a.acknowledgedAt.value >= a.createdAt)
  }

  function CreatedKey(a: Alert): real {
    a.createdAt as real
  }

  // ---------------------------------------------------------------------
  // Listing

  datatype Query = Query(status: Option<string>, risk: Option<string>)

  const NoFilters := Query(None, None)

  predicate StatusFilterOn(q: Query) {
    q.status.Some? && ParseStatus(q.status.value).Some?
  }

  predicate RiskFilterOn(q: Query) {
    q.risk.Some? && Parse(q.risk.value).Some?
  }

  predicate StatusOk(q: Query, a: Alert) {
    StatusFilterOn(q) ==> a.status == ParseStatus(q.status.value).value
  }

  predicate RiskOk(q: Query, a: Alert) {
    RiskFilterOn(q) ==> a.risk == Parse(q.risk.value).value
  }

  predicate Matches(q: Query, a: Alert) {
    StatusOk(q, a) && RiskOk(q, a)
  }

  /** The alerts a listing returns: the matching ones, newest first. */
  function Listing(alerts: seq<Alert>, q: Query): seq<Alert> {
    SortDesc(Filter(alerts, a => Matches(q, a)), CreatedKey)
  }

  /**
   * A listing holds exactly the matching alerts, each as often as it is
   * stored, sorted by non-increasing creation time.
   */
  lemma ListingSpec(alerts: seq<Alert>, q: Query)
    ensures forall a :: multiset(Listing(alerts, q))[a] == if Matches(q, a) then multiset(alerts)[a] else 0
    ensures multiset(Listing(alerts, q)) <= multiset(alerts)
    ensures SortedDesc(Listing(alerts, q), CreatedKey)
  {
    SortDescSorted(Filter(alerts, a => Matches(q, a)), CreatedKey);
  }

  /** With a valid status or risk in the query, every returned alert has it. */
  lemma ListingHonoursFilters(alerts: seq<Alert>, q: Query)
    ensures forall a :: a in Listing(alerts, q) && StatusFilterOn(q) ==> StatusName(a.status) == q.status.value
    ensures forall a :: a in Listing(alerts, q) && RiskFilterOn(q) ==> Name(a.risk) == q.risk.value
  {
    forall a | a in Listing(alerts, q) ensures Matches(q, a) {
      assert multiset(Listing(alerts, q))[a] > 0;
    }
  }

  /** A status or risk value that names nothing is ignored. */
  lemma UnknownValuesIgnored(alerts: seq<Alert>, q: Query)
    requires q.status.Some? ==> ParseStatus(q.status.value).None?
    requires q.risk.Some? ==> Parse(q.risk.value).None?
    ensures Listing(alerts, q) == SortDesc(alerts, CreatedKey)
  {
    assert !StatusFilterOn(q) && !RiskFilterOn(q);
    FilterAllKept(alerts, a => Matches(q, a));
  }

  /** A status that names no status is ignored, whatever the risk filter does. */
  lemma UnknownStatusIgnored(alerts: seq<Alert>, q: Query)
    requires q.status.Some? && ParseStatus(q.status.value).None?
    ensures Listing(alerts, q) == Listing(alerts, q.(status := None))
  {
    var ignored := q.(status := None);
    assert !StatusFilterOn(q) && !StatusFilterOn(ignored);
    FilterPointwise(alerts, a => Matches(q, a), a => Matches(ignored, a));
  }

  /** A risk that names no tier is ignored, whatever the status filter does. */
  lemma UnknownRiskIgnored(alerts: seq<Alert>, q: Query)
    requires q.risk.Some? && Parse(q.risk.value).None?
    ensures Listing(alerts, q) == Listing(alerts, q.(risk := None))
  {
    var ignored := q.(risk := None);
    assert !RiskFilterOn(q) && !RiskFilterOn(ignored);
    FilterPointwise(alerts, a => Matches(q, a), a => Matches(ignored, a));
  }

  // ---------------------------------------------------------------------
  // Creation

  /** The body of a create request; a field the body lacks is `None`. */
  datatype CreateRequest = CreateRequest(
    machineId: Option<string>,
    machineName: Option<string>,
    title: Option<string>,
    description: Option<string>,
    risk: Option<string>,
    score: Option<real>,
    predictionDate: Option<DateText>)

  /** The required-field check; a score of 0 passes, only a missing one fails. */
  predicate Complete(req: CreateRequest) {
    && Present(req.machineId)
    && Present(req.machineName)
    && Present(req.title)
    && Present(req.description)
    && Present(req.risk)
    && req.score.Some?
    && req.predictionDate.Some? && req.predictionDate.value.text != ""
  }

  /** The alert a valid request opens: always active and unacknowledged, whatever its risk. */
  function NewAlert(req: CreateRequest, id: string, now: int): (a: Alert)
    requires Complete(req) && Parse(req.risk.value).Some?
    ensures a.status == Active && a.acknowledgedAt.None? && a.acknowledgedBy.None?
    ensures Consistent(a)
    ensures Name(a.risk) == req.risk.value && a.score == req.score.value
    ensures a.machineId == req.machineId.value && a.createdAt == now && a.id == id
  {
    Alert(id, req.machineId.value, req.machineName.value, req.title.value, req.description.value,
          Parse(req.risk.value).value, req.score.value, Active, now, None, None,
          req.predictionDate.value.at)
  }

  datatype CreateResponse = Rejected(error: string) | Created(alert: Alert)

  /** The module-level `alerts` array. */
  class AlertStore {
    var alerts: seq<Alert>

    /** Every stored alert's acknowledgement fields agree with its status. */
    predicate Valid()
      reads this
    {
      forall a :: a in alerts ==> Consistent(a)
    }

    constructor ()
      ensures alerts == [] && Valid()
    {
      alerts := [];
    }

    /** `GET`: filter by a valid status, then by a valid risk, then sort newest first. */
    method List(q: Query) returns (result: seq<Alert>, total: nat)
      ensures result == Listing(alerts, q)
      ensures total == |result|
    {
      ghost var status := (a: Alert) => StatusOk(q, a);
      ghost var risk := (a: Alert) => RiskOk(q, a);

      var filtered := alerts;
      if q.status.Some? && ParseStatus(q.status.value).Some? {
        var wanted := ParseStatus(q.status.value).value;
        filtered := Filter(filtered, (a: Alert) => a.status == wanted);
        FilterPointwise(alerts, (a: Alert) => a.status == wanted, status);
      } else {
        FilterAllKept(alerts, status);
      }

      ghost var before := filtered;
      if q.risk.Some? && Parse(q.risk.value).Some? {
        var wanted := Parse(q.risk.value).value;
        filtered := Filter(filtered, (a: Alert) => a.risk == wanted);
        FilterPointwise(before, (a: Alert) => a.risk == wanted, risk);
      } else {
        FilterAllKept(before, risk);
      }
      FilterTwice(alerts, status, risk, a => Matches(q, a));

      result := SortDesc(filtered, CreatedKey);
      total := |result|;
    }

    /**
     * `POST`: a missing field, then an unknown risk level, is rejected with
     * the store left as it was; otherwise exactly one active alert is
     * appended.
     */
    method Create(req: CreateRequest, id: string, now: int) returns (resp: CreateResponse)
      requires Valid()
      modifies this
      ensures Valid()
      ensures !Complete(req) ==> resp == Rejected("Missing required fields") && alerts == old(alerts)
      ensures Complete(req) && Parse(req.risk.value).None? ==>
                resp == Rejected("Invalid risk level") && alerts == old(alerts)
      ensures Complete(req) && Parse(req.risk.value).Some? ==>
                resp == Created(NewAlert(req, id, now)) && alerts == old(alerts) + [NewAlert(req, id, now)]
    {
      if !Present(req.machineId) || !Present(req.machineName) || !Present(req.title) ||
         !Present(req.description) || !Present(req.risk) || req.score.None? ||
         req.predictionDate.None? || req.predictionDate.value.text == "" {
        return Rejected("Missing required fields");
      }
      if Parse(req.risk.value).None? {
        return Rejected("Invalid risk level");
      }
      var alert := NewAlert(req, id, now);
      alerts := alerts + [alert];
      resp := Created(alert);
    }

    /** `alerts.length = 0`. */
    method Truncate()
      modifies this
      ensures alerts == [] && Valid()
    {
      alerts := [];
    }

    /** `alerts.push(...more)`. */
    method PushAll(more: seq<Alert>)
      requires Valid()
      requires forall a :: a in more ==> Consistent(a)
      modifies this
      ensures alerts == old(alerts) + more
      ensures Valid()
    {
      alerts := alerts + more;
    }
  }

  /** A created alert appears in later listings exactly when it matches. */
  lemma {:induction false} ListingAfterCreate(alerts: seq<Alert>, a: Alert, q: Query)
    ensures multiset(Listing(alerts + [a], q)) ==
            multiset(Listing(alerts, q)) + if Matches(q, a) then multiset{a} else multiset{}
  {
    FilterAppend(alerts, [a], x => Matches(q, x));
    assert Filter([a], x => Matches(q, x)) == if Matches(q, a) then [a] else [];
  }
}
