/** internal/incident/store.go and model.go: incidents, their correlations and assignments, and their outbox rows. */
module Incident {
  import opened Base

  // ---------------------------------------------------------------------------
  // Entities
  // ---------------------------------------------------------------------------

  datatype Status = Open | Acknowledged | Investigating | Resolved | Closed | Unsupported(raw: string)

  predicate ValidTransition(current: Status, next: Status) {
    match current
    case Open => next == Acknowledged || next == Resolved
    case Acknowledged => next == Investigating || next == Resolved
    case Investigating => next == Resolved
    case Resolved => next == Closed
    case _ => false
  }

  predicate Canonical(s: string, limit: nat) {
    CanonicalText(s) && |s| <= limit
  }

  datatype CreateRequest = CreateRequest(
    incidentID: string, sourceEventID: string, category: string, severity: string, title: string, description: string,
    occurredAt: int, createdBy: string)
  {
    predicate Validate() {
      && Canonical(category, 4096) && Canonical(title, 4096) && Canonical(description, 4096) && Canonical(createdBy, 4096)
      && Identifier(incidentID) && Identifier(sourceEventID)
      && severity in {"LOW", "MEDIUM", "HIGH", "CRITICAL"}
      && occurredAt != 0
    }
  }

  /** A TIMESTAMPTZ column keeps whole microseconds; times here are nanoseconds. */
  function Stored(time: int): int {
    time - time % 1000
  }

  // A row of maritime_incidents; request holds the columns taken from the request, as stored.
  datatype Row = Row(request: CreateRequest, status: Status, version: int, updatedAt: int)

  /** Incident.Matches */
  predicate Matches(row: Row, r: CreateRequest) {
    row.request == r
  }

  datatype CorrelationRequest = CorrelationRequest(
    geofenceID: string, relation: string, latitude: real, longitude: real, evidence: string, correlatedBy: string)
  {
    predicate Validate() {
      && Canonical(geofenceID, 256) && Canonical(correlatedBy, 256)
      && relation in {"INSIDE", "OUTSIDE", "BOUNDARY"}
      && |evidence| == 71 && evidence[..7] == "sha256:"
      && (forall i :: 7 <= i < 71 ==> IsDigit(evidence[i]) || 'a' <= evidence[i] <= 'f')
      && -90.0 <= latitude <= 90.0 && -180.0 <= longitude <= 180.0
    }
  }

  datatype AssignmentRequest = AssignmentRequest(expectedVersion: int, analystID: string, assignedBy: string)
  {
    predicate Validate() {
      expectedVersion >= 1 && Identifier(analystID) && Identifier(assignedBy) && analystID != assignedBy
    }
  }

  datatype Assignment = Assignment(analystID: string, assignedBy: string, version: int)

  datatype EventKind = Created | StatusChanged | SpatialCorrelated | Assigned

  datatype Event = Event(incidentID: string, kind: EventKind)

  // Correlations are keyed by (incident, geofence).
  datatype Tables = Tables(
    incidents: map<string, Row>, correlations: map<(string, string), CorrelationRequest>,
    assignments: map<string, Assignment>, outbox: seq<Event>)

  const EMPTY := Tables(map[], map[], map[], [])

  datatype Fault = Invalid | NotFound | IdempotencyConflict | DuplicateIncident | OptimisticConflict | InvalidTransition | CorrelationConflict

  // ---------------------------------------------------------------------------
  // What each transaction does
  // ---------------------------------------------------------------------------

  ghost predicate HasSource(t: Tables, source: string, id: string) {
    id in t.incidents && t.incidents[id].request.sourceEventID == source
  }

  function Fresh(r: CreateRequest, now: int): Row {
    Row(r.(occurredAt := Stored(r.occurredAt)), Open, 1, now)
  }

  /** createIncidentInTransaction, where found is the row with the same source event, if there is one. */
  function CreateEffect(t: Tables, r: CreateRequest, found: Option<string>, now: int): (Result<Row, Fault>, Tables)
    requires found.Some? ==> found.value in t.incidents
  {
    if !r.Validate() then (Err(Invalid), t)
    else if found.Some? then
      if Matches(t.incidents[found.value], r) then (Ok(t.incidents[found.value]), t) else (Err(IdempotencyConflict), t)
    else if r.incidentID in t.incidents then (Err(DuplicateIncident), t)
    else
      (Ok(Fresh(r, now)), t.(
        incidents := t.incidents[r.incidentID := Fresh(r, now)], outbox := t.outbox + [Event(r.incidentID, Created)]))
  }

  ghost predicate Finds(t: Tables, source: string, found: Option<string>) {
    match found
    case Some(id) => HasSource(t, source, id)
    case None => forall id :: !HasSource(t, source, id)
  }

  /** The update of Transition: guarded by the status and version read before. */
  predicate Swappable(t: Tables, id: string, status: Status, expected: int) {
    id in t.incidents && t.incidents[id].status == status && t.incidents[id].version == expected
  }

  function Swapped(t: Tables, id: string, next: Status, now: int): Tables
    requires id in t.incidents
  {
    var row := t.incidents[id];
    t.(incidents := t.incidents[id := row.(status := next, version := row.version + 1, updatedAt := now)],
       outbox := t.outbox + [Event(id, StatusChanged)])
  }

  /** Transition when nothing happens between its read and its update. */
  function TransitionEffect(t: Tables, id: string, expected: int, next: Status, now: int): (Result<Row, Fault>, Tables) {
    if id !in t.incidents then (Err(NotFound), t)
    else if t.incidents[id].version != expected then (Err(OptimisticConflict), t)
    else if !ValidTransition(t.incidents[id].status, next) then (Err(InvalidTransition), t)
    else (Ok(Swapped(t, id, next, now).incidents[id]), Swapped(t, id, next, now))
  }

  function CorrelateEffect(t: Tables, id: string, r: CorrelationRequest): (Result<(), Fault>, Tables) {
    if !Identifier(id) then (Err(NotFound), t)
    else if !r.Validate() then (Err(Invalid), t)
    else if id !in t.incidents then (Err(Invalid), t) // the foreign key
    else if (id, r.geofenceID) !in t.correlations then
      (Ok(()), t.(correlations := t.correlations[(id, r.geofenceID) := r], outbox := t.outbox + [Event(id, SpatialCorrelated)]))
    else if t.correlations[(id, r.geofenceID)] != r then (Err(CorrelationConflict), t)
    else (Ok(()), t)
  }

  predicate Assignable(t: Tables, id: string, r: AssignmentRequest) {
    id in t.incidents && t.incidents[id].version == r.expectedVersion && t.incidents[id].status != Closed
  }

  function AssignEffect(t: Tables, id: string, r: AssignmentRequest, now: int): (Result<int, Fault>, Tables) {
    if !Identifier(id) then (Err(NotFound), t)
    else if !r.Validate() then (Err(Invalid), t)
    else if !Assignable(t, id, r) then
      (Err(if id !in t.incidents then NotFound
           else if t.incidents[id].version != r.expectedVersion then OptimisticConflict else InvalidTransition), t)
    else
      var row := t.incidents[id];
      var version := row.version + 1;
      (Ok(version), t.(
        incidents := t.incidents[id := row.(version := version, updatedAt := now)],
        assignments := t.assignments[id := Assignment(r.analystID, r.assignedBy, version)],
        outbox := t.outbox + [Event(id, Assigned)]))
  }

  // ---------------------------------------------------------------------------
  // The store
  // ---------------------------------------------------------------------------

  class Store {
    var incidents: map<string, Row>
    var correlations: map<(string, string), CorrelationRequest>
    var assignments: map<string, Assignment>
    var outbox: seq<Event>

    constructor ()
      ensures View() == EMPTY
    {
      incidents, correlations, assignments, outbox := map[], map[], map[], [];
    }

    function View(): Tables
      reads this
    {
      Tables(incidents, correlations, assignments, outbox)
    }

    method FindSource(source: string) returns (found: Option<string>)
      ensures Finds(View(), source, found)
    {
      var left := incidents.Keys;
      while left != {}
        invariant left <= incidents.Keys
        invariant forall id :: id !in left ==> !HasSource(View(), source, id)
        decreases |left|
      {
        var id :| id in left;
        left := left - {id};
        if incidents[id].request.sourceEventID == source {
          return Some(id);
        }
      }
      return None;
    }

    method Create(r: CreateRequest, now: int) returns (done: Result<Row, Fault>, ghost found: Option<string>)
      modifies this
      ensures if r.Validate() then Finds(old(View()), r.sourceEventID, found) else found == None
      ensures (done, View()) == CreateEffect(old(View()), r, found, now)
    {
      if !r.Validate() {
        return Err(Invalid), None;
      }
      var hit := FindSource(r.sourceEventID);
      found := hit;
      if hit.Some? {
        var retained := incidents[hit.value];
        return if Matches(retained, r) then Ok(retained) else Err(IdempotencyConflict), found;
      }
      if r.incidentID in incidents {
        return Err(DuplicateIncident), found;
      }
      var row := Fresh(r, now);
      incidents := incidents[r.incidentID := row];
      outbox := outbox + [Event(r.incidentID, Created)];
      return Ok(row), found;
    }

    method Get(id: string) returns (r: Result<Row, Fault>)
      ensures r == if id in incidents then Ok(incidents[id]) else Err(NotFound)
    {
      return if id in incidents then Ok(incidents[id]) else Err(NotFound);
    }

    // UPDATE ... WHERE incident_id AND status AND version, and the outbox row.
    method CompareAndSwap(id: string, status: Status, expected: int, next: Status, now: int) returns (r: Result<Row, Fault>)
      modifies this
      ensures View() == if Swappable(old(View()), id, status, expected) then Swapped(old(View()), id, next, now) else old(View())
      ensures r == if Swappable(old(View()), id, status, expected) then Ok(incidents[id]) else Err(OptimisticConflict)
    {
      if id !in incidents || incidents[id].status != status || incidents[id].version != expected {
        return Err(OptimisticConflict);
      }
      var row := incidents[id];
      incidents := incidents[id := row.(status := next, version := row.version + 1, updatedAt := now)];
      outbox := outbox + [Event(id, StatusChanged)];
      return Ok(incidents[id]);
    }

    method Transition(id: string, expected: int, next: Status, now: int) returns (r: Result<Row, Fault>)
      modifies this
      ensures (r, View()) == TransitionEffect(old(View()), id, expected, next, now)
    {
      var current := Get(id);
      if current.Err? {
        return current;
      }
      if current.value.version != expected {
        return Err(OptimisticConflict);
      }
      if !ValidTransition(current.value.status, next) {
        return Err(InvalidTransition);
      }
      r := CompareAndSwap(id, current.value.status, expected, next, now);
    }

    method Correlate(id: string, r: CorrelationRequest) returns (done: Result<(), Fault>)
      modifies this
      ensures (done, View()) == CorrelateEffect(old(View()), id, r)
    {
      if !Identifier(id) {
        return Err(NotFound);
      }
      if !r.Validate() || id !in incidents {
        return Err(Invalid);
      }
      var key := (id, r.geofenceID);
      if key !in correlations {
        correlations := correlations[key := r];
        outbox := outbox + [Event(id, SpatialCorrelated)];
        return Ok(());
      }
      return if correlations[key] == r then Ok(()) else Err(CorrelationConflict);
    }

    method Assign(id: string, r: AssignmentRequest, now: int) returns (done: Result<int, Fault>)
      modifies this
      ensures (done, View()) == AssignEffect(old(View()), id, r, now)
    {
      if !Identifier(id) {
        return Err(NotFound);
      }
      if !r.Validate() {
        return Err(Invalid);
      }
      if id in incidents && incidents[id].version == r.expectedVersion && incidents[id].status != Closed {
        var version := incidents[id].version + 1;
        incidents := incidents[id := incidents[id].(version := version, updatedAt := now)];
        assignments := assignments[id := Assignment(r.analystID, r.assignedBy, version)];
        outbox := outbox + [Event(id, Assigned)];
        return Ok(version);
      }
      var current := Get(id);
      if current.Err? {
        return Err(NotFound);
      }
      return if current.value.version != r.expectedVersion then Err(OptimisticConflict) else Err(InvalidTransition);
    }
  }
}
