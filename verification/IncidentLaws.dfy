/**
  Incidents under concurrency: the read and the update of a transition are separate steps, and any
  number of callers interleave.
 */
module IncidentLaws {
  import opened Base
  import opened Incident

  // ---------------------------------------------------------------------------
  // Steps
  // ---------------------------------------------------------------------------

  /** A caller of Transition between its read and its update. */
  datatype Local = Idle | Read(id: string, status: Status, expected: int, next: Status)

  /** The tables, the callers, the statuses each incident has had, and the version each commit consumed. */
  datatype System = System(t: Tables, callers: map<string, Local>, history: map<string, seq<Status>>, consumed: seq<(string, int)>)

  const START := System(EMPTY, map[], map[], [])

  datatype Step =
    | Create(r: CreateRequest, found: Option<string>, now: int)
    | Look(w: string, id: string, expected: int, next: Status)
    | Swap(w: string, now: int)
    | Correlate(id: string, c: CorrelationRequest)
    | Assign(id: string, a: AssignmentRequest, now: int)
    | Crash(w: string)

  function At(s: System, w: string): Local {
    if w in s.callers then s.callers[w] else Idle
  }

  ghost predicate Enabled(s: System, step: Step) {
    match step
    case Create(r, found, _) => Finds(s.t, r.sourceEventID, found)
    case Look(w, _, _, _) => At(s, w).Idle?
    case Swap(w, _) => At(s, w).Read?
    case _ => true
  }

  function Moved(s: System, w: string, local: Local): System {
    s.(callers := s.callers[w := local])
  }

  function Past(s: System, id: string): seq<Status> {
    if id in s.history then s.history[id] else []
  }

  ghost function Apply(s: System, step: Step): System
    requires Enabled(s, step)
  {
    match step
    case Create(r, found, now) =>
      var t := CreateEffect(s.t, r, found, now).1;
      s.(t := t, history := if t == s.t then s.history else s.history[r.incidentID := [Open]])
    case Look(w, id, expected, next) =>
      if id in s.t.incidents && s.t.incidents[id].version == expected && ValidTransition(s.t.incidents[id].status, next)
      then Moved(s, w, Read(id, s.t.incidents[id].status, expected, next)) else s
    case Swap(w, now) =>
      var local := At(s, w);
      if Swappable(s.t, local.id, local.status, local.expected) then
        Moved(s, w, Idle).(t := Swapped(s.t, local.id, local.next, now),
                           history := s.history[local.id := Past(s, local.id) + [local.next]],
                           consumed := s.consumed + [(local.id, local.expected)])
      else Moved(s, w, Idle)
    case Correlate(id, c) => s.(t := CorrelateEffect(s.t, id, c).1)
    case Assign(id, a, now) =>
      var (r, t) := AssignEffect(s.t, id, a, now);
      s.(t := t, consumed := if r.Ok? then s.consumed + [(id, a.expectedVersion)] else s.consumed)
    case Crash(w) => Moved(s, w, Idle)
  }

  ghost function Exec(steps: seq<Step>): System {
    if steps == [] then START
    else
      var before, last := Exec(steps[..|steps| - 1]), steps[|steps| - 1];
      if Enabled(before, last) then Apply(before, last) else before
  }

  // ---------------------------------------------------------------------------
  // The invariant
  // ---------------------------------------------------------------------------

  function Rows(outbox: seq<Event>, id: string): nat {
    if outbox == [] then 0 else Rows(outbox[..|outbox| - 1], id) + if outbox[|outbox| - 1].incidentID == id then 1 else 0
  }

  ghost function Correlations(t: Tables, id: string): set<(string, string)> {
    set k | k in t.correlations && k.0 == id
  }

  function Version(t: Tables, id: string): int {
    if id in t.incidents then t.incidents[id].version else 0
  }

  /** Outbox rows are conserved: one per version, one per correlation. */
  ghost predicate Conserved(t: Tables, id: string) {
    Rows(t.outbox, id) == Version(t, id) + |Correlations(t, id)| && Version(t, id) >= 0
  }

  /** The statuses form a path of legal transitions from OPEN to the present one. */
  predicate IsPath(path: seq<Status>, last: Status) {
    && path != [] && path[0] == Open && path[|path| - 1] == last
    && forall i :: 0 < i < |path| ==> ValidTransition(path[i - 1], path[i])
  }

  predicate HistoryRight(s: System, id: string) {
    && (id in s.history <==> id in s.t.incidents)
    && (id in s.history ==> IsPath(s.history[id], s.t.incidents[id].status) && s.t.incidents[id].version >= 1)
  }

  /** Between read and update, an unchanged version means an unchanged status. */
  predicate CallerRight(s: System, w: string) {
    var local := At(s, w);
    local.Read? ==>
      && local.id in s.t.incidents && local.expected <= s.t.incidents[local.id].version
      && ValidTransition(local.status, local.next)
      && (local.expected == s.t.incidents[local.id].version ==> local.status == s.t.incidents[local.id].status)
  }

  /** Every version but the present one was consumed by exactly one commit. */
  ghost predicate ConsumedRight(s: System) {
    && (forall i, j :: 0 <= i < j < |s.consumed| ==> s.consumed[i] != s.consumed[j])
    && (forall id, v :: (id, v) in s.consumed <==> 1 <= v < Version(s.t, id))
  }

  predicate SourceUnique(t: Tables) {
    forall a, b :: a in t.incidents && b in t.incidents && t.incidents[a].request.sourceEventID == t.incidents[b].request.sourceEventID ==> a == b
  }

  /** A correlation belongs to an incident, and is stored under its own geofence. */
  predicate CorrelationsRight(t: Tables) {
    forall k :: k in t.correlations ==> k.0 in t.incidents && t.correlations[k].geofenceID == k.1
  }

  ghost predicate Inv(s: System) {
    && (forall id :: Conserved(s.t, id))
    && (forall id :: HistoryRight(s, id))
    && (forall w :: CallerRight(s, w))
    && ConsumedRight(s) && SourceUnique(s.t) && CorrelationsRight(s.t)
  }

  lemma OneMoreRow(outbox: seq<Event>, e: Event, id: string)
    ensures Rows(outbox + [e], id) == Rows(outbox, id) + if e.incidentID == id then 1 else 0
  {
    assert (outbox + [e])[..|outbox|] == outbox;
  }

  lemma SameCorrelations(t: Tables, x: Tables, id: string)
    requires x.correlations == t.correlations
    ensures Correlations(x, id) == Correlations(t, id)
  {
  }

  lemma CreateKeepsInv(s: System, step: Step)
    requires Inv(s) && step.Create? && Enabled(s, step)
    ensures Inv(Apply(s, step))
  {
    var x := Apply(s, step);
    if x.t != s.t {
      CreatedRows(s, x, step);
      hide Apply;
      forall id ensures HistoryRight(x, id) {
        assert HistoryRight(s, id);
      }
      forall w ensures CallerRight(x, w) {
        assert CallerRight(s, w);
      }
    } else {
      assert x == s;
    }
  }

  lemma CreatedRows(s: System, x: System, step: Step)
    requires Inv(s) && step.Create? && Enabled(s, step) && x == Apply(s, step) && x.t != s.t
    ensures var id := step.r.incidentID;
            && id !in s.t.incidents && x.t.incidents == s.t.incidents[id := Fresh(step.r, step.now)]
            && x.history == s.history[id := [Open]] && x.callers == s.callers
    ensures (forall id :: Conserved(x.t, id)) && ConsumedRight(x) && SourceUnique(x.t) && CorrelationsRight(x.t)
  {
    var r := step.r;
    assert x.t.incidents == s.t.incidents[r.incidentID := Fresh(r, step.now)];
    forall id ensures Conserved(x.t, id) {
      assert Conserved(s.t, id);
      OneMoreRow(s.t.outbox, Event(r.incidentID, Created), id);
      SameCorrelations(s.t, x.t, id);
    }
    forall a | a in s.t.incidents ensures s.t.incidents[a].request.sourceEventID != r.sourceEventID {
      assert !HasSource(s.t, r.sourceEventID, a);
    }
    forall id, v ensures (id, v) in x.consumed <==> 1 <= v < Version(x.t, id) {
      assert (id, v) in s.consumed <==> 1 <= v < Version(s.t, id);
    }
  }

  // A step that raises the version of one incident by one and writes one outbox row for it.
  lemma BumpKeeps(s: System, x: System, id: string, e: Event, row: Row)
    requires Inv(s) && id in s.t.incidents && e.incidentID == id
    requires row.request == s.t.incidents[id].request && row.version == s.t.incidents[id].version + 1
    requires x.t.incidents == s.t.incidents[id := row] && x.t.correlations == s.t.correlations && x.t.outbox == s.t.outbox + [e]
    requires x.consumed == s.consumed + [(id, s.t.incidents[id].version)]
    ensures (forall a :: Conserved(x.t, a)) && ConsumedRight(x) && SourceUnique(x.t) && CorrelationsRight(x.t)
  {
    forall a ensures Conserved(x.t, a) {
      assert Conserved(s.t, a);
      OneMoreRow(s.t.outbox, e, a);
      SameCorrelations(s.t, x.t, a);
    }
    assert HistoryRight(s, id);
    BumpConsumed(s, x, id);
  }

  lemma BumpConsumed(s: System, x: System, id: string)
    requires ConsumedRight(s) && id in s.t.incidents && Conserved(s.t, id)
    requires (forall a :: Version(x.t, a) == Version(s.t, a) + if a == id then 1 else 0)
    requires x.consumed == s.consumed + [(id, s.t.incidents[id].version)] && 1 <= s.t.incidents[id].version
    ensures ConsumedRight(x)
  {
    var v := s.t.incidents[id].version;
    assert (id, v) !in s.consumed;
    forall a, u ensures (a, u) in x.consumed <==> 1 <= u < Version(x.t, a) {
      assert (a, u) in s.consumed <==> 1 <= u < Version(s.t, a);
      assert (a, u) in x.consumed <==> (a, u) in s.consumed || (a, u) == (id, v);
    }
  }

  lemma PathGrows(path: seq<Status>, last: Status, next: Status)
    requires IsPath(path, last) && ValidTransition(last, next)
    ensures IsPath(path + [next], next)
  {
  }

  lemma SwapKeepsInv(s: System, step: Step)
    requires Inv(s) && step.Swap? && Enabled(s, step)
    ensures Inv(Apply(s, step))
  {
    var x, local := Apply(s, step), At(s, step.w);
    assert CallerRight(s, step.w);
    if Swappable(s.t, local.id, local.status, local.expected) {
      var row := s.t.incidents[local.id].(status := local.next, version := local.expected + 1, updatedAt := step.now);
      BumpKeeps(s, x, local.id, Event(local.id, StatusChanged), row);
      forall id ensures HistoryRight(x, id) {
        assert HistoryRight(s, id);
        if id == local.id {
          PathGrows(s.history[id], local.status, local.next);
        }
      }
      forall w ensures CallerRight(x, w) {
        assert CallerRight(s, w);
      }
    } else {
      CrashKeepsInv(s, step.w);
    }
  }

  lemma CrashKeepsInv(s: System, w: string)
    requires Inv(s)
    ensures Inv(Moved(s, w, Idle))
  {
    var x := Moved(s, w, Idle);
    forall id ensures HistoryRight(x, id) {
      assert HistoryRight(s, id);
    }
    forall v ensures CallerRight(x, v) {
      assert CallerRight(s, v);
    }
  }

  lemma LookKeepsInv(s: System, step: Step)
    requires Inv(s) && step.Look? && Enabled(s, step)
    ensures Inv(Apply(s, step))
  {
    var x := Apply(s, step);
    forall id ensures HistoryRight(x, id) {
      assert HistoryRight(s, id);
    }
    forall v ensures CallerRight(x, v) {
      assert CallerRight(s, v);
    }
  }

  lemma AssignKeepsInv(s: System, step: Step)
    requires Inv(s) && step.Assign?
    ensures Inv(Apply(s, step))
  {
    var x, id := Apply(s, step), step.id;
    if AssignEffect(s.t, id, step.a, step.now).0.Ok? {
      var row := s.t.incidents[id].(version := s.t.incidents[id].version + 1, updatedAt := step.now);
      BumpKeeps(s, x, id, Event(id, Assigned), row);
      forall a ensures HistoryRight(x, a) {
        assert HistoryRight(s, a);
      }
      forall w ensures CallerRight(x, w) {
        assert CallerRight(s, w);
      }
    } else {
      assert x == s;
    }
  }

  lemma CorrelateKeepsInv(s: System, step: Step)
    requires Inv(s) && step.Correlate?
    ensures Inv(Apply(s, step))
  {
    var x, key := Apply(s, step), (step.id, step.c.geofenceID);
    if x.t != s.t {
      CorrelatedRows(s.t, x.t, step.id, step.c);
      forall id ensures HistoryRight(x, id) {
        assert HistoryRight(s, id);
      }
      forall w ensures CallerRight(x, w) {
        assert CallerRight(s, w);
      }
    } else {
      assert x == s;
    }
  }

  lemma CorrelatedRows(t: Tables, x: Tables, id: string, c: CorrelationRequest)
    requires (forall a :: Conserved(t, a)) && CorrelationsRight(t) && x == CorrelateEffect(t, id, c).1 && x != t
    ensures x.incidents == t.incidents && (forall a :: Conserved(x, a)) && CorrelationsRight(x)
  {
    var key := (id, c.geofenceID);
    forall a ensures Conserved(x, a) {
      assert Conserved(t, a);
      OneMoreRow(t.outbox, Event(id, SpatialCorrelated), a);
      assert Correlations(x, a) == Correlations(t, a) + if a == id then {key} else {};
    }
  }

  lemma StepKeepsInv(s: System, step: Step)
    requires Inv(s) && Enabled(s, step)
    ensures Inv(Apply(s, step))
  {
    match step
    case Create(_, _, _) => CreateKeepsInv(s, step);
    case Look(_, _, _, _) => LookKeepsInv(s, step);
    case Swap(_, _) => SwapKeepsInv(s, step);
    case Correlate(_, _) => CorrelateKeepsInv(s, step);
    case Assign(_, _, _) => AssignKeepsInv(s, step);
    case Crash(w) => CrashKeepsInv(s, w);
  }

  lemma {:induction false} ReachableStates(steps: seq<Step>)
    ensures Inv(Exec(steps))
    decreases |steps|
  {
    if steps != [] {
      ReachableStates(steps[..|steps| - 1]);
      if Enabled(Exec(steps[..|steps| - 1]), steps[|steps| - 1]) {
        StepKeepsInv(Exec(steps[..|steps| - 1]), steps[|steps| - 1]);
      }
    } else {
      assert forall id :: Correlations(EMPTY, id) == {};
    }
  }

  // ---------------------------------------------------------------------------
  // Main results
  // ---------------------------------------------------------------------------

  /** For every incident and any interleaving: outbox rows = version + correlations. */
  lemma OutboxConservation(steps: seq<Step>, id: string)
    ensures var t := Exec(steps).t;
            Rows(t.outbox, id) == Version(t, id) + |Correlations(t, id)|
  {
    ReachableStates(steps);
    assert Conserved(Exec(steps).t, id);
  }

  /** Each version is consumed by at most one commit, and every version before the present one by exactly one. */
  lemma VersionsConsumedOnce(steps: seq<Step>, id: string, v: int)
    ensures var s := Exec(steps);
            && (forall i, j :: 0 <= i < j < |s.consumed| ==> s.consumed[i] != s.consumed[j])
            && ((id, v) in s.consumed <==> 1 <= v < Version(s.t, id))
  {
    ReachableStates(steps);
  }

  function Progress(status: Status): nat {
    match status
    case Open => 0
    case Acknowledged => 1
    case Investigating => 2
    case Resolved => 3
    case _ => 4
  }

  lemma {:induction false} PathsProgress(path: seq<Status>, last: Status)
    requires IsPath(path, last)
    ensures |path| - 1 <= Progress(last) <= 4
    decreases |path|
  {
    if |path| > 1 {
      var front := path[..|path| - 1];
      assert IsPath(front, front[|front| - 1]);
      PathsProgress(front, front[|front| - 1]);
    }
  }

  /** The status history of every incident is a path of legal transitions, so it has at most four of them. */
  lemma StatusHistoryIsPath(steps: seq<Step>, id: string)
    requires id in Exec(steps).t.incidents
    ensures var s := Exec(steps);
            && id in s.history && IsPath(s.history[id], s.t.incidents[id].status)
            && |s.history[id]| - 1 <= 4
            && |s.history[id]| <= s.t.incidents[id].version
  {
    ReachableStates(steps);
    var s := Exec(steps);
    assert HistoryRight(s, id);
    PathsProgress(s.history[id], s.t.incidents[id].status);
    HistoryWithinVersion(steps, id);
  }

  lemma {:induction false} HistoryWithinVersion(steps: seq<Step>, id: string)
    ensures var s := Exec(steps); |Past(s, id)| <= Version(s.t, id)
    decreases |steps|
  {
    if steps != [] {
      var front, last := steps[..|steps| - 1], steps[|steps| - 1];
      HistoryWithinVersion(front, id);
      ReachableStates(front);
      assert HistoryRight(Exec(front), id);
      if Enabled(Exec(front), last) {
        HistoryStep(Exec(front), last, id);
      }
    }
  }

  lemma HistoryStep(s: System, step: Step, id: string)
    requires Enabled(s, step) && |Past(s, id)| <= Version(s.t, id) && HistoryRight(s, id)
    ensures |Past(Apply(s, step), id)| <= Version(Apply(s, step).t, id)
  {
    hide Identifier;
  }

  /** An update goes through exactly when the version is still the one that was read: the test on the status adds nothing. */
  lemma StatusGuardIsRedundant(steps: seq<Step>, w: string)
    requires At(Exec(steps), w).Read?
    ensures var s, local := Exec(steps), At(Exec(steps), w);
            Swappable(s.t, local.id, local.status, local.expected) <==> Version(s.t, local.id) == local.expected
  {
    ReachableStates(steps);
    assert CallerRight(Exec(steps), w);
  }

  /** Of two callers that read the same version, at most one gets its update through. */
  lemma OneWinner(steps: seq<Step>, v: string, w: string, now: int)
    requires v != w && At(Exec(steps), v).Read? && At(Exec(steps), w).Read?
    requires At(Exec(steps), v).id == At(Exec(steps), w).id && At(Exec(steps), v).expected == At(Exec(steps), w).expected
    requires Version(Exec(steps).t, At(Exec(steps), v).id) == At(Exec(steps), v).expected
    ensures var x := Apply(Exec(steps), Swap(v, now));
            var local := At(x, w);
            && Version(x.t, local.id) == local.expected + 1
            && local.Read? && !Swappable(x.t, local.id, local.status, local.expected)
  {
    StatusGuardIsRedundant(steps, v);
  }

  /** A closed incident stays as it is. */
  lemma ClosedIsFinal(steps: seq<Step>, step: Step, id: string)
    requires Enabled(Exec(steps), step) && id in Exec(steps).t.incidents && Exec(steps).t.incidents[id].status == Closed
    ensures id in Apply(Exec(steps), step).t.incidents && Apply(Exec(steps), step).t.incidents[id] == Exec(steps).t.incidents[id]
  {
    ReachableStates(steps);
    ClosedStays(Exec(steps), step, id);
  }

  lemma ClosedStays(s: System, step: Step, id: string)
    requires Inv(s) && Enabled(s, step) && id in s.t.incidents && s.t.incidents[id].status == Closed
    ensures id in Apply(s, step).t.incidents && Apply(s, step).t.incidents[id] == s.t.incidents[id]
  {
    if step.Swap? {
      assert CallerRight(s, step.w);
      ClosedIsNotSwapped(s, step, id);
    } else {
      OthersLeaveClosed(s, step, id);
    }
  }

  lemma ClosedIsNotSwapped(s: System, step: Step, id: string)
    requires Enabled(s, step) && step.Swap? && CallerRight(s, step.w)
    requires id in s.t.incidents && s.t.incidents[id].status == Closed
    ensures id in Apply(s, step).t.incidents && Apply(s, step).t.incidents[id] == s.t.incidents[id]
  {
  }

  lemma OthersLeaveClosed(s: System, step: Step, id: string)
    requires Enabled(s, step) && !step.Swap?
    requires id in s.t.incidents && s.t.incidents[id].status == Closed
    ensures id in Apply(s, step).t.incidents && Apply(s, step).t.incidents[id] == s.t.incidents[id]
  {
    hide Identifier;
  }

  // ---------------------------------------------------------------------------
  // The operations, field by field
  // ---------------------------------------------------------------------------

  /** A new incident starts open at version 1; a known source event is answered with its incident when the requests agree. */
  lemma CreateExactly(t: Tables, r: CreateRequest, found: Option<string>, now: int)
    requires Finds(t, r.sourceEventID, found)
    ensures var (done, x) := CreateEffect(t, r, found, now);
            var sound := && (forall s :: s in [r.category, r.title, r.description, r.createdBy] ==> CanonicalText(s) && |s| <= 4096)
                         && Identifier(r.incidentID) && Identifier(r.sourceEventID) && r.occurredAt != 0
                         && (r.severity == "LOW" || r.severity == "MEDIUM" || r.severity == "HIGH" || r.severity == "CRITICAL");
            var agrees := found.Some? && t.incidents[found.value].request == r;
            && (done == Err(Invalid) <==> !sound)
            && (done == Err(IdempotencyConflict) <==> sound && found.Some? && !agrees)
            && (done == Err(DuplicateIncident) <==> sound && found.None? && r.incidentID in t.incidents)
            && (done.Ok? <==> sound && (agrees || (found.None? && r.incidentID !in t.incidents)))
            && (done.Err? || found.Some? ==> x == t)
            && (done.Ok? && found.Some? ==> done.value == t.incidents[found.value])
            && (done.Ok? && found.None? ==>
                  && done.value == Row(r.(occurredAt := r.occurredAt - r.occurredAt % 1000), Open, 1, now)
                  && x.incidents == t.incidents[r.incidentID := done.value] && x.outbox == t.outbox + [Event(r.incidentID, Created)]
                  && x.correlations == t.correlations && x.assignments == t.assignments)
  {
    hide Identifier, CanonicalText;
    assert forall s :: s in [r.category, r.title, r.description, r.createdBy] <==> s in {r.category, r.title, r.description, r.createdBy};
  }

  /** An undisturbed transition goes through exactly on the version read and along one of six steps, and changes status, version and time only. */
  lemma TransitionExactly(t: Tables, id: string, expected: int, next: Status, now: int)
    ensures var (r, x) := TransitionEffect(t, id, expected, next, now);
            && (r == Err(NotFound) <==> id !in t.incidents)
            && (r == Err(OptimisticConflict) <==> id in t.incidents && t.incidents[id].version != expected)
            && (r.Ok? <==>
                  && id in t.incidents && t.incidents[id].version == expected
                  && (t.incidents[id].status, next) in {
                       (Open, Acknowledged), (Open, Resolved), (Acknowledged, Investigating), (Acknowledged, Resolved),
                       (Investigating, Resolved), (Resolved, Closed)})
            && (r.Err? ==> x == t && r.error in {NotFound, OptimisticConflict, InvalidTransition})
            && (r.Ok? ==>
                  && r.value == Row(t.incidents[id].request, next, expected + 1, now)
                  && x.incidents == t.incidents[id := r.value] && x.outbox == t.outbox + [Event(id, StatusChanged)]
                  && x.correlations == t.correlations && x.assignments == t.assignments)
  {
  }

  /** A read and an update with nothing between them are that transition. */
  lemma UndisturbedTransition(s: System, w: string, id: string, expected: int, next: Status, now: int)
    requires At(s, w).Idle?
    ensures var x := Apply(s, Look(w, id, expected, next));
            if At(x, w).Read? then Apply(x, Swap(w, now)).t == TransitionEffect(s.t, id, expected, next, now).1
            else x.t == s.t && TransitionEffect(s.t, id, expected, next, now).0.Err?
  {
  }

  /** The text of a SHA-256 digest in lower-case hexadecimal. */
  ghost predicate IsEvidence(evidence: string) {
    exists h: string :: evidence == "sha256:" + h && |h| == 64 && forall i :: 0 <= i < 64 ==> h[i] in "0123456789abcdef"
  }

  lemma HexDigits(c: char)
    ensures c in "0123456789abcdef" <==> IsDigit(c) || 'a' <= c <= 'f'
  {
    var digits := "0123456789abcdef";
    if IsDigit(c) {
      assert digits[c as int - '0' as int] == c;
    } else if 'a' <= c <= 'f' {
      assert digits[c as int - 'a' as int + 10] == c;
    }
  }

  lemma EvidenceExactly(evidence: string)
    ensures IsEvidence(evidence) <==>
              && |evidence| == 71 && evidence[..7] == "sha256:"
              && forall i :: 7 <= i < 71 ==> IsDigit(evidence[i]) || 'a' <= evidence[i] <= 'f'
  {
    if h: string :| evidence == "sha256:" + h && |h| == 64 && forall i :: 0 <= i < 64 ==> h[i] in "0123456789abcdef" {
      forall i | 7 <= i < 71 ensures IsDigit(evidence[i]) || 'a' <= evidence[i] <= 'f' {
        assert evidence[i] == h[i - 7];
        HexDigits(h[i - 7]);
      }
    }
    if |evidence| == 71 && evidence[..7] == "sha256:" && forall i :: 7 <= i < 71 ==> IsDigit(evidence[i]) || 'a' <= evidence[i] <= 'f' {
      var h := evidence[7..];
      forall i | 0 <= i < 64 ensures h[i] in "0123456789abcdef" {
        HexDigits(h[i]);
      }
      assert evidence == "sha256:" + h;
    }
  }

  /** A correlation is recorded once per incident and geofence, and accepted again exactly when it is the same. */
  lemma CorrelateExactly(t: Tables, id: string, r: CorrelationRequest)
    ensures var (done, x) := CorrelateEffect(t, id, r);
            var key := (id, r.geofenceID);
            var sound := && CanonicalText(r.geofenceID) && |r.geofenceID| <= 256 && CanonicalText(r.correlatedBy) && |r.correlatedBy| <= 256
                         && (r.relation == "INSIDE" || r.relation == "OUTSIDE" || r.relation == "BOUNDARY")
                         && -90.0 <= r.latitude <= 90.0 && -180.0 <= r.longitude <= 180.0
                         && IsEvidence(r.evidence);
            && (done == Err(NotFound) <==> !Identifier(id))
            && (done == Err(Invalid) <==> Identifier(id) && !(sound && id in t.incidents))
            && (done == Err(CorrelationConflict) <==> Identifier(id) && sound && id in t.incidents && key in t.correlations && t.correlations[key] != r)
            && (done.Ok? <==> Identifier(id) && sound && id in t.incidents && (key in t.correlations ==> t.correlations[key] == r))
            && (done.Err? || key in t.correlations ==> x == t)
            && (done.Ok? && key !in t.correlations ==>
                  x == Tables(t.incidents, t.correlations[key := r], t.assignments, t.outbox + [Event(id, SpatialCorrelated)]))
  {
    EvidenceExactly(r.evidence);
    hide Identifier, CanonicalText, IsEvidence;
  }

  /** An analyst is assigned exactly to the version the caller knows of an incident that is not closed. */
  lemma AssignExactly(t: Tables, id: string, r: AssignmentRequest, now: int)
    ensures var (done, x) := AssignEffect(t, id, r, now);
            var sound := r.expectedVersion >= 1 && Identifier(r.analystID) && Identifier(r.assignedBy) && r.analystID != r.assignedBy;
            && (done == Err(NotFound) <==> !Identifier(id) || (sound && id !in t.incidents))
            && (done == Err(Invalid) <==> Identifier(id) && !sound)
            && (done == Err(OptimisticConflict) <==> Identifier(id) && sound && id in t.incidents && t.incidents[id].version != r.expectedVersion)
            && (done.Ok? <==> Identifier(id) && sound && id in t.incidents && t.incidents[id].version == r.expectedVersion && t.incidents[id].status != Closed)
            && (done.Err? ==> x == t && done.error in {NotFound, Invalid, OptimisticConflict, InvalidTransition})
            && (done.Ok? ==>
                  && done.value == r.expectedVersion + 1
                  && x.incidents == t.incidents[id := Row(t.incidents[id].request, t.incidents[id].status, done.value, now)]
                  && x.assignments == t.assignments[id := Assignment(r.analystID, r.assignedBy, done.value)]
                  && x.correlations == t.correlations && x.outbox == t.outbox + [Event(id, Assigned)])
  {
    hide Identifier;
  }

  /** Creating the same incident again is answered with the retained row exactly when the request's time has no sub-microsecond part. */
  lemma ReplayedCreateExactly(t: Tables, r: CreateRequest, now: int, later: int)
    requires Finds(t, r.sourceEventID, None) && CreateEffect(t, r, None, now).0.Ok?
    ensures var x := CreateEffect(t, r, None, now).1;
            && Finds(x, r.sourceEventID, Some(r.incidentID))
            && (CreateEffect(x, r, Some(r.incidentID), later) == (Ok(Fresh(r, now)), x) <==> r.occurredAt % 1000 == 0)
            && (r.occurredAt % 1000 != 0 ==> CreateEffect(x, r, Some(r.incidentID), later) == (Err(IdempotencyConflict), x))
  {
    hide Identifier;
    var x := CreateEffect(t, r, None, now).1;
    assert x.incidents[r.incidentID] == Fresh(r, now);
  }
}
