/**
  internal/tracks/store.go: what fusion persists, what of it a restart gets back, and which alerts
  reach the table.
 */
module TrackStore {
  import opened Base
  import opened Classification
  import opened FusionModel
  import opened FusionRuns
  import opened FusionReplay
  import opened FusionHistory
  import opened FusionMeaning
  import opened FusionIdentity
  import opened FusionRebuild
  import Geo

  // ---------------------------------------------------------------------------
  // Tables
  // ---------------------------------------------------------------------------

  datatype TrackRow = TrackRow(mmsi: string, level: Label, firstAt: int, lastAt: int, pointCount: nat)

  // Keyed by (source, source event).
  type Key = (string, string)

  datatype AssociationRow = AssociationRow(trackID: string, observedAt: int, associatedAt: int)

  // The text of an anomaly identity is made of these three.
  datatype AnomalyID = AnomalyID(kind: Kind, owner: string, detectedAt: int)

  datatype Tables = Tables(
    tracks: map<string, TrackRow>, associations: map<Key, AssociationRow>, anomalies: map<AnomalyID, Anomaly>, outbox: seq<AnomalyID>)

  const NO_ROWS := Tables(map[], map[], map[], [])

  function KeyOf(d: Detection): Key {
    (d.sourceID, d.sourceEventID)
  }

  function IDOf(a: Anomaly): AnomalyID {
    AnomalyID(a.kind, a.owner, a.detectedAt)
  }

  // ---------------------------------------------------------------------------
  // RecordFusion
  // ---------------------------------------------------------------------------

  function Later(a: int, b: int): int {
    if a > b then a else b
  }

  function Snapshot(t: TrackState): TrackRow
    requires t.points != []
  {
    TrackRow(t.mmsi, t.level, t.points[0].observedAt, Last(t).observedAt, |t.points|)
  }

  function Upserted(tracks: map<string, TrackRow>, id: string, t: TrackState): map<string, TrackRow>
    requires t.points != []
  {
    if id !in tracks then tracks[id := Snapshot(t)]
    else
      var row := tracks[id];
      tracks[id := TrackRow(if row.mmsi != "" then row.mmsi else t.mmsi, t.level, row.firstAt, Later(row.lastAt, Last(t).observedAt), |t.points|)]
  }

  /** An anomaly is stored, and announced, unless one with its identity is there already. */
  function Persisted(t: Tables, alerts: seq<Anomaly>): Tables {
    if alerts == [] then t
    else
      var before, a := Persisted(t, alerts[..|alerts| - 1]), alerts[|alerts| - 1];
      if IDOf(a) in before.anomalies then before
      else before.(anomalies := before.anomalies[IDOf(a) := a], outbox := before.outbox + [IDOf(a)])
  }

  /** The first association of a detection is kept. */
  function Associated(rows: map<Key, AssociationRow>, x: Association, now: int): map<Key, AssociationRow> {
    if KeyOf(x.d) in rows then rows else rows[KeyOf(x.d) := AssociationRow(x.id, x.d.observedAt, now)]
  }

  function Fused(t: Tables, id: string, track: TrackState, d: Detection, alerts: seq<Anomaly>, now: int): Tables
    requires track.points != []
  {
    Persisted(t.(tracks := Upserted(t.tracks, id, track), associations := Associated(t.associations, Association(id, d), now)), alerts)
  }

  class Store {
    var tracks: map<string, TrackRow>
    var associations: map<Key, AssociationRow>
    var anomalies: map<AnomalyID, Anomaly>
    var outbox: seq<AnomalyID>

    constructor ()
      ensures View() == NO_ROWS
    {
      tracks, associations, anomalies, outbox := map[], map[], map[], [];
    }

    function View(): Tables
      reads this
    {
      Tables(tracks, associations, anomalies, outbox)
    }

    method RecordAnomaly(a: Anomaly)
      modifies this`anomalies, this`outbox
      ensures anomalies == if IDOf(a) in old(anomalies) then old(anomalies) else old(anomalies)[IDOf(a) := a]
      ensures outbox == if IDOf(a) in old(anomalies) then old(outbox) else old(outbox) + [IDOf(a)]
    {
      if IDOf(a) in anomalies {
        return;
      }
      anomalies := anomalies[IDOf(a) := a];
      outbox := outbox + [IDOf(a)];
    }

    method RecordAnomalies(alerts: seq<Anomaly>)
      modifies this`anomalies, this`outbox
      ensures View() == Persisted(old(View()), alerts)
    {
      for i := 0 to |alerts|
        invariant View() == Persisted(old(View()), alerts[..i])
      {
        assert alerts[..i + 1][..i] == alerts[..i];
        RecordAnomaly(alerts[i]);
      }
      assert alerts[..|alerts|] == alerts;
    }

    method RecordFusion(id: string, track: TrackState, d: Detection, alerts: seq<Anomaly>, now: int) returns (ok: bool)
      modifies this
      ensures ok <==> track.points != []
      ensures View() == if ok then Fused(old(View()), id, track, d, alerts, now) else old(View())
    {
      if track.points == [] {
        return false;
      }
      var last := track.points[|track.points| - 1].observedAt;
      if id !in tracks {
        tracks := tracks[id := TrackRow(track.mmsi, track.level, track.points[0].observedAt, last, |track.points|)];
      } else {
        var row := tracks[id];
        tracks := tracks[id :=
          TrackRow(if row.mmsi != "" then row.mmsi else track.mmsi, track.level, row.firstAt, Later(row.lastAt, last), |track.points|)];
      }
      if KeyOf(d) !in associations {
        associations := associations[KeyOf(d) := AssociationRow(id, d.observedAt, now)];
      }
      RecordAnomalies(alerts);
      return true;
    }
  }

  // ---------------------------------------------------------------------------
  // Which alerts are kept
  // ---------------------------------------------------------------------------

  /** Alert i of the list is the first with its identity. */
  ghost predicate FirstOfItsID(alerts: seq<Anomaly>, i: int) {
    0 <= i < |alerts| && forall j :: 0 <= j < i ==> IDOf(alerts[j]) != IDOf(alerts[i])
  }

  /** What is stored under an identity: what was there before, or else the first alert of the list with it. */
  lemma {:induction false} PersistsFirst(t: Tables, alerts: seq<Anomaly>, i: int)
    requires FirstOfItsID(alerts, i)
    ensures var id := IDOf(alerts[i]);
            && id in Persisted(t, alerts).anomalies
            && Persisted(t, alerts).anomalies[id] == if id in t.anomalies then t.anomalies[id] else alerts[i]
    decreases |alerts|
  {
    var front := alerts[..|alerts| - 1];
    if i < |front| {
      assert FirstOfItsID(front, i);
      PersistsFirst(t, front, i);
    } else {
      PersistsNothingElse(t, front, IDOf(alerts[i]));
    }
  }

  lemma {:induction false} PersistsNothingElse(t: Tables, alerts: seq<Anomaly>, id: AnomalyID)
    requires forall j :: 0 <= j < |alerts| ==> IDOf(alerts[j]) != id
    ensures id in Persisted(t, alerts).anomalies <==> id in t.anomalies
    ensures id in t.anomalies ==> Persisted(t, alerts).anomalies[id] == t.anomalies[id]
    decreases |alerts|
  {
    if alerts != [] {
      PersistsNothingElse(t, alerts[..|alerts| - 1], id);
    }
  }

  // The alerts of one call of Ingest all carry the reporting track and the same instant.
  predicate AllBy(alerts: seq<Anomaly>, id: string, now: int) {
    forall i :: 0 <= i < |alerts| ==> alerts[i].owner == id && alerts[i].detectedAt == now
  }

  lemma {:induction false} LoiterAlertsBy(t: TrackState, id: string, zones: seq<string>, now: int, d: Detection)
    ensures AllBy(LoiterAlerts(t, id, zones, now, d), id, now)
    decreases |zones|
  {
    if zones != [] {
      LoiterAlertsBy(t, id, zones[..|zones| - 1], now, d);
    }
  }

  lemma {:induction false} PairAlertsBy(w: World, x: FusionModel.Outcome, id: string, p: Point, order: seq<string>, now: int, d: Detection)
    requires id in x.state.tracks && (forall o :: o in order ==> o in x.state.tracks) && AllBy(x.alerts, id, now)
    ensures AllBy(EvaluatePairs(w, x, id, p, order, now, d).alerts, id, now)
    decreases |order|
  {
    if order != [] {
      var front := order[..|order| - 1];
      PairAlertsBy(w, x, id, p, front, now, d);
      PairCases(w, EvaluatePairs(w, x, id, p, front, now, d), id, p, order[|order| - 1], now, d);
    }
  }

  lemma IngestAlertsBy(w: World, s: State, d: Detection, c: Choice)
    requires LegalChoice(w, s, d, c) && TargetOf(w, s, d, c) in Placed(w, s, d, c).tracks
    ensures AllBy(Ingest(w, s, d, c).alerts, TargetOf(w, s, d, c), c.now)
  {
    var id := TargetOf(w, s, d, c);
    var y := Absorb(Placed(w, s, d, c), id, d);
    LoiterAlertsBy(y.tracks[id], id, LoiteringZones(w, y.tracks[id], PointOf(d), w.zones), c.now, d);
    PairAlertsBy(w, EvaluateAlone(w, y, id, PointOf(d), c.now, d), id, PointOf(d), c.pairOrder, c.now, d);
  }

  /**
    Of the alerts one report raises at most the first of each kind is stored and announced: the others
    share its identity. Not even that one is when an alert with its track and instant is there already.
   */
  lemma OneAlertPerKindIsKept(w: World, s: State, d: Detection, c: Choice, t: Tables, i: int) returns (first: int)
    requires LegalChoice(w, s, d, c) && TargetOf(w, s, d, c) in Placed(w, s, d, c).tracks
    requires 0 <= i < |Ingest(w, s, d, c).alerts|
    ensures var alerts := Ingest(w, s, d, c).alerts;
            var x, id := Persisted(t, alerts), IDOf(alerts[i]);
            && 0 <= first <= i && alerts[first].kind == alerts[i].kind
            && (forall j :: 0 <= j < first ==> alerts[j].kind != alerts[i].kind)
            && id == AnomalyID(alerts[i].kind, TargetOf(w, s, d, c), c.now) && id in x.anomalies
            && x.anomalies[id] == if id in t.anomalies then t.anomalies[id] else alerts[first]
  {
    IngestAlertsBy(w, s, d, c);
    var alerts := Ingest(w, s, d, c).alerts;
    hide Ingest;
    first := Leading(alerts, i);
    PersistsFirst(t, alerts, first);
    forall j | 0 <= j < first ensures alerts[j].kind != alerts[i].kind {
      assert IDOf(alerts[j]) != IDOf(alerts[first]);
    }
  }

  ghost function Leading(alerts: seq<Anomaly>, i: int): (first: int)
    requires 0 <= i < |alerts|
    ensures first <= i && FirstOfItsID(alerts, first) && IDOf(alerts[first]) == IDOf(alerts[i])
    decreases i
  {
    if exists j :: 0 <= j < i && IDOf(alerts[j]) == IDOf(alerts[i]) then
      var j :| 0 <= j < i && IDOf(alerts[j]) == IDOf(alerts[i]);
      Leading(alerts, j)
    else i
  }

  /** Of the loitering alerts of one report on two zones, only that of the first zone can be stored. */
  lemma SecondZoneIsLost(t: Tables, track: TrackState, id: string, zones: seq<string>, now: int, d: Detection)
    requires |zones| >= 2 && zones[0] != zones[1]
    ensures var x, key := Persisted(t, LoiterAlerts(track, id, zones, now, d)), AnomalyID(Loitering, id, now);
            && key in x.anomalies
            && (key !in t.anomalies ==> x.anomalies[key].zoneID == zones[0] && |x.outbox| == |t.outbox| + 1)
            && (key in t.anomalies ==> x.anomalies[key] == t.anomalies[key])
  {
    LoiterShape(track, id, zones, now, d);
    var alerts := LoiterAlerts(track, id, zones, now, d);
    PersistsFirst(t, alerts, 0);
    if AnomalyID(Loitering, id, now) !in t.anomalies {
      OneIDOneNotice(t, alerts, AnomalyID(Loitering, id, now));
    }
  }

  lemma {:induction false} LoiterShape(t: TrackState, id: string, zones: seq<string>, now: int, d: Detection)
    ensures var alerts := LoiterAlerts(t, id, zones, now, d);
            |alerts| == |zones| && forall i :: 0 <= i < |zones| ==> alerts[i].zoneID == zones[i] && IDOf(alerts[i]) == AnomalyID(Loitering, id, now)
    decreases |zones|
  {
    if zones != [] {
      LoiterShape(t, id, zones[..|zones| - 1], now, d);
    }
  }

  lemma {:induction false} OneIDOneNotice(t: Tables, alerts: seq<Anomaly>, id: AnomalyID)
    requires alerts != [] && id !in t.anomalies && forall i :: 0 <= i < |alerts| ==> IDOf(alerts[i]) == id
    ensures id in Persisted(t, alerts).anomalies && |Persisted(t, alerts).outbox| == |t.outbox| + 1
    decreases |alerts|
  {
    var front := alerts[..|alerts| - 1];
    if front != [] {
      OneIDOneNotice(t, front, id);
    }
  }

  // ---------------------------------------------------------------------------
  // ListAssociationsForReplay
  // ---------------------------------------------------------------------------

  // ORDER BY observed_at, associated_at, source_id, source_event_id; less is the order of the text columns.
  predicate Ahead(less: (string, string) -> bool, rows: map<Key, AssociationRow>, a: Key, b: Key)
    requires a in rows && b in rows
  {
    var x, y := rows[a], rows[b];
    if x.observedAt != y.observedAt then x.observedAt < y.observedAt
    else if x.associatedAt != y.associatedAt then x.associatedAt < y.associatedAt
    else if a.0 != b.0 then less(a.0, b.0)
    else less(a.1, b.1)
  }

  ghost predicate StrictOrder(less: (string, string) -> bool) {
    && (forall a :: !less(a, a))
    && (forall a, b :: a != b ==> less(a, b) != less(b, a))
    && (forall a, b, c :: less(a, b) && less(b, c) ==> less(a, c))
  }

  /** The answer to the query: the associations joined to their retained detections, in order. */
  ghost predicate Lists(
      less: (string, string) -> bool, rows: map<Key, AssociationRow>, detections: map<Key, Detection>, answer: seq<Key>)
  {
    && (forall key :: key in answer <==> key in rows && key in detections)
    && (forall i, j :: 0 <= i < j < |answer| ==> Ahead(less, rows, answer[i], answer[j]))
  }

  /** Later in the listing means observed no earlier, then recorded no earlier, then no smaller source, then a greater event. */
  lemma ListedInOrder(
      less: (string, string) -> bool, rows: map<Key, AssociationRow>, detections: map<Key, Detection>, answer: seq<Key>, i: nat, j: nat)
    requires StrictOrder(less) && Lists(less, rows, detections, answer) && i < j < |answer|
    ensures answer[i] != answer[j] && answer[i] in rows && answer[j] in rows
    ensures var (a, b) := (answer[i], answer[j]);
            var (x, y) := (rows[a], rows[b]);
            && x.observedAt <= y.observedAt
            && (x.observedAt == y.observedAt ==> x.associatedAt <= y.associatedAt)
            && (x.observedAt == y.observedAt && x.associatedAt == y.associatedAt ==> !less(b.0, a.0))
            && (x.observedAt == y.observedAt && x.associatedAt == y.associatedAt && a.0 == b.0 ==> less(a.1, b.1))
  {
    var a, b := answer[i], answer[j];
    assert Ahead(less, rows, a, b);
    assert less(b.0, a.0) ==> a.0 != b.0 && !less(a.0, b.0);
  }

  /** An association whose detection is gone is skipped without an error; all come back exactly when none is gone. */
  lemma NothingSkippedExactly(less: (string, string) -> bool, rows: map<Key, AssociationRow>, detections: map<Key, Detection>, answer: seq<Key>)
    requires Lists(less, rows, detections, answer)
    ensures (forall key :: key in rows ==> key in answer) <==> rows.Keys <= detections.Keys
  {
  }

  lemma AheadIsStrict(less: (string, string) -> bool, rows: map<Key, AssociationRow>, a: Key, b: Key, c: Key)
    requires StrictOrder(less) && a in rows && b in rows && c in rows
    ensures !Ahead(less, rows, a, a)
    ensures a != b ==> Ahead(less, rows, a, b) != Ahead(less, rows, b, a)
    ensures Ahead(less, rows, a, b) && Ahead(less, rows, b, c) ==> Ahead(less, rows, a, c)
  {
  }

  /** There is only one ordered listing. */
  lemma {:induction false} ListingIsUnique(less: (string, string) -> bool, rows: map<Key, AssociationRow>, a: seq<Key>, b: seq<Key>)
    requires StrictOrder(less) && (forall k :: k in a <==> k in b) && (forall k :: k in a ==> k in rows)
    requires forall i, j :: 0 <= i < j < |a| ==> Ahead(less, rows, a[i], a[j])
    requires forall i, j :: 0 <= i < j < |b| ==> Ahead(less, rows, b[i], b[j])
    ensures a == b
    decreases |a|
  {
    assert |a| > 0 ==> a[0] in a;
    assert |b| > 0 ==> b[0] in b;
    if a != [] {
      var i :| 0 <= i < |b| && b[i] == a[0];
      var j :| 0 <= j < |a| && a[j] == b[0];
      AheadIsStrict(less, rows, a[0], b[0], a[0]);
      assert a[0] == b[0];
      TailsAgree(less, rows, a, b);
      ListingIsUnique(less, rows, a[1..], b[1..]);
    }
  }

  lemma TailsAgree(less: (string, string) -> bool, rows: map<Key, AssociationRow>, a: seq<Key>, b: seq<Key>)
    requires StrictOrder(less) && (forall k :: k in a <==> k in b) && (forall k :: k in a ==> k in rows)
    requires forall i, j :: 0 <= i < j < |a| ==> Ahead(less, rows, a[i], a[j])
    requires forall i, j :: 0 <= i < j < |b| ==> Ahead(less, rows, b[i], b[j])
    requires a != [] && b != [] && a[0] == b[0]
    ensures forall k :: k in a[1..] <==> k in b[1..]
  {
    forall i | 0 < i < |a| ensures a[i] != a[0] {
      AheadIsStrict(less, rows, a[0], a[i], a[0]);
    }
    forall i | 0 < i < |b| ensures b[i] != b[0] {
      AheadIsStrict(less, rows, b[0], b[i], b[0]);
    }
    forall k ensures k in a[1..] <==> k in b[1..] {
      assert k in a <==> k == a[0] || k in a[1..];
      assert k in b <==> k == b[0] || k in b[1..];
    }
  }

  // ---------------------------------------------------------------------------
  // A restart, end to end
  // ---------------------------------------------------------------------------

  /** The row's association is in the log. */
  ghost predicate FromLog(rows: map<Key, AssociationRow>, log: seq<Association>, key: Key)
    requires key in rows
  {
    exists i :: 0 <= i < |log| && KeyOf(log[i].d) == key && rows[key].trackID == log[i].id && rows[key].observedAt == log[i].d.observedAt
  }

  ghost predicate RowsFromLog(rows: map<Key, AssociationRow>, log: seq<Association>) {
    forall key :: key in rows ==> FromLog(rows, log, key)
  }

  /** A retained detection is found under its own source and source event. */
  ghost predicate Keyed(detections: map<Key, Detection>) {
    forall key :: key in detections ==> KeyOf(detections[key]) == key
  }

  /** The association was written and its detection is retained. */
  ghost predicate Kept(rows: map<Key, AssociationRow>, detections: map<Key, Detection>, x: Association) {
    KeyOf(x.d) in rows && KeyOf(x.d) in detections && detections[KeyOf(x.d)] == x.d
  }

  /** The whole log was written and retained, and fused in the order of the listing. */
  ghost predicate InListingOrder(
      less: (string, string) -> bool, rows: map<Key, AssociationRow>, detections: map<Key, Detection>, log: seq<Association>)
  {
    && (forall i :: 0 <= i < |log| ==> Kept(rows, detections, log[i]))
    && (forall i, j :: 0 <= i < j < |log| ==> Ahead(less, rows, KeyOf(log[i].d), KeyOf(log[j].d)))
  }

  /** What the startup replays, in order. */
  function Replays(rows: map<Key, AssociationRow>, detections: map<Key, Detection>, answer: seq<Key>): seq<Association>
    requires forall k :: k in answer ==> k in rows && k in detections
  {
    seq(|answer|, i requires 0 <= i < |answer| => Association(rows[answer[i]].trackID, detections[answer[i]]))
  }

  function Keys(log: seq<Association>): seq<Key> {
    seq(|log|, i requires 0 <= i < |log| => KeyOf(log[i].d))
  }

  // No two associations of a log in listing order have the same key, so each row is the one of its own.
  lemma OwnRow(
      less: (string, string) -> bool, rows: map<Key, AssociationRow>, detections: map<Key, Detection>, log: seq<Association>, i: nat)
    requires StrictOrder(less) && RowsFromLog(rows, log) && InListingOrder(less, rows, detections, log) && i < |log|
    ensures rows[KeyOf(log[i].d)].trackID == log[i].id
  {
    var key := KeyOf(log[i].d);
    assert Kept(rows, detections, log[i]) && FromLog(rows, log, key);
    var j :| 0 <= j < |log| && KeyOf(log[j].d) == key && rows[key].trackID == log[j].id;
    AheadIsStrict(less, rows, key, key, key);
    assert i == j;
  }

  lemma ListingOfLog(
      less: (string, string) -> bool, rows: map<Key, AssociationRow>, detections: map<Key, Detection>, log: seq<Association>, answer: seq<Key>)
    requires StrictOrder(less) && RowsFromLog(rows, log) && InListingOrder(less, rows, detections, log)
    requires Lists(less, rows, detections, answer)
    ensures answer == Keys(log)
  {
    var keys := Keys(log);
    forall k ensures k in answer <==> k in keys {
      if k in keys {
        var i :| 0 <= i < |keys| && keys[i] == k;
        assert Kept(rows, detections, log[i]);
      }
      if k in rows {
        assert FromLog(rows, log, k);
        var i :| 0 <= i < |log| && KeyOf(log[i].d) == k;
        assert keys[i] == k;
      }
    }
    ListingIsUnique(less, rows, answer, keys);
  }

  /** The startup replays exactly the log, exactly when all of it was written and retained and it was fused in listing order. */
  lemma ReplaysTheLog(
      less: (string, string) -> bool, rows: map<Key, AssociationRow>, detections: map<Key, Detection>, log: seq<Association>, answer: seq<Key>)
    requires StrictOrder(less) && RowsFromLog(rows, log) && Keyed(detections) && Lists(less, rows, detections, answer)
    ensures Replays(rows, detections, answer) == log <==> InListingOrder(less, rows, detections, log)
  {
    var replayed := Replays(rows, detections, answer);
    if InListingOrder(less, rows, detections, log) {
      ListingOfLog(less, rows, detections, log, answer);
      forall i | 0 <= i < |log| ensures replayed[i] == log[i] {
        OwnRow(less, rows, detections, log, i);
        assert answer[i] == KeyOf(log[i].d) && Kept(rows, detections, log[i]);
      }
    }
    if replayed == log {
      forall i | 0 <= i < |log| ensures answer[i] == KeyOf(log[i].d) && Kept(rows, detections, log[i]) {
        assert replayed[i] == log[i] && answer[i] in answer;
      }
    }
  }

  /** Position i of the log was recorded at times[i]. */
  function RecordedRows(log: seq<Association>, times: seq<int>): map<Key, AssociationRow>
    requires |log| == |times|
  {
    if log == [] then map[]
    else
      var n := |log| - 1;
      Associated(RecordedRows(log[..n], times[..n]), log[n], times[n])
  }

  lemma OneMoreRow(rows: map<Key, AssociationRow>, log: seq<Association>, x: Association, now: int)
    requires RowsFromLog(rows, log)
    ensures RowsFromLog(Associated(rows, x, now), log + [x])
  {
    var after, longer := Associated(rows, x, now), log + [x];
    forall key | key in after ensures FromLog(after, longer, key) {
      if key in rows {
        assert FromLog(rows, log, key);
        var i :| 0 <= i < |log| && KeyOf(log[i].d) == key && rows[key].trackID == log[i].id && rows[key].observedAt == log[i].d.observedAt;
        assert longer[i] == log[i];
      } else {
        assert longer[|log|] == x;
      }
    }
  }

  // ---------------------------------------------------------------------------
  // The tables beside the running engine
  // ---------------------------------------------------------------------------

  /** What the service writes for one event: RecordFusion after a report, RecordAnomalies after a scan. */
  ghost function WrittenFor(t: Tables, f: Effect, now: int): Tables {
    if f.log == [] then Persisted(t, f.out.alerts)
    else
      var x := f.log[0];
      if x.id in f.out.state.tracks && f.out.state.tracks[x.id].points != []
      then Fused(t, x.id, f.out.state.tracks[x.id], x.d, f.out.alerts, now) else t
  }

  /** The tables after a run in which event k is written, at clock(k), before the next one. */
  ghost function Written(w: World, events: seq<FusionRuns.Event>, clock: int -> int): Tables {
    if events == [] then NO_ROWS
    else
      var n := |events| - 1;
      WrittenFor(Written(w, events[..n], clock), EffectOf(w, Exec(w, START, events[..n]).state, events[n]), clock(n))
  }

  /** When each association of the log was written. */
  ghost function TimesOf(w: World, events: seq<FusionRuns.Event>, clock: int -> int): seq<int> {
    if events == [] then []
    else
      var n := |events| - 1;
      TimesOf(w, events[..n], clock) + if EffectOf(w, Exec(w, START, events[..n]).state, events[n]).log == [] then [] else [clock(n)]
  }

  function Newest(h: seq<Detection>): int
    requires h != []
  {
    if |h| == 1 then h[0].observedAt else Later(Newest(h[..|h| - 1]), h[|h| - 1].observedAt)
  }

  /** A track row against the engine's track and its full history. */
  ghost predicate RowRight(row: TrackRow, t: TrackState, h: seq<Detection>) {
    && row.level == t.level && row.mmsi == t.mmsi && row.pointCount == |t.points|
    && h != [] && row.firstAt == h[0].observedAt && row.lastAt == Newest(h)
  }

  ghost predicate Agree(t: Tables, s: State, log: seq<Association>, id: string) {
    && (id in t.tracks <==> id in s.tracks)
    && (id in s.tracks ==> RowRight(t.tracks[id], s.tracks[id], History(log, id)))
  }

  lemma {:induction false} PersistedKeepsTracks(t: Tables, alerts: seq<Anomaly>)
    ensures Persisted(t, alerts).tracks == t.tracks && Persisted(t, alerts).associations == t.associations
    decreases |alerts|
  {
    if alerts != [] {
      PersistedKeepsTracks(t, alerts[..|alerts| - 1]);
    }
  }

  lemma FusedAgrees(w: World, t: Tables, s: State, log: seq<Association>, x: State, id: string, d: Detection, a: string)
    requires Agree(t, s, log, a) && Reported(w, s, x, id, d) && (id in s.tracks <==> Latest(log, id) >= 0)
    requires id in x.tracks && x.tracks[id].points != [] && Last(x.tracks[id]) == PointOf(d)
    ensures Agree(t.(tracks := Upserted(t.tracks, id, x.tracks[id])), x, log + [Association(id, d)], a)
  {
    HistoryGrows(log, Association(id, d), a);
    HistoryEnds(log, id);
    var h := History(log, a);
    if a == id {
      if h != [] {
        assert (h + [d])[..|h|] == h;
        IdentityStays(s.tracks[id], d);
      } else {
        assert h + [d] == [d];
      }
    } else {
      assert h + [] == h;
    }
  }

  lemma IdentityStays(t: TrackState, d: Detection)
    ensures t.mmsi != "" ==> AbsorbTrack(t, d).mmsi == t.mmsi
    ensures AbsorbTrack(t, d).points != [] && Last(AbsorbTrack(t, d)) == PointOf(d)
  {
  }

  lemma LastAbsorbed(w: World, s: State, x: State, id: string, d: Detection)
    requires Reported(w, s, x, id, d)
    ensures x.tracks[id].points != [] && Last(x.tracks[id]) == PointOf(d)
  {
    IdentityStays(Before(s, id, d), d);
  }

  lemma EventAgrees(w: World, t: Tables, r: Run, e: FusionRuns.Event, now: int, a: string)
    requires Inv(r.state) && TracksMean(w, r.state, r.log) && LegalEvent(w, r.state, e) && Agree(t, r.state, r.log, a)
    ensures var f := EffectOf(w, r.state, e);
            Agree(WrittenFor(t, f, now), f.out.state, r.log + f.log, a)
  {
    var f := EffectOf(w, r.state, e);
    match e
    case Report(d, c) =>
      if Accepted(d) {
        var id := TargetOf(w, r.state, d, c);
        IngestReported(w, r.state, d, c);
        LastAbsorbed(w, r.state, f.out.state, id, d);
        assert Tracked(w, r.state, r.log, id);
        FusedAgrees(w, t, r.state, r.log, f.out.state, id, d, a);
        WrittenReport(t, f, id, d, now);
      } else {
        assert r.log + [] == r.log;
      }
    case Sweep(order, instant) =>
      assert r.log + [] == r.log;
      ScanOnlyDark(w, r.state, order, instant);
      PersistedKeepsTracks(t, f.out.alerts);
  }

  lemma WrittenReport(t: Tables, f: Effect, id: string, d: Detection, now: int)
    requires f.log == [Association(id, d)] && id in f.out.state.tracks && f.out.state.tracks[id].points != []
    ensures WrittenFor(t, f, now).tracks == Upserted(t.tracks, id, f.out.state.tracks[id])
    ensures WrittenFor(t, f, now).associations == Associated(t.associations, Association(id, d), now)
  {
    PersistedKeepsTracks(
      t.(tracks := Upserted(t.tracks, id, f.out.state.tracks[id]), associations := Associated(t.associations, Association(id, d), now)),
      f.out.alerts);
  }

  /**
    When each report is written before the next event, the track table shows the engine's tracks: the
    same labels, MMSIs and point counts, and the first and the newest observation of the whole history.
   */
  lemma {:induction false} SnapshotsAgree(w: World, events: seq<FusionRuns.Event>, clock: int -> int, id: string)
    requires Legal(w, START, events)
    ensures var r := Exec(w, START, events); Agree(Written(w, events, clock), r.state, r.log, id)
    decreases |events|
  {
    if events != [] {
      var n := |events| - 1;
      SnapshotsAgree(w, events[..n], clock, id);
      EmptyIsBooted(w);
      StateMeansHistory(w, START, events[..n]);
      EventAgrees(w, Written(w, events[..n], clock), Exec(w, START, events[..n]), events[n], clock(n), id);
    }
  }

  lemma EventAssociates(w: World, t: Tables, r: Run, e: FusionRuns.Event, now: int)
    requires Inv(r.state) && LegalEvent(w, r.state, e)
    ensures var f := EffectOf(w, r.state, e);
            && |f.log| <= 1
            && WrittenFor(t, f, now).associations == if f.log == [] then t.associations else Associated(t.associations, f.log[0], now)
  {
    var f := EffectOf(w, r.state, e);
    match e
    case Report(d, c) =>
      if Accepted(d) {
        var id := TargetOf(w, r.state, d, c);
        IngestReported(w, r.state, d, c);
        LastAbsorbed(w, r.state, f.out.state, id, d);
        WrittenReport(t, f, id, d, now);
      }
    case Sweep(order, instant) =>
      PersistedKeepsTracks(t, f.out.alerts);
  }

  /** And the association table is the log. */
  lemma {:induction false} AssociationsAreTheLog(w: World, events: seq<FusionRuns.Event>, clock: int -> int)
    requires Legal(w, START, events)
    ensures |TimesOf(w, events, clock)| == |Exec(w, START, events).log|
    ensures Written(w, events, clock).associations == RecordedRows(Exec(w, START, events).log, TimesOf(w, events, clock))
    decreases |events|
  {
    if events != [] {
      var n := |events| - 1;
      var r, f, t := Exec(w, START, events[..n]), EffectOf(w, Exec(w, START, events[..n]).state, events[n]), Written(w, events[..n], clock);
      AssociationsAreTheLog(w, events[..n], clock);
      ReachableStates(w, START, events[..n]);
      EventAssociates(w, t, r, events[n], clock(n));
      var times := TimesOf(w, events[..n], clock);
      if f.log == [] {
        assert r.log + f.log == r.log && times + [] == times;
      } else {
        assert f.log == [f.log[0]];
        OneMoreAssociation(r.log, times, f.log[0], clock(n));
      }
    }
  }

  lemma OneMoreAssociation(log: seq<Association>, times: seq<int>, x: Association, now: int)
    requires |log| == |times|
    ensures RecordedRows(log + [x], times + [now]) == Associated(RecordedRows(log, times), x, now)
  {
    assert (log + [x])[..|log|] == log && (times + [now])[..|times|] == times;
  }

  lemma {:induction false} WrittenRowsFromLog(log: seq<Association>, times: seq<int>)
    requires |log| == |times|
    ensures RowsFromLog(RecordedRows(log, times), log)
    decreases |log|
  {
    if log != [] {
      var n := |log| - 1;
      WrittenRowsFromLog(log[..n], times[..n]);
      OneMoreRow(RecordedRows(log[..n], times[..n]), log[..n], log[n], times[n]);
      assert log == log[..n] + [log[n]];
    }
  }

  /**
    From the running engine through the tables back into a fresh engine: when all detections were
    written and retained, and fused in the order the query lists them in, the startup rebuilds the
    state the engine stopped in, but for labels, with all latches clear, unless a track was opened by
    a report whose MMSI fields contradict each other.
   */
  lemma RestartRebuilds(
      w: World, start: Run, events: seq<FusionRuns.Event>, less: (string, string) -> bool, rows: map<Key, AssociationRow>,
      detections: map<Key, Detection>, answer: seq<Key>, orders: seq<seq<string>>)
    requires Booted(w, start) && Legal(w, start, events) && StrictOrder(less) && Keyed(detections)
    requires var log := Exec(w, start, events).log; RowsFromLog(rows, log) && InListingOrder(less, rows, detections, log)
    requires Lists(less, rows, detections, answer) && LegalOrders(w, Replays(rows, detections, answer), orders)
    ensures var r := Exec(w, start, events);
            var copy := Rebuild(w, Replays(rows, detections, answer), orders);
            (Shadow(r.state, copy) <==> OpenersAgree(r.log, |start.log|)) && Unlatched(copy)
  {
    ReplaysTheLog(less, rows, detections, Exec(w, start, events).log, answer);
    RebuildsExactly(w, start, events, orders);
  }

  /** In particular from the tables of a run in which each report is written before the next event. */
  lemma RestartFromWritten(
      w: World, events: seq<FusionRuns.Event>, clock: int -> int, less: (string, string) -> bool, detections: map<Key, Detection>,
      answer: seq<Key>, orders: seq<seq<string>>)
    requires Legal(w, START, events) && StrictOrder(less) && Keyed(detections)
    requires InListingOrder(less, Written(w, events, clock).associations, detections, Exec(w, START, events).log)
    requires Lists(less, Written(w, events, clock).associations, detections, answer)
    requires LegalOrders(w, Replays(Written(w, events, clock).associations, detections, answer), orders)
    ensures var r := Exec(w, START, events);
            var copy := Rebuild(w, Replays(Written(w, events, clock).associations, detections, answer), orders);
            (Shadow(r.state, copy) <==> OpenersAgree(r.log, 0)) && Unlatched(copy)
  {
    AssociationsAreTheLog(w, events, clock);
    EmptyIsBooted(w);
    WrittenRowsFromLog(Exec(w, START, events).log, TimesOf(w, events, clock));
    RestartRebuilds(w, START, events, less, Written(w, events, clock).associations, detections, answer, orders);
  }

  lemma {:induction false} RestoreKeepsPoints(w: World, s: State, id: string, p: Point, order: seq<string>)
    requires id in s.tracks && forall o :: o in order ==> o in s.tracks
    ensures forall a :: a in s.tracks ==> RestorePairs(w, s, id, p, order).tracks[a].points == s.tracks[a].points
    decreases |order|
  {
    if order != [] {
      RestoreKeepsPoints(w, s, id, p, order[..|order| - 1]);
    }
  }

  lemma ReplayedPoints(w: World, s: State, x: Association, order: seq<string>)
    requires Enumerates(order, s.tracks.Keys + {x.id})
    ensures var y := Replay(w, s, x.id, x.d, order);
            && y.tracks.Keys == s.tracks.Keys + {x.id}
            && (forall a :: a in s.tracks && a != x.id ==> y.tracks[a].points == s.tracks[a].points)
            && y.tracks[x.id].points == Keep((if x.id in s.tracks then s.tracks[x.id].points else []) + [PointOf(x.d)])
  {
    RestoreKeepsPoints(w, StepZones(w, Absorb(Pinned(s, x.id, x.d), x.id, x.d), x.id, PointOf(x.d)), x.id, PointOf(x.d), order);
  }

  ghost predicate PointsMean(s: State, log: seq<Association>, id: string) {
    && (id in s.tracks <==> History(log, id) != [])
    && (id in s.tracks ==> s.tracks[id].points == Keep(PointsOf(History(log, id))))
  }

  lemma PointsStep(s: State, y: State, log: seq<Association>, x: Association, id: string)
    requires PointsMean(s, log, id) && y.tracks.Keys == s.tracks.Keys + {x.id}
    requires id in s.tracks && id != x.id ==> y.tracks[id].points == s.tracks[id].points
    requires y.tracks[x.id].points == Keep((if x.id in s.tracks then s.tracks[x.id].points else []) + [PointOf(x.d)])
    ensures PointsMean(y, log + [x], id)
  {
    HistoryGrows(log, x, id);
    var h := History(log, id);
    if id == x.id {
      assert PointsOf(h + [x.d]) == PointsOf(h) + [PointOf(x.d)];
      KeepGrows(PointsOf(h), PointOf(x.d));
    } else {
      assert h + [] == h;
    }
  }

  lemma NoPointsYet(w: World, id: string)
    ensures PointsMean(Rebuild(w, [], []), [], id)
  {
  }

  lemma ReplayMeansPoints(w: World, s: State, log: seq<Association>, x: Association, order: seq<string>, id: string)
    requires Enumerates(order, s.tracks.Keys + {x.id}) && PointsMean(s, log, id)
    ensures PointsMean(Replay(w, s, x.id, x.d, order), log + [x], id)
  {
    hide *;
    ReplayedPoints(w, s, x, order);
    PointsStep(s, Replay(w, s, x.id, x.d, order), log, x, id);
  }

  /** A rebuilt track holds the newest points of its history, in the order of the replay. */
  lemma {:induction false} RebuiltPoints(w: World, log: seq<Association>, orders: seq<seq<string>>, id: string)
    requires LegalOrders(w, log, orders)
    ensures PointsMean(Rebuild(w, log, orders), log, id)
    decreases |log|
  {
    hide *;
    OrdersMatch(w, log, orders);
    if log == [] {
      NoPointsYet(w, id);
    } else {
      var n := |log| - 1;
      var front, before, x := log[..n], orders[..n], log[n];
      RebuildUnfolds(w, log, orders);
      RebuiltPoints(w, front, before, id);
      ReplayMeansPoints(w, Rebuild(w, front, before), front, x, orders[n], id);
      assert log == front + [x];
    }
  }

  /** Conversely the startup rebuilds the state only if it replays the detections of each track in the order they were fused. */
  lemma RebuiltOnlyInOrder(w: World, start: Run, events: seq<FusionRuns.Event>, replayed: seq<Association>, orders: seq<seq<string>>, id: string)
    requires Booted(w, start) && Legal(w, start, events) && LegalOrders(w, replayed, orders)
    requires Shadow(Exec(w, start, events).state, Rebuild(w, replayed, orders))
    ensures Keep(PointsOf(History(Exec(w, start, events).log, id))) == Keep(PointsOf(History(replayed, id)))
  {
    var r, c := Exec(w, start, events), Rebuild(w, replayed, orders);
    StateMeansHistory(w, start, events);
    RebuiltPoints(w, replayed, orders, id);
    assert Tracked(w, r.state, r.log, id);
    HistoryEnds(r.log, id);
    if id in r.state.tracks {
      assert Shadows(r.state.tracks[id], c.tracks[id]);
    } else {
      assert id !in c.tracks && PointsOf([]) == [];
    }
  }

  // Two radar reports of one vessel, of which the older one arrives last.
  function Contact(event: string, at: int): Detection {
    Detection("radar", event, RF, Unclassified, at, true, Geo.Position(0.0, 0.0), "", None, [], true)
  }

  const LATE := [Association("a", Contact("1", 2)), Association("a", Contact("2", 1))]

  const LATE_EVENTS := [Report(LATE[0].d, Choice("a", [], ["a"], 1)), Report(LATE[1].d, Choice("b", ["a"], ["a"], 1))]

  lemma LateRun()
    ensures Accepted(LATE[0].d) && Accepted(LATE[1].d) && Legal(CALM, START, LATE_EVENTS) && Exec(CALM, START, LATE_EVENTS).log == LATE
  {
    TwoReports(LATE[0].d, LATE[1].d);
  }

  lemma LateListing(
      less: (string, string) -> bool, rows: map<Key, AssociationRow>, detections: map<Key, Detection>, answer: seq<Key>)
    requires StrictOrder(less) && RowsFromLog(rows, LATE) && Lists(less, rows, detections, answer)
    requires Kept(rows, detections, LATE[0]) && Kept(rows, detections, LATE[1])
    ensures answer == [("radar", "2"), ("radar", "1")] && Replays(rows, detections, answer) == [LATE[1], LATE[0]]
  {
    var one, two := ("radar", "1"), ("radar", "2");
    assert KeyOf(LATE[0].d) == one && KeyOf(LATE[1].d) == two;
    assert FromLog(rows, LATE, one) && FromLog(rows, LATE, two);
    assert Ahead(less, rows, two, one);
    forall k ensures k in answer <==> k in [two, one] {
      if k in rows {
        assert FromLog(rows, LATE, k);
      }
    }
    ListingIsUnique(less, rows, answer, [two, one]);
  }

  /** A report that arrives late is replayed early, and the rebuilt track ends with another point. */
  lemma LateReportIsReordered(
      less: (string, string) -> bool, rows: map<Key, AssociationRow>, detections: map<Key, Detection>, answer: seq<Key>, orders: seq<seq<string>>)
    requires StrictOrder(less) && RowsFromLog(rows, LATE) && Lists(less, rows, detections, answer)
    requires Kept(rows, detections, LATE[0]) && Kept(rows, detections, LATE[1])
    requires LegalOrders(CALM, Replays(rows, detections, answer), orders)
    ensures Legal(CALM, START, LATE_EVENTS) && Exec(CALM, START, LATE_EVENTS).log == LATE
    ensures !Shadow(Exec(CALM, START, LATE_EVENTS).state, Rebuild(CALM, Replays(rows, detections, answer), orders))
  {
    LateRun();
    LateListing(less, rows, detections, answer);
    HistoryOfTwo(LATE[0], LATE[1]);
    HistoryOfTwo(LATE[1], LATE[0]);
    assert LATE == [LATE[0], LATE[1]];
    assert PointsOf([LATE[0].d, LATE[1].d])[0] != PointsOf([LATE[1].d, LATE[0].d])[0];
    hide *;
    if Shadow(Exec(CALM, START, LATE_EVENTS).state, Rebuild(CALM, Replays(rows, detections, answer), orders)) {
      EmptyIsBooted(CALM);
      RebuiltOnlyInOrder(CALM, START, LATE_EVENTS, Replays(rows, detections, answer), orders, "a");
      TwoAreKept(LATE[0].d, LATE[1].d);
      TwoAreKept(LATE[1].d, LATE[0].d);
    }
  }

  lemma TwoAreKept(a: Detection, b: Detection)
    ensures Keep(PointsOf([a, b])) == PointsOf([a, b])
  {
  }

  lemma HistoryOfTwo(x: Association, y: Association)
    requires x.id == y.id
    ensures History([x, y], x.id) == [x.d, y.d]
  {
    HistoryGrows([x], y, x.id);
    HistoryGrows([], x, x.id);
    assert [x] + [y] == [x, y] && [] + [x] == [x] && [] + [x.d] == [x.d] && [x.d] + [y.d] == [x.d, y.d];
  }
}
