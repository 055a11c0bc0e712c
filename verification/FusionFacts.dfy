/** What points, labels and alerts carry, field by field, whatever functions compute them. */
module FusionFacts {
  import opened Base
  import opened Classification
  import opened FusionModel
  import opened FusionRuns
  import opened FusionReplay
  import opened FusionRestart
  import opened FusionHistory
  import opened FusionMeaning
  import opened FusionAlerts
  import Geo

  // ---------------------------------------------------------------------------
  // Detections
  // ---------------------------------------------------------------------------

  /** Nine digits. */
  predicate NineDigits(s: string) {
    |s| == 9 && forall i :: 0 <= i < 9 ==> 48 <= s[i] as int <= 57
  }

  /** What a detection must have to be ingested or replayed. */
  lemma AcceptedExactly(d: Detection)
    ensures Accepted(d) <==>
              && d.fieldsValid && d.level in {Unclassified, Restricted, Confidential, Secret} && d.observedAt != 0
              && d.hasPosition && -90.0 <= d.position.lat <= 90.0 && -180.0 <= d.position.lon <= 180.0
              && (d.mmsi == "" || NineDigits(d.mmsi))
              && match d.ais
                 case None => d.modality != AIS
                 case Some(report) => d.modality == AIS && NineDigits(report.mmsi)
  {
  }

  /** A persisted identity is replayed with one to 128 characters that are not all white space. */
  lemma ReplayableExactly(id: string)
    ensures ReplayableID(id) <==> |id| <= 128 && exists i :: 0 <= i < |id| && !IsSpace(id[i])
  {
    if !Blank(id) {
      var i :| 0 <= i < |id| && !IsSpace(id[i]);
    }
  }

  // ---------------------------------------------------------------------------
  // Points
  // ---------------------------------------------------------------------------

  /** The point is that of the detection. */
  predicate Shows(p: Point, d: Detection) {
    && p.sourceID == d.sourceID && p.sourceEventID == d.sourceEventID && p.modality == d.modality
    && p.observedAt == d.observedAt && p.position == d.position
    && p.speedKnots == (if d.ais.Some? then d.ais.value.speedKnots else 0.0)
    && p.headingDeg == (if d.ais.Some? then d.ais.value.headingDeg else 0.0)
  }

  lemma KeptPoints(h: seq<Detection>)
    ensures var points := Keep(PointsOf(h));
            && |points| == (if |h| > 4096 then 4096 else |h|)
            && forall i :: 0 <= i < |points| ==> Shows(points[i], h[|h| - |points| + i])
  {
  }

  /** In every run a track holds the points of its last 4096 detections, in the order they were fused. */
  lemma PointsAreReports(w: World, start: Run, events: seq<Event>, id: string)
    requires Booted(w, start) && Legal(w, start, events) && id in Exec(w, start, events).state.tracks
    ensures var r := Exec(w, start, events);
            var h, points := History(r.log, id), r.state.tracks[id].points;
            && |points| == (if |h| > 4096 then 4096 else |h|)
            && forall i :: 0 <= i < |points| ==> Shows(points[i], h[|h| - |points| + i])
  {
    hide *;
    LoiteringClock(w, start, events, id, "");
    KeptPoints(History(Exec(w, start, events).log, id));
  }

  // ---------------------------------------------------------------------------
  // Labels
  // ---------------------------------------------------------------------------

  lemma TurnCovers(w: World, s: State, y: Outcome, id: string, p: Point, done: set<string>, o: string, now: int, d: Detection, clearance: Label)
    requires id in s.tracks && done <= s.tracks.Keys && o in s.tracks && o !in done && Turned(w, s, y.state, id, p, done)
    requires Known(s.tracks[o].level) && Known(y.state.tracks[id].level)
    ensures Covers(clearance, EvaluatePair(w, y, id, p, o, now, d).state.tracks[id].level) <==>
              Covers(clearance, y.state.tracks[id].level) && (Meets(w, s, id, p, o) ==> Covers(clearance, s.tracks[o].level))
  {
    if Compares(s, id, o) {
      assert y.state.tracks[o] == s.tracks[o];
      assert Since(y.state.tracks[id], id, s.tracks[o], o, p) == Since(s.tracks[id], id, s.tracks[o], o, p);
      assert Meets(w, y.state, id, p, o) == Meets(w, s, id, p, o);
      MaxIsLeastUpperBound(clearance, y.state.tracks[id].level, s.tracks[o].level);
    }
    PairCases(w, y, id, p, o, now, d);
    hide EvaluatePair, Near, Since, Covers, Max, TurnedSelf, TurnedOthers;
  }

  /** The tracks met in the turns of the list are all readable. */
  ghost predicate MetReadable(w: World, s: State, id: string, p: Point, order: seq<string>, clearance: Label)
    requires id in s.tracks && forall o :: o in order ==> o in s.tracks
  {
    forall o :: o in order && Meets(w, s, id, p, o) ==> Covers(clearance, s.tracks[o].level)
  }

  lemma {:induction false} PairsCover(w: World, x: Outcome, id: string, p: Point, order: seq<string>, now: int, d: Detection, clearance: Label)
    requires id in x.state.tracks && SetOf(order) <= x.state.tracks.Keys && (forall o :: o in order ==> o in x.state.tracks)
    requires forall i, j :: 0 <= i < j < |order| ==> order[i] != order[j]
    requires forall a :: a in x.state.tracks ==> Known(x.state.tracks[a].level)
    ensures Covers(clearance, EvaluatePairs(w, x, id, p, order, now, d).state.tracks[id].level) <==>
              Covers(clearance, x.state.tracks[id].level) && MetReadable(w, x.state, id, p, order, clearance)
    decreases |order|
  {
    hide Covers, Meets, TurnedSelf, TurnedOthers, EvaluatePair;
    if order != [] {
      var front, o := order[..|order| - 1], order[|order| - 1];
      assert SetOf(front) <= x.state.tracks.Keys && o !in SetOf(front);
      PairsCover(w, x, id, p, front, now, d, clearance);
      PairLoop(w, x, id, p, front, now, d);
      PairsKeepLabelsKnown(w, x, id, p, front, now, d);
      TurnCovers(w, x.state, EvaluatePairs(w, x, id, p, front, now, d), id, p, SetOf(front), o, now, d, clearance);
      assert forall a :: a in order <==> a in front || a == o;
    }
  }

  lemma LabelsOfIngest(w: World, s: State, d: Detection, c: Choice, clearance: Label)
    requires Inv(s) && Accepted(d) && LegalChoice(w, s, d, c)
    ensures TargetOf(w, s, d, c) in Placed(w, s, d, c).tracks
    ensures var id, y, x := TargetOf(w, s, d, c), BeforePairs(w, s, d, c), Ingest(w, s, d, c).state;
            && id in x.tracks && id in y.tracks && (forall o :: o in c.pairOrder ==> o in y.tracks)
            && (Covers(clearance, x.tracks[id].level) <==>
                  && Covers(clearance, d.level) && (id in s.tracks ==> Covers(clearance, s.tracks[id].level))
                  && MetReadable(w, y, id, PointOf(d), c.pairOrder, clearance))
  {
    BeforePairsEffect(w, s, d, c);
    var id, y := TargetOf(w, s, d, c), BeforePairs(w, s, d, c);
    EnumerationIsSet(c.pairOrder, y.tracks.Keys);
    AbsorbedLevel(Before(s, id, d), d);
    MaxIsLeastUpperBound(clearance, Before(s, id, d).level, d.level);
    PairsCover(w, EvaluateAlone(w, Absorb(Placed(w, s, d, c), id, d), id, PointOf(d), c.now, d), id, PointOf(d), c.pairOrder, c.now, d, clearance);
    hide MetReadable, Covers, Max, AbsorbTrack, Accepted;
  }

  lemma AbsorbedLevel(t: TrackState, d: Detection)
    ensures AbsorbTrack(t, d).level == Max(t.level, d.level)
  {
  }

  /** The new alerts of the longer run. */
  function NewAlerts(r: Run, r': Run): seq<Anomaly>
    requires |r.alerts| <= |r'.alerts|
  {
    r'.alerts[|r.alerts|..]
  }

  lemma MeetingIsRaised(w: World, s: State, d: Detection, c: Choice, o: string)
    requires Inv(s) && Accepted(d) && LegalChoice(w, s, d, c) && o != TargetOf(w, s, d, c)
    ensures TargetOf(w, s, d, c) in Placed(w, s, d, c).tracks
    ensures var id, y := TargetOf(w, s, d, c), BeforePairs(w, s, d, c);
            && id in y.tracks
            && ((o in y.tracks && Meets(w, y, id, PointOf(d), o)) <==> Tally(Ingest(w, s, d, c).alerts, Pair(id, o)) > 0)
  {
    IngestTally(w, s, d, c, Pair(TargetOf(w, s, d, c), o));
    MetInPair(w, BeforePairs(w, s, d, c), TargetOf(w, s, d, c), PointOf(d), o, Pair(TargetOf(w, s, d, c), o));
    hide Inv, Accepted, Ingest, MetIn, Meets, BeforePairs, Tally;
  }

  /** The tracks a report raises a rendezvous alert with are readable. */
  ghost predicate PartnersReadable(s: State, id: string, alerts: seq<Anomaly>, clearance: Label) {
    forall o :: o in s.tracks && o != id && Tally(alerts, Pair(id, o)) > 0 ==> Covers(clearance, s.tracks[o].level)
  }

  lemma PartnersAreMet(w: World, s: State, d: Detection, c: Choice, clearance: Label)
    requires Inv(s) && Accepted(d) && LegalChoice(w, s, d, c)
    ensures TargetOf(w, s, d, c) in Placed(w, s, d, c).tracks
    ensures var id, y := TargetOf(w, s, d, c), BeforePairs(w, s, d, c);
            && id in y.tracks && (forall o :: o in c.pairOrder ==> o in y.tracks)
            && (MetReadable(w, y, id, PointOf(d), c.pairOrder, clearance) <==> PartnersReadable(s, id, Ingest(w, s, d, c).alerts, clearance))
  {
    BeforePairsEffect(w, s, d, c);
    var id, y, p := TargetOf(w, s, d, c), BeforePairs(w, s, d, c), PointOf(d);
    EnumerationIsSet(c.pairOrder, y.tracks.Keys);
    assert forall o :: o in c.pairOrder <==> o in y.tracks;
    assert !Meets(w, y, id, p, id);
    hide Meets, Ingest, Tally, Inv, Accepted, BeforePairs, LegalChoice, Covers;
    forall o | o != id ensures (o in y.tracks && Meets(w, y, id, p, o)) <==> Tally(Ingest(w, s, d, c).alerts, Pair(id, o)) > 0 {
      MeetingIsRaised(w, s, d, c, o);
    }
  }

  /**
    The label of a track after a report to it: who may read it are exactly those who may read what it
    was before, the detection, and every track the report raises a rendezvous alert with. The other
    tracks keep theirs.
   */
  lemma LabelAfterReport(w: World, start: Run, events: seq<Event>, d: Detection, c: Choice, clearance: Label)
    requires Booted(w, start) && Legal(w, start, events + [Report(d, c)]) && Accepted(d)
    ensures var r, r' := Exec(w, start, events), Exec(w, start, events + [Report(d, c)]);
            && |r'.log| == |r.log| + 1 && |r.alerts| <= |r'.alerts|
            && var id := r'.log[|r.log|].id;
               && id in r'.state.tracks
               && (Covers(clearance, r'.state.tracks[id].level) <==>
                     && Covers(clearance, d.level) && (id in r.state.tracks ==> Covers(clearance, r.state.tracks[id].level))
                     && PartnersReadable(r.state, id, NewAlerts(r, r'), clearance))
               && forall o :: o in r.state.tracks && o != id ==> o in r'.state.tracks && r'.state.tracks[o].level == r.state.tracks[o].level
  {
    OneReport(w, start, events, d, c);
    var r, r' := Exec(w, start, events), Exec(w, start, events + [Report(d, c)]);
    LabelsOfIngest(w, r.state, d, c, clearance);
    PartnersAreMet(w, r.state, d, c, clearance);
    IngestReported(w, r.state, d, c);
    hide Exec, Legal, Booted, Ingest, Inv, Accepted, LegalChoice, MetReadable, PartnersReadable, Covers, TargetOf, Placed, BeforePairs;
    assert NewAlerts(r, r') == Ingest(w, r.state, d, c).alerts;
  }

  // ---------------------------------------------------------------------------
  // Alerts
  // ---------------------------------------------------------------------------

  /** The alert of a report d to track id, taken at that time, as to everything but its label. */
  ghost predicate RaisedBy(a: Anomaly, id: string, now: int, d: Detection) {
    && a.owner == id && a.detectedAt == now && a.correlationRefs == d.correlationRefs
    && match a.kind
       case SpeedOutlier => a.trackIDs == [id] && a.zoneID == ""
       case Loitering => a.trackIDs == [id]
       case Rendezvous => |a.trackIDs| == 2 && a.trackIDs[0] == id && a.trackIDs[1] != id && a.zoneID == ""
       case DarkVessel => false
  }

  /** Speed and loitering alerts carry the label the track had before its meetings, a rendezvous alert none above the label after them. */
  ghost predicate LabelFits(a: Anomaly, before: Label, after: Label) {
    if a.kind == Rendezvous then Rank(before) <= Rank(a.level) <= Rank(after) else a.level == before
  }

  ghost predicate AllFit(alerts: seq<Anomaly>, id: string, now: int, d: Detection, before: Label, after: Label) {
    forall i :: 0 <= i < |alerts| ==> RaisedBy(alerts[i], id, now, d) && LabelFits(alerts[i], before, after)
  }

  lemma {:induction false} LoiterAlertsFit(t: TrackState, id: string, zones: seq<string>, now: int, d: Detection)
    ensures AllFit(LoiterAlerts(t, id, zones, now, d), id, now, d, t.level, t.level)
    decreases |zones|
  {
    if zones != [] {
      LoiterAlertsFit(t, id, zones[..|zones| - 1], now, d);
      assert [id] + [] == [id];
    }
  }

  lemma AloneAlertsFit(w: World, z: State, id: string, p: Point, now: int, d: Detection)
    requires id in z.tracks
    ensures AllFit(EvaluateAlone(w, z, id, p, now, d).alerts, id, now, d, z.tracks[id].level, z.tracks[id].level)
  {
    LoiterAlertsFit(z.tracks[id], id, LoiteringZones(w, z.tracks[id], p, w.zones), now, d);
    assert [id] + [] == [id];
    hide TooFast, LoiteringZones, LoiterAlerts;
  }

  lemma TurnAlertsFit(w: World, y: Outcome, id: string, p: Point, o: string, now: int, d: Detection, before: Label)
    requires id in y.state.tracks && o in y.state.tracks
    requires AllFit(y.alerts, id, now, d, before, y.state.tracks[id].level) && Rank(before) <= Rank(y.state.tracks[id].level)
    ensures var x := EvaluatePair(w, y, id, p, o, now, d);
            AllFit(x.alerts, id, now, d, before, x.state.tracks[id].level) && Rank(before) <= Rank(x.state.tracks[id].level)
  {
    PairCases(w, y, id, p, o, now, d);
    hide EvaluatePair, Near, Since, Meets;
  }

  lemma {:induction false} PairAlertsFit(w: World, x: Outcome, id: string, p: Point, order: seq<string>, now: int, d: Detection, before: Label)
    requires id in x.state.tracks && forall o :: o in order ==> o in x.state.tracks
    requires AllFit(x.alerts, id, now, d, before, x.state.tracks[id].level) && Rank(before) <= Rank(x.state.tracks[id].level)
    ensures var z := EvaluatePairs(w, x, id, p, order, now, d);
            AllFit(z.alerts, id, now, d, before, z.state.tracks[id].level) && Rank(before) <= Rank(z.state.tracks[id].level)
    decreases |order|
  {
    if order != [] {
      PairAlertsFit(w, x, id, p, order[..|order| - 1], now, d, before);
      TurnAlertsFit(w, EvaluatePairs(w, x, id, p, order[..|order| - 1], now, d), id, p, order[|order| - 1], now, d, before);
      hide AllFit, EvaluatePair;
    }
  }

  lemma IngestAlertsFit(w: World, s: State, d: Detection, c: Choice)
    requires Inv(s) && Accepted(d) && LegalChoice(w, s, d, c)
    ensures TargetOf(w, s, d, c) in Placed(w, s, d, c).tracks
    ensures var id, x := TargetOf(w, s, d, c), Ingest(w, s, d, c);
            id in x.state.tracks
            && AllFit(x.alerts, id, c.now, d, Max(if id in s.tracks then s.tracks[id].level else d.level, d.level), x.state.tracks[id].level)
  {
    BeforePairsEffect(w, s, d, c);
    var id := TargetOf(w, s, d, c);
    var z := Absorb(Placed(w, s, d, c), id, d);
    AbsorbedLevel(Before(s, id, d), d);
    AloneAlertsFit(w, z, id, PointOf(d), c.now, d);
    PairAlertsFit(w, EvaluateAlone(w, z, id, PointOf(d), c.now, d), id, PointOf(d), c.pairOrder, c.now, d, z.tracks[id].level);
    hide AllFit, Accepted, Inv, Max, AbsorbTrack;
  }

  /** What every alert of a report says: its kind's tracks, the instant and the correlation references, and a label between those of the track. */
  lemma AlertsOfReport(w: World, start: Run, events: seq<Event>, d: Detection, c: Choice, i: int)
    requires Booted(w, start) && Legal(w, start, events + [Report(d, c)]) && Accepted(d)
    ensures var r, r' := Exec(w, start, events), Exec(w, start, events + [Report(d, c)]);
            && |r'.log| == |r.log| + 1
            && (|r.alerts| <= i < |r'.alerts| ==>
                  var id := r'.log[|r.log|].id;
                  && id in r'.state.tracks && RaisedBy(r'.alerts[i], id, c.now, d)
                  && LabelFits(r'.alerts[i], Max(if id in r.state.tracks then r.state.tracks[id].level else d.level, d.level), r'.state.tracks[id].level))
  {
    OneReport(w, start, events, d, c);
    hide *;
    var r, r' := Exec(w, start, events), Exec(w, start, events + [Report(d, c)]);
    IngestAlertsFit(w, r.state, d, c);
    OneAlertFits(r, r', Ingest(w, r.state, d, c).alerts, i, TargetOf(w, r.state, d, c), c.now, d,
      Max(if TargetOf(w, r.state, d, c) in r.state.tracks then r.state.tracks[TargetOf(w, r.state, d, c)].level else d.level, d.level),
      r'.state.tracks[TargetOf(w, r.state, d, c)].level);
  }

  lemma OneAlertFits(r: Run, r': Run, raised: seq<Anomaly>, i: int, id: string, now: int, d: Detection, before: Label, after: Label)
    requires r'.alerts == r.alerts + raised && AllFit(raised, id, now, d, before, after)
    ensures |r.alerts| <= i < |r'.alerts| ==> RaisedBy(r'.alerts[i], id, now, d) && LabelFits(r'.alerts[i], before, after)
  {
    hide RaisedBy, LabelFits;
    if |r.alerts| <= i < |r'.alerts| {
      assert r'.alerts[i] == raised[i - |r.alerts|];
    }
  }

  /** The first zone of the list the position lies in. */
  ghost predicate FirstInside(zones: seq<Geo.Zone>, p: Geo.Position, z: string) {
    exists k :: 0 <= k < |zones| && zones[k].id == z && Geo.Inside(p, zones[k].vertices) && forall j :: 0 <= j < k ==> !Geo.Inside(p, zones[j].vertices)
  }

  lemma {:induction false} FirstContaining(p: Geo.Position, zones: seq<Geo.Zone>)
    requires Geo.Containing(p, zones) != []
    ensures FirstInside(zones, p, Geo.Containing(p, zones)[0].id)
    decreases |zones|
  {
    hide Geo.Inside;
    var front, n := zones[..|zones| - 1], |zones| - 1;
    if Geo.Containing(p, front) != [] {
      FirstContaining(p, front);
      var k :| 0 <= k < |front| && front[k].id == Geo.Containing(p, front)[0].id && Geo.Inside(p, front[k].vertices)
               && forall j :: 0 <= j < k ==> !Geo.Inside(p, front[j].vertices);
      assert zones[k] == front[k] && forall j :: 0 <= j < k ==> zones[j] == front[j];
    } else {
      InsideSome(p, front);
      forall j | 0 <= j < n ensures !Geo.Inside(p, zones[j].vertices) {
        assert zones[j] == front[j];
      }
      assert zones[n].id == Geo.Containing(p, zones)[0].id && Geo.Inside(p, zones[n].vertices);
    }
  }

  /** What every alert of a scan says. */
  ghost predicate RaisedByScan(w: World, s: State, a: Anomaly, now: int) {
    && a.kind == DarkVessel && a.owner in s.tracks && a.trackIDs == [a.owner] && a.detectedAt == now && a.correlationRefs == []
    && s.tracks[a.owner].points != [] && FirstInside(w.zones, Last(s.tracks[a.owner]).position, a.zoneID)
    && a.level == s.tracks[a.owner].level
  }

  lemma {:induction false} ScanAlertsFit(w: World, s: State, order: seq<string>, now: int, i: int)
    requires (forall id :: id in order ==> id in s.tracks) && (forall j, k :: 0 <= j < k < |order| ==> order[j] != order[k])
    requires 0 <= i < |Scan(w, s, order, now).alerts|
    ensures RaisedByScan(w, s, Scan(w, s, order, now).alerts[i], now)
    decreases |order|
  {
    var front, id := order[..|order| - 1], order[|order| - 1];
    var x := Scan(w, s, front, now);
    ScanEffect(w, s, front, now);
    if i < |x.alerts| {
      ScanAlertsFit(w, s, front, now, i);
    } else {
      assert x.state.tracks[id] == s.tracks[id];
      FirstContaining(Last(s.tracks[id]).position, w.zones);
    }
    hide RaisedByScan, Scanned, DarkFindings;
    assert i < |x.alerts| ==> Scan(w, s, order, now).alerts[i] == x.alerts[i];
  }
}
