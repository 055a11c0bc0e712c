/** Alerts that are raised but can never be stored: those of a kind a report has raised before. */
module LostAlerts {
  import opened Base
  import opened Classification
  import opened FusionModel
  import opened FusionRuns
  import opened FusionReplay
  import opened FusionIdentity
  import opened FusionAlerts
  import opened TrackStore
  import opened TrackWrites
  import Geo
  import GeoLaws

  // ---------------------------------------------------------------------------
  // Counting over a run
  // ---------------------------------------------------------------------------

  lemma {:induction false} TallyAt(alerts: seq<Anomaly>, i: int, f: Subject)
    requires 0 <= i < |alerts| && About(alerts[i], f)
    ensures Tally(alerts, f) >= 1
    decreases |alerts|
  {
    if i < |alerts| - 1 {
      TallyAt(alerts[..|alerts| - 1], i, f);
    }
  }

  lemma {:induction false} TallyTwice(alerts: seq<Anomaly>, i: int, j: int, f: Subject)
    requires 0 <= i < j < |alerts| && About(alerts[i], f) && About(alerts[j], f)
    ensures Tally(alerts, f) >= 2
    decreases |alerts|
  {
    if j < |alerts| - 1 {
      TallyTwice(alerts[..|alerts| - 1], i, j, f);
    } else {
      TallyAt(alerts[..|alerts| - 1], i, f);
    }
  }

  lemma TallyStep(w: World, events: seq<FusionRuns.Event>, k: nat, f: Subject)
    requires Legal(w, START, events) && k < |events|
    ensures Tally(RunAt(w, events, k + 1).alerts, f) == Tally(RunAt(w, events, k).alerts, f) + Tally(EffectAt(w, events, k).out.alerts, f)
  {
    OneMoreEvent(w, events, k);
    TallyConcat(RunAt(w, events, k).alerts, EffectAt(w, events, k).out.alerts, f);
  }

  lemma {:induction false} TallyGrows(w: World, events: seq<FusionRuns.Event>, m: nat, n: nat, f: Subject)
    requires Legal(w, START, events) && m <= n <= |events|
    ensures Tally(RunAt(w, events, m).alerts, f) <= Tally(RunAt(w, events, n).alerts, f)
    decreases n
  {
    hide *;
    if m < n {
      TallyGrows(w, events, m, n - 1, f);
      TallyStep(w, events, n - 1, f);
    }
  }

  lemma NotRaisedAgain(w: World, events: seq<FusionRuns.Event>, j: nat, i: int, k: nat, l: int, f: Subject)
    requires w.config.Validate() && Legal(w, START, events) && (f.Pair? ==> f.a != f.b) && j < k < |events|
    requires 0 <= i < |EffectAt(w, events, j).out.alerts| && About(EffectAt(w, events, j).out.alerts[i], f)
    requires 0 <= l < |EffectAt(w, events, k).out.alerts|
    ensures !About(EffectAt(w, events, k).out.alerts[l], f)
  {
    TallyAt(EffectAt(w, events, j).out.alerts, i, f);
    TallyStep(w, events, j, f);
    TallyGrows(w, events, j + 1, k, f);
    AtMostOneBy(w, events, k, f);
    if About(EffectAt(w, events, k).out.alerts[l], f) {
      TallyAt(EffectAt(w, events, k).out.alerts, l, f);
    }
  }

  /** No two alerts of a run are about the same stay or contact. */
  lemma RaisedOnce(w: World, events: seq<FusionRuns.Event>, j: nat, i: int, k: nat, l: int, f: Subject)
    requires w.config.Validate() && Legal(w, START, events) && (f.Pair? ==> f.a != f.b)
    requires j < |events| && 0 <= i < |EffectAt(w, events, j).out.alerts| && About(EffectAt(w, events, j).out.alerts[i], f)
    requires k < |events| && 0 <= l < |EffectAt(w, events, k).out.alerts| && About(EffectAt(w, events, k).out.alerts[l], f)
    ensures j == k && i == l
  {
    if j == k && i != l {
      TallyTwice(EffectAt(w, events, j).out.alerts, if i < l then i else l, if i < l then l else i, f);
      AtMostOneBy(w, events, j, f);
    } else if j < k {
      NotRaisedAgain(w, events, j, i, k, l, f);
    } else if k < j {
      NotRaisedAgain(w, events, k, l, j, i, f);
    }
  }

  lemma AtMostOneBy(w: World, events: seq<FusionRuns.Event>, k: nat, f: Subject)
    requires w.config.Validate() && Legal(w, START, events) && (f.Pair? ==> f.a != f.b) && k < |events|
    ensures Tally(RunAt(w, events, k).alerts, f) + Tally(EffectAt(w, events, k).out.alerts, f) <= 1
  {
    PrefixIsLegal(w, START, events, k + 1);
    TallyStep(w, events, k, f);
    EmptyIsBooted(w);
    AlertsAtMostOnce(w, START, events[..k + 1], f);
    hide Legal, Tally, EffectAt, Exec, Latched;
  }

  // ---------------------------------------------------------------------------
  // The second alert of a kind
  // ---------------------------------------------------------------------------

  /**
    When one report raises two alerts of one kind, the later one is lost for good: whatever requests
    overlap and however the engine runs on, no row is ever stored for its stay or contact, because the
    latch it set keeps it from being raised again.
   */
  lemma SecondAlertIsLost(w: World, actions: seq<Action>, k: nat, i: int, j: int, f: Subject, key: AnomalyID)
    requires w.config.Validate() && Runs(w, NOTHING, actions) && (f.Pair? ==> f.a != f.b)
    requires k < |Reached(w, NOTHING, actions).events|
    requires var alerts := EffectAt(w, Reached(w, NOTHING, actions).events, k).out.alerts;
             0 <= i < j < |alerts| && IDOf(alerts[i]) == IDOf(alerts[j]) && About(alerts[j], f)
    requires key in Reached(w, NOTHING, actions).t.anomalies
    ensures !About(Reached(w, NOTHING, actions).t.anomalies[key], f)
  {
    ReachableTables(w, actions);
    var s := Reached(w, NOTHING, actions);
    var k': nat, l: int :| StoredFor(w, s, k', l, key);
    if About(s.t.anomalies[key], f) {
      RaisedOnce(w, s.events, k', l, k, j, f);
    }
  }

  // ---------------------------------------------------------------------------
  // A vessel that loiters in two zones at once
  // ---------------------------------------------------------------------------

  const CORNER := Geo.Position(0.0, 0.0)
  const SMALL := Geo.Zone("small", Geo.RestrictedArea, [CORNER, Geo.Position(0.0, 1.0), Geo.Position(1.0, 1.0)])
  const LARGE := Geo.Zone("large", Geo.RestrictedArea, [CORNER, Geo.Position(0.0, 2.0), Geo.Position(2.0, 2.0)])
  const OVERLAP := CALM.(zones := [SMALL, LARGE])

  function StayAt(event: string, at: int): Detection {
    Detection("feed", event, AIS, Unclassified, at, true, CORNER, "111111111", Some(AisReport("111111111", 0.0, 0.0)), [], true)
  }

  const ARRIVES := FusionRuns.Report(StayAt("1", 1), Choice("a", [], ["a"], 1))
  const STAYS := FusionRuns.Report(StayAt("2", 1 + CALM.config.loiteringMin), Choice("b", ["a"], ["a"], 2))

  lemma ZonesAreValid()
    ensures OVERLAP.config.Validate() && forall k :: 0 <= k < |OVERLAP.zones| ==> Geo.ValidZone(OVERLAP.zones[k])
  {
    assert Geo.ZoneIdentifier("small") && Geo.ZoneIdentifier("large");
  }

  lemma CornerIsInside()
    ensures Geo.Inside(CORNER, SMALL.vertices) && Geo.Inside(CORNER, LARGE.vertices)
  {
    GeoLaws.BoundaryIsInside(SMALL.vertices, 0, 0.0);
    GeoLaws.BoundaryIsInside(LARGE.vertices, 0, 0.0);
  }

  lemma ClocksOfCorner(enter: map<string, int>, p: Point)
    requires p.position == CORNER
    ensures var clock := ZoneClock(OVERLAP, enter, p);
            clock.Keys == {"small", "large"} && forall z :: z in clock ==> clock[z] == if z in enter then enter[z] else p.observedAt
  {
    CornerIsInside();
    hide Geo.Inside;
    assert OVERLAP.zones[0] == SMALL && OVERLAP.zones[1] == LARGE;
    assert RestrictedAt(OVERLAP.zones, CORNER) == {"small", "large"};
  }

  lemma TwoZones(w: World, t: TrackState, p: Point, a: Geo.Zone, b: Geo.Zone)
    requires a.id != b.id
    ensures LoiteringZones(w, t, p, [a, b])
         == (if Loiters(w, t, p, a) then [a.id] else []) + (if Loiters(w, t, p, b) then [b.id] else [])
  {
    assert [a, b][..1] == [a] && [a][..0] == [];
    assert LoiteringZones(w, t, p, []) == [];
    assert LoiteringZones(w, t, p, [a]) == if Loiters(w, t, p, a) then [a.id] else [];
  }

  lemma ZonesThatAlert(t: TrackState, p: Point)
    requires p.position == CORNER && "small" !in t.loiterAlerted && "large" !in t.loiterAlerted
    ensures t.zoneEnter == map[] ==> LoiteringZones(OVERLAP, t, p, OVERLAP.zones) == []
    ensures "small" in t.zoneEnter && "large" in t.zoneEnter && p.observedAt == 1 + OVERLAP.config.loiteringMin
            && t.zoneEnter["small"] == 1 && t.zoneEnter["large"] == 1 ==>
              LoiteringZones(OVERLAP, t, p, OVERLAP.zones) == ["small", "large"]
  {
    CornerIsInside();
    hide Geo.Inside;
    TwoZones(OVERLAP, t, p, SMALL, LARGE);
  }

  // A report to the only track: no pairs.
  lemma LoneReport(w: World, s: State, d: Detection, c: Choice)
    requires LegalChoice(w, s, d, c) && TargetOf(w, s, d, c) in Placed(w, s, d, c).tracks && c.pairOrder == [TargetOf(w, s, d, c)]
    ensures var id := TargetOf(w, s, d, c);
            Ingest(w, s, d, c) == EvaluateAlone(w, Absorb(Placed(w, s, d, c), id, d), id, PointOf(d), c.now, d)
  {
    var id := TargetOf(w, s, d, c);
    LonePairLoop(w, EvaluateAlone(w, Absorb(Placed(w, s, d, c), id, d), id, PointOf(d), c.now, d), id, PointOf(d), c.now, d);
    hide EvaluatePairs;
  }

  lemma FirstIsFresh(d: Detection, c: Choice)
    requires d == ARRIVES.d && c == ARRIVES.choice
    ensures LegalChoice(OVERLAP, EMPTY, d, c) && TargetOf(OVERLAP, EMPTY, d, c) == "a" && Placed(OVERLAP, EMPTY, d, c) == AddTrack(EMPTY, "a", d)
  {
    assert !IsSpace("a"[0]);
    assert Placed(OVERLAP, EMPTY, d, c).tracks.Keys == {"a"};
  }

  // What such a report leaves of its track, and what it raises.
  lemma LoneEffect(w: World, s: State, id: string, d: Detection, now: int)
    requires id in s.tracks
    ensures var t := AbsorbTrack(s.tracks[id], d);
            var x := EvaluateAlone(w, Absorb(s, id, d), id, PointOf(d), now, d);
            && t.zoneEnter == s.tracks[id].zoneEnter && t.loiterAlerted == s.tracks[id].loiterAlerted
            && x.state.tracks.Keys == s.tracks.Keys && x.state.byMMSI == AbsorbIndex(s.byMMSI, s.tracks[id], id, d)
            && x.state.tracks[id].zoneEnter == ZoneClock(w, t.zoneEnter, PointOf(d))
            && x.state.tracks[id].loiterAlerted == t.loiterAlerted + SetOf(LoiteringZones(w, t, PointOf(d), w.zones))
            && x.alerts == SpeedAlerts(w, t, id, PointOf(d), now, d) + LoiterAlerts(t, id, LoiteringZones(w, t, PointOf(d), w.zones), now, d)
  {
  }

  lemma FreshTrack(d: Detection)
    requires d == ARRIVES.d
    ensures var s := AddTrack(EMPTY, "a", d);
            && s.tracks.Keys == {"a"} && s.tracks["a"].zoneEnter == map[] && s.tracks["a"].loiterAlerted == {}
            && AbsorbIndex(s.byMMSI, s.tracks["a"], "a", d) == map["111111111" := "a"]
  {
  }

  lemma FirstClocks()
    ensures ZoneClock(OVERLAP, map[], PointOf(ARRIVES.d)) == map["small" := 1, "large" := 1]
  {
    ClocksOfCorner(map[], PointOf(ARRIVES.d));
  }

  ghost predicate Waiting(s: State) {
    && s.tracks.Keys == {"a"} && s.byMMSI == map["111111111" := "a"]
    && s.tracks["a"].loiterAlerted == {} && s.tracks["a"].zoneEnter == map["small" := 1, "large" := 1]
  }

  /** After the first report both clocks run, and no latch is set. */
  lemma Arrived()
    ensures LegalChoice(OVERLAP, EMPTY, ARRIVES.d, ARRIVES.choice)
    ensures TargetOf(OVERLAP, EMPTY, ARRIVES.d, ARRIVES.choice) in Placed(OVERLAP, EMPTY, ARRIVES.d, ARRIVES.choice).tracks
    ensures Waiting(Ingest(OVERLAP, EMPTY, ARRIVES.d, ARRIVES.choice).state)
  {
    var d, c := ARRIVES.d, ARRIVES.choice;
    FirstIsFresh(d, c);
    FreshTrack(d);
    var s := AddTrack(EMPTY, "a", d);
    LoneReport(OVERLAP, EMPTY, d, c);
    LoneEffect(OVERLAP, s, "a", d, c.now);
    ZonesThatAlert(AbsorbTrack(s.tracks["a"], d), PointOf(d));
    FirstClocks();
    hide ZoneClock, LoiteringZones, LegalChoice, AddTrack, Placed, Ingest, TargetOf, EvaluateAlone, Absorb, AbsorbTrack, AbsorbIndex;
    assert SetOf([]) == {};
  }

  lemma SecondIsBound(s: State, d: Detection, c: Choice)
    requires Waiting(s) && d == STAYS.d && c == STAYS.choice
    ensures LegalChoice(OVERLAP, s, d, c) && TargetOf(OVERLAP, s, d, c) == "a" && Placed(OVERLAP, s, d, c) == s
  {
    assert !IsSpace("b"[0]);
  }

  /** Two loitering alerts, one for each zone, under one identity. */
  ghost predicate OneAfterTheOther(alerts: seq<Anomaly>, i: int) {
    && 0 <= i && i + 1 < |alerts| && IDOf(alerts[i]) == IDOf(alerts[i + 1])
    && About(alerts[i], Stay("a", "small")) && About(alerts[i + 1], Stay("a", "large"))
  }

  // The alerts of the second report: those on speed, then one for each zone.
  lemma StayAlerts(s: State)
    requires Waiting(s)
    ensures LegalChoice(OVERLAP, s, STAYS.d, STAYS.choice) && TargetOf(OVERLAP, s, STAYS.d, STAYS.choice) in Placed(OVERLAP, s, STAYS.d, STAYS.choice).tracks
    ensures var t := AbsorbTrack(s.tracks["a"], STAYS.d);
            Ingest(OVERLAP, s, STAYS.d, STAYS.choice).alerts
              == SpeedAlerts(OVERLAP, t, "a", PointOf(STAYS.d), 2, STAYS.d) + LoiterAlerts(t, "a", ["small", "large"], 2, STAYS.d)
  {
    var d, c := STAYS.d, STAYS.choice;
    SecondIsBound(s, d, c);
    LoneReport(OVERLAP, s, d, c);
    LoneEffect(OVERLAP, s, "a", d, c.now);
    ZonesThatAlert(AbsorbTrack(s.tracks["a"], d), PointOf(d));
    hide ZoneClock, LoiteringZones, LegalChoice, Placed, Ingest, TargetOf, EvaluateAlone, Absorb, AbsorbTrack, AbsorbIndex, SpeedAlerts, LoiterAlerts;
  }

  lemma BothRaised(s: State)
    requires Waiting(s)
    ensures LegalChoice(OVERLAP, s, STAYS.d, STAYS.choice) && TargetOf(OVERLAP, s, STAYS.d, STAYS.choice) in Placed(OVERLAP, s, STAYS.d, STAYS.choice).tracks
    ensures exists i :: OneAfterTheOther(Ingest(OVERLAP, s, STAYS.d, STAYS.choice).alerts, i)
  {
    StayAlerts(s);
    var t := AbsorbTrack(s.tracks["a"], STAYS.d);
    var speed, loitering := SpeedAlerts(OVERLAP, t, "a", PointOf(STAYS.d), 2, STAYS.d), LoiterAlerts(t, "a", ["small", "large"], 2, STAYS.d);
    LoiterShape(t, "a", ["small", "large"], 2, STAYS.d);
    LoiterAbout(t, "a", ["small", "large"], 2, STAYS.d);
    hide LegalChoice, Placed, Ingest, TargetOf, AbsorbTrack, SpeedAlerts, LoiterAlerts, IDOf, About;
    assert (speed + loitering)[|speed|] == loitering[0] && (speed + loitering)[|speed| + 1] == loitering[1];
    assert OneAfterTheOther(speed + loitering, |speed|);
  }

  lemma {:induction false} LoiterAbout(t: TrackState, id: string, zones: seq<string>, now: int, d: Detection)
    ensures var alerts := LoiterAlerts(t, id, zones, now, d);
            |alerts| == |zones| && forall i :: 0 <= i < |zones| ==> About(alerts[i], Stay(id, zones[i]))
    decreases |zones|
  {
    if zones != [] {
      LoiterAbout(t, id, zones[..|zones| - 1], now, d);
      assert [id] + [] == [id];
    }
  }

  lemma TwoEvents(w: World, e: FusionRuns.Event, f: FusionRuns.Event)
    requires LegalEvent(w, EMPTY, e) && LegalEvent(w, EffectOf(w, EMPTY, e).out.state, f)
    ensures Legal(w, START, [e, f]) && EffectAt(w, [e, f], 1) == EffectOf(w, EffectOf(w, EMPTY, e).out.state, f)
  {
    hide LegalEvent, EffectOf;
    var events := [e, f];
    assert events[..0] == [] && events[..1] == [e] && [e][..0] == [];
    assert Exec(w, START, []) == START;
    assert Legal(w, START, []) && Legal(w, START, [e]);
    assert Exec(w, START, [e]) == Step(w, START, e);
  }

  lemma EffectOfReport(w: World, s: State, e: FusionRuns.Event)
    requires e.Report? && Accepted(e.d) && LegalChoice(w, s, e.d, e.choice) && Indexed(s)
    requires TargetOf(w, s, e.d, e.choice) in Placed(w, s, e.d, e.choice).tracks
    ensures LegalEvent(w, s, e) && EffectOf(w, s, e).out == Ingest(w, s, e.d, e.choice)
  {
    hide Accepted, LegalChoice, Ingest;
  }

  /** The two reports are legal, and the second raises one alert for each zone. */
  lemma RunOfTwo()
    ensures Legal(OVERLAP, START, [ARRIVES, STAYS])
    ensures exists i :: OneAfterTheOther(EffectAt(OVERLAP, [ARRIVES, STAYS], 1).out.alerts, i)
  {
    assert ARRIVES.Report? && STAYS.Report?;
    hide *;
    Arrived();
    var s := Ingest(OVERLAP, EMPTY, ARRIVES.d, ARRIVES.choice).state;
    BothRaised(s);
    WaitingIsIndexed(s);
    NothingIndexed();
    EffectOfReport(OVERLAP, EMPTY, ARRIVES);
    EffectOfReport(OVERLAP, s, STAYS);
    TwoEvents(OVERLAP, ARRIVES, STAYS);
  }

  lemma WaitingIsIndexed(s: State)
    requires Waiting(s)
    ensures Indexed(s)
  {
  }

  lemma NothingIndexed()
    ensures Indexed(EMPTY) && Accepted(ARRIVES.d) && Accepted(STAYS.d)
  {
  }

  lemma EffectOfPrefix(w: World, prefix: seq<FusionRuns.Event>, events: seq<FusionRuns.Event>, k: nat)
    requires prefix <= events && k < |prefix|
    ensures EffectAt(w, events, k) == EffectAt(w, prefix, k)
  {
    assert events[..k] == prefix[..k];
  }

  /** In no run that begins with these two reports is the second zone's alert ever stored. */
  lemma SecondZoneNeverStored(actions: seq<Action>, key: AnomalyID)
    requires Runs(OVERLAP, NOTHING, actions) && [ARRIVES, STAYS] <= Reached(OVERLAP, NOTHING, actions).events
    requires key in Reached(OVERLAP, NOTHING, actions).t.anomalies
    ensures !About(Reached(OVERLAP, NOTHING, actions).t.anomalies[key], Stay("a", "large"))
  {
    RunOfTwo();
    ZonesAreValid();
    EffectOfPrefix(OVERLAP, [ARRIVES, STAYS], Reached(OVERLAP, NOTHING, actions).events, 1);
    hide EffectAt, Runs, Reached, Legal;
    var i :| OneAfterTheOther(EffectAt(OVERLAP, [ARRIVES, STAYS], 1).out.alerts, i);
    SecondAlertIsLost(OVERLAP, actions, 1, i, i + 1, Stay("a", "large"), key);
  }
}
