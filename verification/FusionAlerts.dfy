/** Which alerts a run raises: exactly when the history calls for one, and never twice. */
module FusionAlerts {
  import opened Base
  import opened Classification
  import opened FusionModel
  import opened FusionRuns
  import opened FusionReplay
  import opened FusionRestart
  import opened FusionHistory
  import opened FusionMeaning
  import Geo

  // ---------------------------------------------------------------------------
  // Counting alerts
  // ---------------------------------------------------------------------------

  /** What a loitering or rendezvous alert is about. */
  datatype Subject = Stay(id: string, zone: string) | Pair(a: string, b: string)

  predicate About(x: Anomaly, f: Subject) {
    match f
    case Stay(id, zone) => x.kind == Loitering && x.trackIDs == [id] && x.zoneID == zone
    case Pair(a, b) => x.kind == Rendezvous && (x.trackIDs == [a, b] || x.trackIDs == [b, a])
  }

  function Bit(b: bool): nat {
    if b then 1 else 0
  }

  function Tally(alerts: seq<Anomaly>, f: Subject): nat {
    if alerts == [] then 0 else Tally(alerts[..|alerts| - 1], f) + Bit(About(alerts[|alerts| - 1], f))
  }

  lemma {:induction false} TallyConcat(xs: seq<Anomaly>, ys: seq<Anomaly>, f: Subject)
    ensures Tally(xs + ys, f) == Tally(xs, f) + Tally(ys, f)
    decreases |ys|
  {
    if ys == [] {
      assert xs + ys == xs;
    } else {
      TallyConcat(xs, ys[..|ys| - 1], f);
      assert (xs + ys)[..|xs + ys| - 1] == xs + ys[..|ys| - 1];
    }
  }

  lemma TallyOne(x: Anomaly, f: Subject)
    ensures Tally([x], f) == Bit(About(x, f))
  {
    assert [x][..0] == [];
  }

  predicate Latched(s: State, f: Subject) {
    match f
    case Stay(id, zone) => id in s.tracks && zone in s.tracks[id].loiterAlerted
    case Pair(a, b) => a in s.tracks && b in s.tracks[a].rendezAlerted
  }

  // ---------------------------------------------------------------------------
  // Loitering alerts of one report
  // ---------------------------------------------------------------------------

  ghost predicate Distinct(s: seq<string>) {
    forall i, j :: 0 <= i < j < |s| ==> s[i] != s[j]
  }

  lemma {:induction false} LoiteringDistinct(w: World, t: TrackState, p: Point, zones: seq<Geo.Zone>)
    ensures Distinct(LoiteringZones(w, t, p, zones))
    decreases |zones|
  {
    if zones != [] {
      var before := LoiteringZones(w, t, p, zones[..|zones| - 1]);
      LoiteringDistinct(w, t, p, zones[..|zones| - 1]);
      assert forall i :: 0 <= i < |before| ==> before[i] in before;
    }
  }

  lemma {:induction false} LoiterTally(t: TrackState, id: string, zones: seq<string>, now: int, d: Detection, f: Subject)
    requires Distinct(zones)
    ensures Tally(LoiterAlerts(t, id, zones, now, d), f) == Bit(f.Stay? && f.id == id && f.zone in zones)
    decreases |zones|
  {
    if zones != [] {
      var front, z := zones[..|zones| - 1], zones[|zones| - 1];
      LoiterTally(t, id, front, now, d, f);
      assert zones == front + [z] && z !in front;
      assert [id] + [] == [id];
      TallyConcat(LoiterAlerts(t, id, front, now, d), [Alert(Loitering, id, [], z, t.level, now, d)], f);
      TallyOne(Alert(Loitering, id, [], z, t.level, now, d), f);
    }
  }

  lemma AloneTally(w: World, s: State, id: string, p: Point, now: int, d: Detection, f: Subject)
    requires id in s.tracks
    ensures Tally(EvaluateAlone(w, s, id, p, now, d).alerts, f)
         == Bit(f.Stay? && f.id == id && f.zone in LoiteringZones(w, s.tracks[id], p, w.zones))
  {
    var t := s.tracks[id];
    LoiteringDistinct(w, t, p, w.zones);
    LoiterTally(t, id, LoiteringZones(w, t, p, w.zones), now, d, f);
    TallyConcat(SpeedAlerts(w, t, id, p, now, d), LoiterAlerts(t, id, LoiteringZones(w, t, p, w.zones), now, d), f);
    TallyOne(Alert(SpeedOutlier, id, [], "", t.level, now, d), f);
  }

  /** The loitering rule alerts on zone z exactly when its clock shows the minimum stay and the latch is clear. */
  lemma LoiteringByClock(w: World, t: TrackState, p: Point, z: string)
    requires 0 < w.config.loiteringMin
    ensures var clock := ZoneClock(w, t.zoneEnter, p);
            z in LoiteringZones(w, t, p, w.zones) <==>
              z !in t.loiterAlerted && z in clock && Sub(p.observedAt, clock[z]) >= w.config.loiteringMin
  {
    LoiteringExactly(w, t, p, w.zones, z);
    if z in RestrictedAt(w.zones, p.position) {
      var k :| 0 <= k < |w.zones| && w.zones[k].kind == Geo.RestrictedArea
               && Geo.Inside(p.position, w.zones[k].vertices) && w.zones[k].id == z;
      assert Loiters(w, t, p, w.zones[k]) <==>
        z !in t.loiterAlerted && Sub(p.observedAt, if z in t.zoneEnter then t.zoneEnter[z] else p.observedAt) >= w.config.loiteringMin;
    }
  }

  // ---------------------------------------------------------------------------
  // Rendezvous alerts of one report
  // ---------------------------------------------------------------------------

  /** The reporting track id met the other track of subject f. */
  predicate MetIn(w: World, s: State, id: string, p: Point, done: set<string>, f: Subject)
    requires id in s.tracks && done <= s.tracks.Keys
  {
    f.Pair? && exists o :: o in done && (id, o) in {(f.a, f.b), (f.b, f.a)} && Meets(w, s, id, p, o)
  }

  lemma PairAbout(x: Anomaly, id: string, o: string, f: Subject)
    requires x.kind == Rendezvous && x.trackIDs == [id, o]
    ensures About(x, f) <==> f.Pair? && (id, o) in {(f.a, f.b), (f.b, f.a)}
  {
    if f.Pair? {
      assert [id, o] == [f.a, f.b] <==> [id, o][0] == [f.a, f.b][0] && [id, o][1] == [f.a, f.b][1];
      assert [id, o] == [f.b, f.a] <==> [id, o][0] == [f.b, f.a][0] && [id, o][1] == [f.b, f.a][1];
    }
  }

  lemma TurnTally(w: World, s: State, y: Outcome, id: string, p: Point, done: set<string>, o: string, now: int, d: Detection, f: Subject)
    requires id in s.tracks && done <= s.tracks.Keys && o in s.tracks && o !in done
    requires Turned(w, s, y.state, id, p, done)
    ensures Tally(EvaluatePair(w, y, id, p, o, now, d).alerts, f)
         == Tally(y.alerts, f) + Bit(f.Pair? && (id, o) in {(f.a, f.b), (f.b, f.a)} && Meets(w, s, id, p, o))
  {
    if Compares(s, id, o) {
      assert y.state.tracks[o] == s.tracks[o];
      assert Since(y.state.tracks[id], id, s.tracks[o], o, p) == Since(s.tracks[id], id, s.tracks[o], o, p);
      assert Meets(w, y.state, id, p, o) == Meets(w, s, id, p, o);
    }
    PairCases(w, y, id, p, o, now, d);
    var x := Anomaly(Rendezvous, id, [id, o], "", Max(y.state.tracks[id].level, y.state.tracks[o].level), now, d.correlationRefs);
    PairAbout(x, id, o, f);
    TallyConcat(y.alerts, [x], f);
    TallyOne(x, f);
  }

  lemma MetInGrows(w: World, s: State, id: string, p: Point, done: set<string>, o: string, f: Subject)
    requires id in s.tracks && done <= s.tracks.Keys && o in s.tracks && o !in done
    requires f.Pair? ==> f.a != f.b
    ensures Bit(MetIn(w, s, id, p, done + {o}, f))
         == Bit(MetIn(w, s, id, p, done, f)) + Bit(f.Pair? && (id, o) in {(f.a, f.b), (f.b, f.a)} && Meets(w, s, id, p, o))
  {
  }

  lemma {:induction false} PairTally(w: World, x: Outcome, id: string, p: Point, order: seq<string>, now: int, d: Detection, f: Subject)
    requires id in x.state.tracks && SetOf(order) <= x.state.tracks.Keys && (f.Pair? ==> f.a != f.b)
    requires forall i, j :: 0 <= i < j < |order| ==> order[i] != order[j]
    ensures Tally(EvaluatePairs(w, x, id, p, order, now, d).alerts, f)
         == Tally(x.alerts, f) + Bit(MetIn(w, x.state, id, p, SetOf(order), f))
    decreases |order|
  {
    if order != [] {
      var front, o := order[..|order| - 1], order[|order| - 1];
      assert SetOf(front) <= x.state.tracks.Keys && o !in SetOf(front) && SetOf(order) == SetOf(front) + {o};
      PairTally(w, x, id, p, front, now, d, f);
      PairLoop(w, x, id, p, front, now, d);
      TurnTally(w, x.state, EvaluatePairs(w, x, id, p, front, now, d), id, p, SetOf(front), o, now, d, f);
      MetInGrows(w, x.state, id, p, SetOf(front), o, f);
    }
  }

  // ---------------------------------------------------------------------------
  // All alerts of one report
  // ---------------------------------------------------------------------------

  lemma EvaluateTally(w: World, z: State, id: string, d: Detection, order: seq<string>, now: int, f: Subject)
    requires id in z.tracks && Enumerates(order, z.tracks.Keys) && (f.Pair? ==> f.a != f.b)
    ensures var p := PointOf(d);
            var y := EvaluateAlone(w, z, id, p, now, d).state;
            && y.tracks.Keys == z.tracks.Keys
            && Tally(Evaluate(w, z, id, d, order, now).alerts, f)
               == if f.Stay? then Bit(f.id == id && f.zone in LoiteringZones(w, z.tracks[id], p, w.zones))
                  else Bit(MetIn(w, y, id, p, y.tracks.Keys, f))
  {
    AloneTally(w, z, id, PointOf(d), now, d, f);
    EnumerationIsSet(order, z.tracks.Keys);
    PairTally(w, EvaluateAlone(w, z, id, PointOf(d), now, d), id, PointOf(d), order, now, d, f);
  }

  lemma IngestTally(w: World, s: State, d: Detection, c: Choice, f: Subject)
    requires Inv(s) && Accepted(d) && LegalChoice(w, s, d, c) && (f.Pair? ==> f.a != f.b)
    ensures TargetOf(w, s, d, c) in Placed(w, s, d, c).tracks
    ensures var id, y, p := TargetOf(w, s, d, c), BeforePairs(w, s, d, c), PointOf(d);
            && id in y.tracks
            && Tally(Ingest(w, s, d, c).alerts, f)
               == if f.Stay? then Bit(f.id == id && f.zone in LoiteringZones(w, AbsorbTrack(Before(s, id, d), d), p, w.zones))
                  else Bit(MetIn(w, y, id, p, y.tracks.Keys, f))
  {
    BeforePairsEffect(w, s, d, c);
    hide LoiteringZones, Evaluate, EvaluateAlone, Inv, MetIn;
    EvaluateTally(w, Absorb(Placed(w, s, d, c), TargetOf(w, s, d, c), d), TargetOf(w, s, d, c), d, c.pairOrder, c.now, f);
  }

  /** The two tracks of a pair met on this report: their record says so and the latch was clear. */
  lemma MeetsByRecord(w: World, s: State, d: Detection, c: Choice, o: string)
    requires Inv(s) && Accepted(d) && LegalChoice(w, s, d, c) && o != TargetOf(w, s, d, c)
    ensures TargetOf(w, s, d, c) in Placed(w, s, d, c).tracks
    ensures var id, y, x := TargetOf(w, s, d, c), BeforePairs(w, s, d, c), Ingest(w, s, d, c).state;
            && id in y.tracks
            && ((o in y.tracks && Meets(w, y, id, PointOf(d), o)) <==>
                 && !Latched(s, Pair(id, o)) && Recorded(x, id, o).Some?
                 && Sub(d.observedAt, Recorded(x, id, o).value) >= w.config.rendezvousMin)
            && (Latched(x, Pair(id, o)) <==> Latched(s, Pair(id, o)) || (o in y.tracks && Meets(w, y, id, PointOf(d), o)))
  {
    BeforePairsEffect(w, s, d, c);
    IngestTurns(w, s, d, c);
    var id, y, x := TargetOf(w, s, d, c), BeforePairs(w, s, d, c), Ingest(w, s, d, c).state;
    MeetsFromTurned(w, y, x, id, PointOf(d), o);
    assert y.tracks[id].rendezAlerted == if id in s.tracks then s.tracks[id].rendezAlerted else {};
  }

  lemma MeetsByMet(w: World, y: State, id: string, p: Point, o: string)
    requires id in y.tracks && o in y.tracks && o != id && y.tracks[o].points != []
    ensures Meets(w, y, id, p, o) <==>
              o !in y.tracks[id].rendezAlerted && Met(w, y, id, p, o).Some? && Sub(p.observedAt, Met(w, y, id, p, o).value) >= w.config.rendezvousMin
  {
  }

  lemma MetIsRecorded(w: World, y: State, t: TrackState, id: string, p: Point, o: string)
    requires Inv(y) && id in y.tracks && o != id && TurnedSelf(w, y, t, id, p, y.tracks.Keys)
    ensures (if o in t.nearSince then Some(t.nearSince[o]) else None) == if o in y.tracks then Met(w, y, id, p, o) else None
    ensures o in t.rendezAlerted <==> o in y.tracks[id].rendezAlerted || (o in y.tracks && Meets(w, y, id, p, o))
  {
    if o in y.tracks {
      assert Compares(y, id, o);
    }
  }

  lemma MeetsFromTurned(w: World, y: State, x: State, id: string, p: Point, o: string)
    requires Inv(y) && id in y.tracks && o != id && Turned(w, y, x, id, p, y.tracks.Keys)
    ensures (o in y.tracks && Meets(w, y, id, p, o)) <==>
              o !in y.tracks[id].rendezAlerted && Recorded(x, id, o).Some? && Sub(p.observedAt, Recorded(x, id, o).value) >= w.config.rendezvousMin
    ensures o in x.tracks[id].rendezAlerted <==> o in y.tracks[id].rendezAlerted || (o in y.tracks && Meets(w, y, id, p, o))
  {
    MetIsRecorded(w, y, x.tracks[id], id, p, o);
    if o in y.tracks {
      MeetsByMet(w, y, id, p, o);
    }
  }

  // ---------------------------------------------------------------------------
  // One event: an alert is raised exactly when a latch closes
  // ---------------------------------------------------------------------------

  ghost predicate Counted(s: State, x: State, alerts: seq<Anomaly>, f: Subject) {
    Tally(alerts, f) + Bit(Latched(s, f)) == Bit(Latched(x, f))
  }

  /** A report alerts on zone z exactly when its clock then shows the minimum stay and the latch was clear. */
  lemma StayTally(w: World, s: State, d: Detection, c: Choice, z: string)
    requires Inv(s) && Accepted(d) && LegalChoice(w, s, d, c) && 0 < w.config.loiteringMin
    ensures TargetOf(w, s, d, c) in Placed(w, s, d, c).tracks
    ensures var id, out := TargetOf(w, s, d, c), Ingest(w, s, d, c);
            && id in out.state.tracks
            && var clock := out.state.tracks[id].zoneEnter;
               Tally(out.alerts, Stay(id, z))
               == Bit(!Latched(s, Stay(id, z)) && z in clock && Sub(d.observedAt, clock[z]) >= w.config.loiteringMin)
  {
    var id := TargetOf(w, s, d, c);
    IngestTally(w, s, d, c, Stay(id, z));
    IngestReported(w, s, d, c);
    LoiteringByClock(w, AbsorbTrack(Before(s, id, d), d), PointOf(d), z);
  }

  lemma LatchCloses(s: State, x: State, id: string, z: string, fired: seq<string>, alerts: seq<Anomaly>)
    requires Tally(alerts, Stay(id, z)) == Bit(z in fired) && id in x.tracks
    requires x.tracks[id].loiterAlerted == (if id in s.tracks then s.tracks[id].loiterAlerted else {}) + SetOf(fired)
    requires z in fired ==> !Latched(s, Stay(id, z))
    ensures Counted(s, x, alerts, Stay(id, z))
  {
  }

  // The latches of the reporting track.
  lemma LatchesOfReport(w: World, s: State, d: Detection, c: Choice)
    requires Inv(s) && Accepted(d) && LegalChoice(w, s, d, c)
    ensures TargetOf(w, s, d, c) in Placed(w, s, d, c).tracks && TargetOf(w, s, d, c) in Ingest(w, s, d, c).state.tracks
    ensures var id, t := TargetOf(w, s, d, c), AbsorbTrack(Before(s, TargetOf(w, s, d, c), d), d);
            && t.loiterAlerted == (if id in s.tracks then s.tracks[id].loiterAlerted else {})
            && Ingest(w, s, d, c).state.tracks[id].loiterAlerted == t.loiterAlerted + SetOf(LoiteringZones(w, t, PointOf(d), w.zones))
  {
    BeforePairsEffect(w, s, d, c);
    IngestTurns(w, s, d, c);
    LatchGrows(w, BeforePairs(w, s, d, c), Ingest(w, s, d, c).state, TargetOf(w, s, d, c), PointOf(d));
    hide Ingest, LegalChoice, Placed, TargetOf, Inv, LoiteringZones, ZoneClock, Turned;
  }

  lemma StayCounted(w: World, s: State, d: Detection, c: Choice, f: Subject)
    requires Inv(s) && Accepted(d) && LegalChoice(w, s, d, c) && f.Stay? && 0 < w.config.loiteringMin
    ensures TargetOf(w, s, d, c) in Placed(w, s, d, c).tracks
    ensures Counted(s, Ingest(w, s, d, c).state, Ingest(w, s, d, c).alerts, f)
  {
    var id := TargetOf(w, s, d, c);
    IngestTally(w, s, d, c, f);
    IngestReported(w, s, d, c);
    if f.id == id {
      LatchesOfReport(w, s, d, c);
      var t := AbsorbTrack(Before(s, id, d), d);
      LoiteringByClock(w, t, PointOf(d), f.zone);
      hide Ingest, LegalChoice, Placed, TargetOf, Inv, LoiteringZones, ZoneClock, Counted, AbsorbTrack, Before, Reported;
      LatchCloses(s, Ingest(w, s, d, c).state, id, f.zone, LoiteringZones(w, t, PointOf(d), w.zones), Ingest(w, s, d, c).alerts);
    } else {
      hide Ingest, LegalChoice, Placed, TargetOf, Inv, LoiteringZones, ZoneClock;
    }
  }

  lemma LatchGrows(w: World, y: State, x: State, id: string, p: Point)
    requires id in y.tracks && Turned(w, y, x, id, p, y.tracks.Keys)
    ensures x.tracks[id].loiterAlerted == y.tracks[id].loiterAlerted
  {
  }

  lemma MetInPair(w: World, y: State, id: string, p: Point, o: string, f: Subject)
    requires id in y.tracks && o != id && f in {Pair(id, o), Pair(o, id)}
    ensures MetIn(w, y, id, p, y.tracks.Keys, f) <==> o in y.tracks && Meets(w, y, id, p, o)
  {
  }

  lemma PairCountedWith(w: World, s: State, d: Detection, c: Choice, f: Subject, o: string)
    requires Inv(s) && Accepted(d) && LegalChoice(w, s, d, c)
    requires o != TargetOf(w, s, d, c) && f in {Pair(TargetOf(w, s, d, c), o), Pair(o, TargetOf(w, s, d, c))}
    ensures TargetOf(w, s, d, c) in Placed(w, s, d, c).tracks
    ensures Counted(s, Ingest(w, s, d, c).state, Ingest(w, s, d, c).alerts, f)
  {
    var id := TargetOf(w, s, d, c);
    IngestTally(w, s, d, c, f);
    MeetsByRecord(w, s, d, c, o);
    MetInPair(w, BeforePairs(w, s, d, c), id, PointOf(d), o, f);
    IngestKeepsInv(w, s, d, c);
    LatchedBothWays(s, id, o);
    LatchedBothWays(Ingest(w, s, d, c).state, id, o);
  }

  lemma PairCountedWithout(w: World, s: State, d: Detection, c: Choice, f: Subject)
    requires Inv(s) && Accepted(d) && LegalChoice(w, s, d, c)
    requires f.Pair? && f.a != f.b && TargetOf(w, s, d, c) != f.a && TargetOf(w, s, d, c) != f.b
    ensures TargetOf(w, s, d, c) in Placed(w, s, d, c).tracks
    ensures Counted(s, Ingest(w, s, d, c).state, Ingest(w, s, d, c).alerts, f)
  {
    IngestTally(w, s, d, c, f);
    LatchElsewhere(w, s, d, c, f);
  }

  lemma LatchElsewhere(w: World, s: State, d: Detection, c: Choice, f: Subject)
    requires Inv(s) && Accepted(d) && LegalChoice(w, s, d, c)
    requires f.Pair? && f.a != f.b && TargetOf(w, s, d, c) != f.a && TargetOf(w, s, d, c) != f.b
    ensures TargetOf(w, s, d, c) in Placed(w, s, d, c).tracks
    ensures Latched(Ingest(w, s, d, c).state, f) <==> Latched(s, f)
  {
    IngestTurns(w, s, d, c);
    BeforePairsEffect(w, s, d, c);
    LatchUntouched(w, BeforePairs(w, s, d, c), Ingest(w, s, d, c).state, TargetOf(w, s, d, c), PointOf(d), f);
  }

  lemma LatchedBothWays(s: State, a: string, b: string)
    requires Inv(s)
    ensures Latched(s, Pair(a, b)) <==> Latched(s, Pair(b, a))
  {
  }

  lemma LatchUntouched(w: World, y: State, x: State, id: string, p: Point, f: Subject)
    requires id in y.tracks && Turned(w, y, x, id, p, y.tracks.Keys) && f.Pair? && id != f.a && id != f.b
    ensures Latched(x, f) <==> Latched(y, f)
  {
    if f.a in y.tracks {
      assert x.tracks[f.a] == OtherAfter(w, y, id, p, f.a);
    }
  }

  lemma {:induction false} ScanTally(w: World, s: State, order: seq<string>, now: int, f: Subject)
    requires forall id :: id in order ==> id in s.tracks
    ensures Tally(Scan(w, s, order, now).alerts, f) == 0
    decreases |order|
  {
    if order != [] {
      var x, id := Scan(w, s, order[..|order| - 1], now), order[|order| - 1];
      ScanTally(w, s, order[..|order| - 1], now, f);
      if GoesDark(w, x.state.tracks[id], now) {
        var t := x.state.tracks[id];
        var alert := Anomaly(DarkVessel, id, [id], Geo.Containing(Last(t).position, w.zones)[0].id, t.level, now, []);
        TallyConcat(x.alerts, [alert], f);
        TallyOne(alert, f);
      }
    }
  }

  lemma EventCounted(w: World, s: State, e: Event, f: Subject)
    requires Inv(s) && LegalEvent(w, s, e) && (f.Pair? ==> f.a != f.b) && 0 < w.config.loiteringMin
    ensures Counted(s, EffectOf(w, s, e).out.state, EffectOf(w, s, e).out.alerts, f)
  {
    match e
    case Report(d, c) =>
      if Accepted(d) {
        IngestKeepsInv(w, s, d, c);
        if f.Stay? {
          StayCounted(w, s, d, c, f);
        } else {
          var id := TargetOf(w, s, d, c);
          if id == f.a {
            PairCountedWith(w, s, d, c, f, f.b);
          } else if id == f.b {
            PairCountedWith(w, s, d, c, f, f.a);
          } else {
            PairCountedWithout(w, s, d, c, f);
          }
        }
      }
    case Sweep(order, now) =>
      ScanTally(w, s, order, now, f);
      ScanOnlyDark(w, s, order, now);
  }

  // ---------------------------------------------------------------------------
  // Whole runs
  // ---------------------------------------------------------------------------

  /**
    At most one alert per track and zone, and per unordered pair of tracks, in any run of an engine;
    the latches remember exactly which have been raised since its startup.
   */
  lemma {:induction false} AlertsAtMostOnce(w: World, start: Run, events: seq<Event>, f: Subject)
    requires w.config.Validate() && Booted(w, start) && Legal(w, start, events) && (f.Pair? ==> f.a != f.b)
    ensures Tally(Exec(w, start, events).alerts, f) == Bit(Latched(Exec(w, start, events).state, f))
    decreases |events|
  {
    BootedIsSound(w, start);
    if events != [] {
      var front, e := events[..|events| - 1], events[|events| - 1];
      var r := Exec(w, start, front);
      AlertsAtMostOnce(w, start, front, f);
      ReachableStates(w, start, front);
      EventCounted(w, r.state, e, f);
      TallyConcat(r.alerts, EffectOf(w, r.state, e).out.alerts, f);
    }
  }

  /** The last report of h ends a stay in zone z of at least the minimum duration. */
  ghost predicate LongStay(w: World, h: seq<Detection>, z: string) {
    exists k :: StayBegan(w, h, z, k) && h[|h| - 1].observedAt - h[k].observedAt >= w.config.loiteringMin
  }

  /** The last report of the log ends a contact of tracks a and b of at least the minimum duration. */
  ghost predicate LongContact(w: World, log: seq<Association>, a: string, b: string) {
    exists k :: ContactBegan(w, log, a, b, k) && log[|log| - 1].d.observedAt - ContactTime(log, a, b, k) >= w.config.rendezvousMin
  }

  // The saturating difference of two instants reaches a limit exactly when the difference does, for any limit a duration can hold.
  lemma SubReaches(a: int, b: int, limit: int)
    ensures Sub(a, b) >= limit <==> (a - b >= limit && limit <= 0x7fff_ffff_ffff_ffff) || limit <= -0x8000_0000_0000_0000
  {
  }

  lemma OneReport(w: World, start: Run, events: seq<Event>, d: Detection, c: Choice)
    requires Booted(w, start) && Legal(w, start, events + [Report(d, c)]) && Accepted(d)
    ensures var r, r' := Exec(w, start, events), Exec(w, start, events + [Report(d, c)]);
            && Legal(w, start, events) && Inv(r.state) && LegalChoice(w, r.state, d, c)
            && TargetOf(w, r.state, d, c) in Placed(w, r.state, d, c).tracks
            && r'.state == Ingest(w, r.state, d, c).state
            && r'.log == r.log + [Association(TargetOf(w, r.state, d, c), d)]
            && r'.alerts == r.alerts + Ingest(w, r.state, d, c).alerts
  {
    var longer := events + [Report(d, c)];
    assert longer[..|longer| - 1] == events;
    BootedIsSound(w, start);
    ReachableStates(w, start, events);
    IngestKeepsInv(w, Exec(w, start, events).state, d, c);
  }

  /**
    A report to track id raises a loitering alert on zone z exactly when it ends an unbroken stay of
    at least the minimum duration, begun before or after the startup, and none was raised for (id, z) since.
   */
  lemma LoiteringExactlyOnce(w: World, start: Run, events: seq<Event>, d: Detection, c: Choice, z: string)
    requires w.config.Validate() && Booted(w, start) && Legal(w, start, events + [Report(d, c)]) && Accepted(d)
    ensures Legal(w, start, events)
    ensures var r, r' := Exec(w, start, events), Exec(w, start, events + [Report(d, c)]);
            |r'.log| == |r.log| + 1 &&
            var id := r'.log[|r.log|].id;
            Tally(r'.alerts, Stay(id, z))
              == Tally(r.alerts, Stay(id, z)) + Bit(Tally(r.alerts, Stay(id, z)) == 0 && LongStay(w, History(r'.log, id), z))
  {
    OneReport(w, start, events, d, c);
    var r, r' := Exec(w, start, events), Exec(w, start, events + [Report(d, c)]);
    var id := TargetOf(w, r.state, d, c);
    AlertsAtMostOnce(w, start, events, Stay(id, z));
    TallyConcat(r.alerts, Ingest(w, r.state, d, c).alerts, Stay(id, z));
    StayTally(w, r.state, d, c, z);
    HistoryGrows(r.log, Association(id, d), id);
    LoiteringClock(w, start, events + [Report(d, c)], id, z);
    LongStayByClock(w, History(r'.log, id), r'.state.tracks[id].zoneEnter, z);
  }

  lemma LongStayByClock(w: World, h: seq<Detection>, clock: map<string, int>, z: string)
    requires w.config.Validate()
    requires forall k :: StayBegan(w, h, z, k) ==> z in clock && clock[z] == h[k].observedAt
    requires z in clock ==> exists k :: StayBegan(w, h, z, k)
    ensures LongStay(w, h, z) <==> z in clock && h != [] && Sub(h[|h| - 1].observedAt, clock[z]) >= w.config.loiteringMin
  {
  }

  /**
    A report to track id raises a rendezvous alert with track o exactly when it ends an unbroken
    contact of at least the minimum duration, and none was raised for the pair since the startup.
   */
  lemma RendezvousExactlyOnce(w: World, start: Run, events: seq<Event>, d: Detection, c: Choice, o: string)
    requires w.config.Validate() && Booted(w, start) && Legal(w, start, events + [Report(d, c)]) && Accepted(d)
    ensures Legal(w, start, events)
    ensures var r, r' := Exec(w, start, events), Exec(w, start, events + [Report(d, c)]);
            |r'.log| == |r.log| + 1 &&
            var id := r'.log[|r.log|].id;
            o != id ==>
              Tally(r'.alerts, Pair(id, o))
                == Tally(r.alerts, Pair(id, o)) + Bit(Tally(r.alerts, Pair(id, o)) == 0 && LongContact(w, r'.log, id, o))
  {
    OneReport(w, start, events, d, c);
    var r, r' := Exec(w, start, events), Exec(w, start, events + [Report(d, c)]);
    var id := TargetOf(w, r.state, d, c);
    hide *;
    if o != id {
      AlertsAtMostOnce(w, start, events, Pair(id, o));
      RendezvousClock(w, start, events + [Report(d, c)], id, o);
      LongContactByRecord(w, r'.log, Recorded(r'.state, id, o), id, o);
      MeetingCounted(w, r.state, d, c, o, Tally(r.alerts, Pair(id, o)));
      TallyConcat(r.alerts, Ingest(w, r.state, d, c).alerts, Pair(id, o));
    }
  }

  // A report alerts on a pair whose tally so far equals its latch.
  lemma MeetingCounted(w: World, s: State, d: Detection, c: Choice, o: string, before: nat)
    requires Inv(s) && Accepted(d) && LegalChoice(w, s, d, c) && o != TargetOf(w, s, d, c)
    requires before == Bit(Latched(s, Pair(TargetOf(w, s, d, c), o)))
    ensures TargetOf(w, s, d, c) in Placed(w, s, d, c).tracks
    ensures var id, x := TargetOf(w, s, d, c), Ingest(w, s, d, c);
            Tally(x.alerts, Pair(id, o))
              == Bit(before == 0 && Recorded(x.state, id, o).Some? && Sub(d.observedAt, Recorded(x.state, id, o).value) >= w.config.rendezvousMin)
  {
    IngestTally(w, s, d, c, Pair(TargetOf(w, s, d, c), o));
    MeetsByRecord(w, s, d, c, o);
    MetInPair(w, BeforePairs(w, s, d, c), TargetOf(w, s, d, c), PointOf(d), o, Pair(TargetOf(w, s, d, c), o));
    hide Inv, Accepted, Ingest, MetIn, Meets, BeforePairs, Tally, Latched;
  }

  lemma LongContactByRecord(w: World, log: seq<Association>, record: Option<int>, a: string, b: string)
    requires w.config.Validate()
    requires record.Some? <==> exists k :: ContactBegan(w, log, a, b, k)
    requires forall k :: ContactBegan(w, log, a, b, k) ==> record == Some(ContactTime(log, a, b, k))
    ensures LongContact(w, log, a, b) <==>
              record.Some? && log != [] && Sub(log[|log| - 1].d.observedAt, record.value) >= w.config.rendezvousMin
  {
  }

  // ---------------------------------------------------------------------------
  // Dark vessels
  // ---------------------------------------------------------------------------

  /** The event raises a dark-vessel alert for the track. */
  ghost predicate AlertsDark(w: World, s: State, e: Event, id: string) {
    e.Sweep? && id in s.tracks && GoesDark(w, s.tracks[id], e.now)
  }

  /** The event puts an AIS report into the track that is not older than the last one recorded. */
  ghost predicate HearsAgain(w: World, s: State, e: Event, id: string) {
    && e.Report? && Accepted(e.d) && LegalChoice(w, s, e.d, e.choice)
    && TargetOf(w, s, e.d, e.choice) == id && id in s.tracks
    && e.d.ais.Some? && e.d.observedAt >= s.tracks[id].lastAIS
  }

  predicate DarkLatched(s: State, id: string) {
    id in s.tracks && s.tracks[id].dark
  }

  /** The alerts of a scan are those of the rule, one per track. */
  lemma ScanRaises(w: World, s: State, order: seq<string>, now: int, id: string)
    requires Enumerates(order, s.tracks.Keys) && Inv(s)
    ensures (exists a :: a in Scan(w, s, order, now).alerts && a.trackIDs == [id]) <==> AlertsDark(w, s, Sweep(order, now), id)
    ensures AlertsDark(w, s, Sweep(order, now), id) ==> DarkLatched(Scan(w, s, order, now).state, id)
  {
    ScanEffect(w, s, order, now);
    var alerts := Scan(w, s, order, now).alerts;
    if a :| a in alerts && a.trackIDs == [id] {
      var g := Finding(a.kind, a.trackIDs, a.zoneID, a.detectedAt);
      assert g in FindingsOf(alerts) && g.trackIDs == [id];
      var o :| o in s.tracks && GoesDark(w, s.tracks[o], now)
               && g == Finding(DarkVessel, [o], Geo.Containing(Last(s.tracks[o]).position, w.zones)[0].id, now);
      assert [o][0] == [id][0];
    }
    if AlertsDark(w, s, Sweep(order, now), id) {
      var g := Finding(DarkVessel, [id], Geo.Containing(Last(s.tracks[id]).position, w.zones)[0].id, now);
      assert g in FindingsOf(alerts);
    }
  }

  lemma DarkAfterReport(w: World, s: State, x: State, id: string, target: string, d: Detection)
    requires Reported(w, s, x, target, d)
    ensures DarkLatched(x, id) <==>
              DarkLatched(s, id) && !(target == id && d.ais.Some? && d.observedAt >= s.tracks[id].lastAIS)
  {
  }

  lemma DarkAfterScan(w: World, s: State, order: seq<string>, now: int, id: string)
    requires Enumerates(order, s.tracks.Keys)
    ensures DarkLatched(Scan(w, s, order, now).state, id) <==> AlertsDark(w, s, Sweep(order, now), id) || DarkLatched(s, id)
  {
    ScanEffect(w, s, order, now);
    EnumerationIsSet(order, s.tracks.Keys);
  }

  lemma DarkStep(w: World, s: State, e: Event, id: string)
    requires Inv(s) && LegalEvent(w, s, e)
    ensures DarkLatched(EffectOf(w, s, e).out.state, id) <==>
              AlertsDark(w, s, e, id) || (DarkLatched(s, id) && !HearsAgain(w, s, e, id))
  {
    match e
    case Report(d, c) =>
      if Accepted(d) {
        IngestReported(w, s, d, c);
        DarkAfterReport(w, s, Ingest(w, s, d, c).state, id, TargetOf(w, s, d, c), d);
      }
    case Sweep(order, now) =>
      DarkAfterScan(w, s, order, now, id);
  }

  ghost function StateAt(w: World, start: Run, events: seq<Event>, k: int): State
    requires 0 <= k <= |events|
  {
    Exec(w, start, events[..k]).state
  }

  lemma {:induction false} PrefixIsLegal(w: World, start: Run, events: seq<Event>, k: int)
    requires Legal(w, start, events) && 0 <= k <= |events|
    ensures Legal(w, start, events[..k])
    decreases |events|
  {
    if k < |events| {
      PrefixIsLegal(w, start, events[..|events| - 1], k);
      assert events[..|events| - 1][..k] == events[..k];
    } else {
      assert events[..k] == events;
    }
  }

  lemma LegalPrefix(w: World, start: Run, events: seq<Event>, k: int)
    requires Booted(w, start) && Legal(w, start, events) && 0 <= k < |events|
    ensures Inv(StateAt(w, start, events, k)) && LegalEvent(w, StateAt(w, start, events, k), events[k])
    ensures StateAt(w, start, events, k + 1) == EffectOf(w, StateAt(w, start, events, k), events[k]).out.state
  {
    hide Inv, LegalEvent, EffectOf, Exec, Legal, Booted;
    BootedIsSound(w, start);
    PrefixIsLegal(w, start, events, k);
    PrefixIsLegal(w, start, events, k + 1);
    ReachableStates(w, start, events[..k]);
    LastEvent(w, start, events[..k], events[k], events[..k + 1]);
  }

  lemma LastEvent(w: World, start: Run, front: seq<Event>, e: Event, longer: seq<Event>)
    requires longer == front + [e] && Legal(w, start, longer)
    ensures LegalEvent(w, Exec(w, start, front).state, e)
    ensures Exec(w, start, longer).state == EffectOf(w, Exec(w, start, front).state, e).out.state
  {
    assert longer[..|longer| - 1] == front;
  }

  /** The latch was set at step i and not cleared again before step n. */
  ghost predicate SetSince(sets: int -> bool, clears: int -> bool, i: int, n: int) {
    0 <= i < n && sets(i) && forall k :: i < k < n ==> !clears(k)
  }

  /** What step k does to the latch. */
  ghost predicate Latches(sets: int -> bool, clears: int -> bool, before: bool, after: bool, k: int) {
    after <==> sets(k) || (before && !clears(k))
  }

  ghost predicate LatchedBy(sets: int -> bool, clears: int -> bool, latch: seq<bool>) {
    latch != [] && !latch[0] && forall k :: 0 < k < |latch| ==> Latches(sets, clears, latch[k - 1], latch[k], k - 1)
  }

  lemma {:induction false} LatchMeans(sets: int -> bool, clears: int -> bool, latch: seq<bool>, n: nat)
    requires LatchedBy(sets, clears, latch) && n < |latch|
    ensures latch[n] <==> exists i :: SetSince(sets, clears, i, n)
    decreases n
  {
    if n > 0 {
      LatchMeans(sets, clears, latch, n - 1);
      assert Latches(sets, clears, latch[n - 1], latch[n], n - 1);
      if sets(n - 1) {
        assert SetSince(sets, clears, n - 1, n);
      } else if latch[n] {
        var i :| SetSince(sets, clears, i, n - 1);
        assert SetSince(sets, clears, i, n);
      } else if i :| SetSince(sets, clears, i, n) {
        assert SetSince(sets, clears, i, n - 1);
      }
    }
  }

  // Which events alert on the track, and which let it be heard again.
  ghost function Alerts(w: World, start: Run, events: seq<Event>, id: string): int -> bool {
    k => 0 <= k < |events| && AlertsDark(w, StateAt(w, start, events, k), events[k], id)
  }

  ghost function Hears(w: World, start: Run, events: seq<Event>, id: string): int -> bool {
    k => 0 <= k < |events| && HearsAgain(w, StateAt(w, start, events, k), events[k], id)
  }

  /** Event i alerted on the track, and no later event before n let it be heard again. */
  ghost predicate DarkSince(w: World, start: Run, events: seq<Event>, id: string, i: int, n: int) {
    SetSince(Alerts(w, start, events, id), Hears(w, start, events, id), i, n)
  }

  lemma DarkLatches(w: World, start: Run, events: seq<Event>, id: string, k: int)
    requires Booted(w, start) && Legal(w, start, events) && 0 <= k < |events|
    ensures Latches(Alerts(w, start, events, id), Hears(w, start, events, id),
                    DarkLatched(StateAt(w, start, events, k), id), DarkLatched(StateAt(w, start, events, k + 1), id), k)
  {
    LegalPrefix(w, start, events, k);
    DarkStep(w, StateAt(w, start, events, k), events[k], id);
  }

  /** The latch is set exactly while an alert has not been answered by an AIS report. */
  lemma DarkLatchMeans(w: World, start: Run, events: seq<Event>, id: string, n: nat)
    requires Booted(w, start) && Legal(w, start, events) && n <= |events|
    ensures DarkLatched(StateAt(w, start, events, n), id) <==> exists i :: DarkSince(w, start, events, id, i, n)
  {
    BootedIsSound(w, start);
    hide Booted, Legal, Inv, Logged;
    var latch := seq(|events| + 1, k requires 0 <= k <= |events| => DarkLatched(StateAt(w, start, events, k), id));
    var sets, clears := Alerts(w, start, events, id), Hears(w, start, events, id);
    forall k | 0 < k < |latch| ensures Latches(sets, clears, latch[k - 1], latch[k], k - 1) {
      DarkLatches(w, start, events, id, k - 1);
    }
    assert events[..0] == [];
    assert LatchedBy(sets, clears, latch);
    LatchMeans(sets, clears, latch, n);
    assert forall i :: DarkSince(w, start, events, id, i, n) <==> SetSince(sets, clears, i, n);
  }

  /**
    Two dark-vessel alerts of one track are separated by an AIS report into it that is not older than
    the last AIS time recorded then.
   */
  lemma DarkAlertsAreSeparated(w: World, start: Run, events: seq<Event>, id: string, i: int, j: int)
    requires Booted(w, start) && Legal(w, start, events) && 0 <= i < j < |events|
    requires AlertsDark(w, StateAt(w, start, events, i), events[i], id) && AlertsDark(w, StateAt(w, start, events, j), events[j], id)
    ensures exists k :: i < k < j && HearsAgain(w, StateAt(w, start, events, k), events[k], id)
  {
    DarkLatchMeans(w, start, events, id, j);
    assert !DarkSince(w, start, events, id, i, j);
  }

  /** By its history the track is a vessel whose last absorbed AIS report is too old, last seen inside a zone. */
  ghost predicate Silent(w: World, h: seq<Detection>, mmsi: string, now: int) {
    && h != [] && mmsi != "" && LastAisTime(h) != 0 && LongSince(now - LastAisTime(h), w.config.darkGap)
    && exists k :: 0 <= k < |w.zones| && Geo.Inside(h[|h| - 1].position, w.zones[k].vertices)
  }

  // The second case is that of a gap no validated configuration has.
  predicate LongSince(elapsed: int, gap: int) {
    (elapsed >= gap && gap <= 0x7fff_ffff_ffff_ffff) || gap <= -0x8000_0000_0000_0000
  }

  /** A scan alerts on a track exactly when it is silent and no earlier alert is still unanswered. */
  lemma DarkExactly(w: World, start: Run, events: seq<Event>, n: nat, id: string)
    requires Booted(w, start) && Legal(w, start, events) && n < |events| && events[n].Sweep?
    ensures var r := Exec(w, start, events[..n]);
            (exists a :: a in Emitted(w, r.state, events[n]) && a.trackIDs == [id]) <==>
              && id in r.state.tracks && Silent(w, History(r.log, id), r.state.tracks[id].mmsi, events[n].now)
              && !exists i :: DarkSince(w, start, events, id, i, n)
  {
    var r := Exec(w, start, events[..n]);
    PrefixIsLegal(w, start, events, n);
    StateMeansHistory(w, start, events[..n]);
    LegalPrefix(w, start, events, n);
    ScanRaises(w, r.state, events[n].order, events[n].now, id);
    DarkLatchMeans(w, start, events, id, n);
    if id in r.state.tracks {
      assert Tracked(w, r.state, r.log, id);
      SilentByTrack(w, History(r.log, id), r.state.tracks[id], events[n].now);
    }
  }

  lemma SilentByTrack(w: World, h: seq<Detection>, t: TrackState, now: int)
    requires TrackMeans(w, h, t)
    ensures GoesDark(w, t, now) <==> !t.dark && Silent(w, h, t.mmsi, now)
  {
    LastKept(PointsOf(h));
    SubReaches(now, t.lastAIS, w.config.darkGap);
    InsideSome(h[|h| - 1].position, w.zones);
    hide Sub, Geo.Inside;
  }

  lemma InsideSome(p: Geo.Position, zones: seq<Geo.Zone>)
    ensures Geo.Containing(p, zones) != [] <==> exists k :: 0 <= k < |zones| && Geo.Inside(p, zones[k].vertices)
  {
    Geo.ContainingExact(p, zones);
    hide Geo.Containing, Geo.Inside;
    if Geo.Containing(p, zones) != [] {
      assert Geo.Containing(p, zones)[0] in zones;
    }
    if k :| 0 <= k < |zones| && Geo.Inside(p, zones[k].vertices) {
      assert zones[k] in Geo.Containing(p, zones);
    }
  }

  // ---------------------------------------------------------------------------
  // Speed outliers
  // ---------------------------------------------------------------------------

  /** From report a to report b the vessel covered more than the baseline allows in the time between them. */
  predicate Outruns(w: World, a: Detection, b: Detection) {
    var gap := if b.observedAt - a.observedAt > 0x7fff_ffff_ffff_ffff then 0x7fff_ffff_ffff_ffff else b.observedAt - a.observedAt;
    gap > 0 && w.distance(a.position, b.position) * 1.94384 * 1000000000.0 > w.config.maxSpeedKnots * gap as real
  }

  // x / (g / s) * c > m  is  x * c * s > m * g
  lemma CrossMultiplied(x: real, g: real, s: real, c: real, m: real, q: real, r: real)
    requires g > 0.0 && s > 0.0 && q == g / s && r == x / q
    ensures r * c > m <==> x * c * s > m * g
  {
    assert q > 0.0 && q * s == g;
    assert r * q == x;
    Rescaled(r, q, s, g, x);
    var left := r * c;
    assert x * c * s == (left * g) by { Regrouped(r, g, x, c, s, left); }
    Scales(left, m, g);
  }

  lemma Rescaled(r: real, q: real, s: real, g: real, x: real)
    requires q * s == g && r * q == x
    ensures x * s == r * g
  {
    assert (r * q) * s == r * (q * s);
  }

  lemma Regrouped(r: real, g: real, x: real, c: real, s: real, left: real)
    requires x * s == r * g && left == r * c
    ensures x * c * s == left * g
  {
    assert x * c * s == (x * s) * c;
    assert (r * g) * c == (r * c) * g;
  }

  lemma Scales(a: real, b: real, g: real)
    requires g > 0.0
    ensures a > b <==> a * g > b * g
  {
  }

  lemma TooFastExactly(w: World, a: Detection, b: Detection)
    ensures TooFast(w, PointOf(a), PointOf(b)) <==> Outruns(w, a, b)
  {
    var gap := Sub(b.observedAt, a.observedAt);
    if gap > 0 {
      var x, g, s := w.distance(a.position, b.position), gap as real, SECOND as real;
      CrossMultiplied(x, g, s, 1.94384, w.config.maxSpeedKnots, g / s, x / (g / s));
    }
  }

  predicate HasOutlier(alerts: seq<Anomaly>) {
    exists i :: 0 <= i < |alerts| && alerts[i].kind == SpeedOutlier
  }

  lemma {:induction false} LoiterHasNoOutlier(t: TrackState, id: string, zones: seq<string>, now: int, d: Detection)
    ensures !HasOutlier(LoiterAlerts(t, id, zones, now, d))
    decreases |zones|
  {
    if zones != [] {
      LoiterHasNoOutlier(t, id, zones[..|zones| - 1], now, d);
    }
  }

  lemma {:induction false} PairsAddNoOutlier(w: World, x: Outcome, id: string, p: Point, order: seq<string>, now: int, d: Detection)
    requires id in x.state.tracks && forall o :: o in order ==> o in x.state.tracks
    ensures HasOutlier(EvaluatePairs(w, x, id, p, order, now, d).alerts) <==> HasOutlier(x.alerts)
    decreases |order|
  {
    if order != [] {
      var y := EvaluatePairs(w, x, id, p, order[..|order| - 1], now, d);
      PairsAddNoOutlier(w, x, id, p, order[..|order| - 1], now, d);
      PairCases(w, y, id, p, order[|order| - 1], now, d);
      hide EvaluatePair, Near, Since, Meets;
      var z := EvaluatePair(w, y, id, p, order[|order| - 1], now, d);
      if z.alerts != y.alerts {
        assert |z.alerts| == |y.alerts| + 1 && z.alerts[|y.alerts|].kind == Rendezvous;
        assert forall i :: 0 <= i < |y.alerts| ==> z.alerts[i] == y.alerts[i];
      }
    }
  }

  lemma EvaluateOutlier(w: World, z: State, id: string, d: Detection, order: seq<string>, now: int)
    requires id in z.tracks && forall o :: o in order ==> o in z.tracks
    ensures HasOutlier(Evaluate(w, z, id, d, order, now).alerts) <==> SpeedAlerts(w, z.tracks[id], id, PointOf(d), now, d) != []
  {
    var t, p := z.tracks[id], PointOf(d);
    var a, b := SpeedAlerts(w, t, id, p, now, d), LoiterAlerts(t, id, LoiteringZones(w, t, p, w.zones), now, d);
    LoiterHasNoOutlier(t, id, LoiteringZones(w, t, p, w.zones), now, d);
    PairsAddNoOutlier(w, EvaluateAlone(w, z, id, p, now, d), id, p, order, now, d);
    hide TooFast, LoiteringZones;
    if a != [] {
      assert (a + b)[0] == a[0];
    } else {
      assert a + b == b;
    }
  }

  /** A report raises a speed alert exactly when it outruns the report before it in the whole history of its track. */
  lemma SpeedExactly(w: World, start: Run, events: seq<Event>, d: Detection, c: Choice)
    requires Booted(w, start) && Legal(w, start, events + [Report(d, c)]) && Accepted(d)
    ensures Legal(w, start, events)
    ensures var r, r' := Exec(w, start, events), Exec(w, start, events + [Report(d, c)]);
            |r'.log| == |r.log| + 1 && |r.alerts| <= |r'.alerts| &&
            var h := History(r'.log, r'.log[|r.log|].id);
            HasOutlier(r'.alerts[|r.alerts|..]) <==> |h| >= 2 && Outruns(w, h[|h| - 2], d)
  {
    OneReport(w, start, events, d, c);
    LastPoints(w, start, events, d, c);
    hide *;
    SpeedOf(w, Exec(w, start, events), Exec(w, start, events + [Report(d, c)]), d, c);
  }

  lemma LastPoints(w: World, start: Run, events: seq<Event>, d: Detection, c: Choice)
    requires Booted(w, start) && Legal(w, start, events + [Report(d, c)]) && Accepted(d)
    ensures var r, r' := Exec(w, start, events), Exec(w, start, events + [Report(d, c)]);
            && |r'.log| == |r.log| + 1
            && var id := r'.log[|r.log|].id;
               id in r'.state.tracks && r'.state.tracks[id].points == Keep(PointsOf(History(r'.log, id)))
  {
    OneReport(w, start, events, d, c);
    var r := Exec(w, start, events);
    IngestReported(w, r.state, d, c);
    LoiteringClock(w, start, events + [Report(d, c)], TargetOf(w, r.state, d, c), "");
  }

  lemma SpeedOf(w: World, r: Run, r': Run, d: Detection, c: Choice)
    requires Inv(r.state) && Accepted(d) && LegalChoice(w, r.state, d, c) && TargetOf(w, r.state, d, c) in Placed(w, r.state, d, c).tracks
    requires r'.state == Ingest(w, r.state, d, c).state
    requires r'.log == r.log + [Association(TargetOf(w, r.state, d, c), d)]
    requires r'.alerts == r.alerts + Ingest(w, r.state, d, c).alerts
    requires var id := r'.log[|r.log|].id;
             id in r'.state.tracks && r'.state.tracks[id].points == Keep(PointsOf(History(r'.log, id)))
    ensures |r'.log| == |r.log| + 1 && |r.alerts| <= |r'.alerts|
    ensures var h := History(r'.log, r'.log[|r.log|].id);
            HasOutlier(r'.alerts[|r.alerts|..]) <==> |h| >= 2 && Outruns(w, h[|h| - 2], d)
  {
    hide Inv, Accepted, Ingest, Keep, PointsOf, History, HasOutlier, Outruns, SpeedAlerts;
    var id := TargetOf(w, r.state, d, c);
    IngestOutlier(w, r.state, d, c);
    HistoryGrows(r.log, Association(id, d), id);
    SpeedFromPoints(w, History(r'.log, id), r'.state.tracks[id], id, d, c.now);
    hide *;
    assert r'.alerts[|r.alerts|..] == Ingest(w, r.state, d, c).alerts;
  }

  lemma AbsorbedPoints(w: World, s: State, d: Detection, c: Choice)
    requires Inv(s) && Accepted(d) && LegalChoice(w, s, d, c)
    ensures TargetOf(w, s, d, c) in Placed(w, s, d, c).tracks
    ensures var id, out := TargetOf(w, s, d, c), Ingest(w, s, d, c);
            id in out.state.tracks && out.state.tracks[id].points == Absorb(Placed(w, s, d, c), id, d).tracks[id].points
  {
    IngestReported(w, s, d, c);
    hide Ingest, Inv, Accepted, ZoneClock, LegalChoice;
  }

  lemma SpeedByPoints(w: World, t: TrackState, u: TrackState, id: string, p: Point, now: int, d: Detection)
    requires t.points == u.points
    ensures SpeedAlerts(w, t, id, p, now, d) != [] <==> SpeedAlerts(w, u, id, p, now, d) != []
  {
    hide TooFast;
  }

  lemma IngestOutlier(w: World, s: State, d: Detection, c: Choice)
    requires Inv(s) && Accepted(d) && LegalChoice(w, s, d, c)
    ensures TargetOf(w, s, d, c) in Placed(w, s, d, c).tracks
    ensures var id, out := TargetOf(w, s, d, c), Ingest(w, s, d, c);
            id in out.state.tracks && (HasOutlier(out.alerts) <==> SpeedAlerts(w, out.state.tracks[id], id, PointOf(d), c.now, d) != [])
  {
    hide Inv, Accepted, Evaluate, SpeedAlerts, HasOutlier, AbsorbTrack, AbsorbIndex, AddTrack;
    AbsorbedPoints(w, s, d, c);
    var id := TargetOf(w, s, d, c);
    var z := Absorb(Placed(w, s, d, c), id, d);
    EvaluateOutlier(w, z, id, d, c.pairOrder, c.now);
    SpeedByPoints(w, Ingest(w, s, d, c).state.tracks[id], z.tracks[id], id, PointOf(d), c.now, d);
  }

  lemma SpeedFromPoints(w: World, h: seq<Detection>, t: TrackState, id: string, d: Detection, now: int)
    requires h != [] && h[|h| - 1] == d && t.points == Keep(PointsOf(h))
    ensures SpeedAlerts(w, t, id, PointOf(d), now, d) != [] <==> |h| >= 2 && Outruns(w, h[|h| - 2], d)
  {
    if |h| >= 2 {
      TooFastExactly(w, h[|h| - 2], d);
      assert t.points[|t.points| - 2] == PointOf(h[|h| - 2]);
    }
  }
}
