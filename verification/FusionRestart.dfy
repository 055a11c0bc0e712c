/** The restarted engine on further input, next to the original one; and what labels guarantee. */
module FusionRestart {
  import opened Base
  import opened Classification
  import opened FusionModel
  import opened FusionRuns
  import opened FusionReplay
  import Geo

  // ---------------------------------------------------------------------------
  // What an operation reports, as a set that does not depend on map order
  // ---------------------------------------------------------------------------

  datatype Finding = Finding(kind: Kind, trackIDs: seq<string>, zoneID: string, detectedAt: int)

  function FindingsOf(alerts: seq<Anomaly>): set<Finding> {
    set a | a in alerts :: Finding(a.kind, a.trackIDs, a.zoneID, a.detectedAt)
  }

  lemma FindingsConcat(a: seq<Anomaly>, b: seq<Anomaly>)
    ensures FindingsOf(a + b) == FindingsOf(a) + FindingsOf(b)
  {
  }

  ghost function MeetingFindings(w: World, s: State, id: string, p: Point, order: seq<string>, now: int): set<Finding>
    requires id in s.tracks && forall o :: o in order ==> o in s.tracks
  {
    set o | o in order && Meets(w, s, id, p, o) :: Finding(Rendezvous, [id, o], "", now)
  }

  function OneMeeting(w: World, s: State, id: string, p: Point, o: string, now: int): set<Finding>
    requires id in s.tracks && o in s.tracks
  {
    if Meets(w, s, id, p, o) then {Finding(Rendezvous, [id, o], "", now)} else {}
  }

  lemma TurnFindings(w: World, s: State, y: Outcome, id: string, p: Point, done: set<string>, o: string, now: int, d: Detection)
    requires id in s.tracks && done <= s.tracks.Keys && o in s.tracks && o !in done
    requires Turned(w, s, y.state, id, p, done)
    ensures FindingsOf(EvaluatePair(w, y, id, p, o, now, d).alerts) == FindingsOf(y.alerts) + OneMeeting(w, s, id, p, o, now)
  {
    if Compares(s, id, o) {
      assert y.state.tracks[o] == s.tracks[o];
      assert Since(y.state.tracks[id], id, s.tracks[o], o, p) == Since(s.tracks[id], id, s.tracks[o], o, p);
      assert Meets(w, y.state, id, p, o) == Meets(w, s, id, p, o);
    }
    PairCases(w, y, id, p, o, now, d);
    FindingsConcat(y.alerts, [Anomaly(Rendezvous, id, [id, o], "", Max(y.state.tracks[id].level, y.state.tracks[o].level), now, d.correlationRefs)]);
  }

  lemma {:induction false} PairFindings(w: World, x: Outcome, id: string, p: Point, order: seq<string>, now: int, d: Detection)
    requires id in x.state.tracks && SetOf(order) <= x.state.tracks.Keys
    requires forall i, j :: 0 <= i < j < |order| ==> order[i] != order[j]
    ensures FindingsOf(EvaluatePairs(w, x, id, p, order, now, d).alerts)
         == FindingsOf(x.alerts) + MeetingFindings(w, x.state, id, p, order, now)
    decreases |order|
  {
    if order != [] {
      var front, o := order[..|order| - 1], order[|order| - 1];
      var y := EvaluatePairs(w, x, id, p, front, now, d);
      PairFindings(w, x, id, p, front, now, d);
      assert SetOf(front) <= x.state.tracks.Keys && o !in SetOf(front);
      PairLoop(w, x, id, p, front, now, d);
      TurnFindings(w, x.state, y, id, p, SetOf(front), o, now, d);
      MeetingFindingsGrow(w, x.state, id, p, order, now);
    }
  }

  lemma MeetingFindingsGrow(w: World, s: State, id: string, p: Point, order: seq<string>, now: int)
    requires id in s.tracks && order != [] && forall o :: o in order ==> o in s.tracks
    ensures MeetingFindings(w, s, id, p, order, now)
         == MeetingFindings(w, s, id, p, order[..|order| - 1], now) + OneMeeting(w, s, id, p, order[|order| - 1], now)
  {
    var front, o := order[..|order| - 1], order[|order| - 1];
    assert order == front + [o];
  }

  lemma {:induction false} LoiterFindings(t: TrackState, id: string, zones: seq<string>, now: int, d: Detection)
    ensures FindingsOf(LoiterAlerts(t, id, zones, now, d)) == set z | z in zones :: Finding(Loitering, [id], z, now)
    decreases |zones|
  {
    if zones != [] {
      var front, z := zones[..|zones| - 1], zones[|zones| - 1];
      LoiterFindings(t, id, front, now, d);
      assert zones == front + [z] && [id] + [] == [id];
      FindingsConcat(LoiterAlerts(t, id, front, now, d), [Alert(Loitering, id, [], z, t.level, now, d)]);
    }
  }

  lemma {:induction false} LoiteringExactly(w: World, t: TrackState, p: Point, zones: seq<Geo.Zone>, z: string)
    ensures z in LoiteringZones(w, t, p, zones) <==> exists k :: 0 <= k < |zones| && zones[k].id == z && Loiters(w, t, p, zones[k])
    decreases |zones|
  {
    if zones != [] {
      var front, last := zones[..|zones| - 1], zones[|zones| - 1];
      LoiteringExactly(w, t, p, front, z);
      if last.id == z && Loiters(w, t, p, last) {
        assert zones[|zones| - 1].id == z;
      }
      if exists k :: 0 <= k < |front| && front[k].id == z && Loiters(w, t, p, front[k]) {
        var k :| 0 <= k < |front| && front[k].id == z && Loiters(w, t, p, front[k]);
        assert zones[k] == front[k];
      }
      if exists k :: 0 <= k < |zones| && zones[k].id == z && Loiters(w, t, p, zones[k]) {
        var k :| 0 <= k < |zones| && zones[k].id == z && Loiters(w, t, p, zones[k]);
        if k < |front| {
          assert front[k] == zones[k];
        } else {
          assert zones[k] == last;
        }
      }
    }
  }

  // ---------------------------------------------------------------------------
  // One event on the original and on its copy
  // ---------------------------------------------------------------------------

  lemma LoiterShadow(w: World, t: TrackState, u: TrackState, p: Point)
    requires Shadows(t, u)
    ensures SetOf(LoiteringZones(w, t, p, w.zones)) <= SetOf(LoiteringZones(w, u, p, w.zones))
    ensures Shadows(StepLoitering(w, t, p), StepLoitering(w, u, p))
  {
    var a, b := LoiteringZones(w, t, p, w.zones), LoiteringZones(w, u, p, w.zones);
    forall z | z in a ensures z in b {
      LoiteringExactly(w, t, p, w.zones, z);
      LoiteringExactly(w, u, p, w.zones, z);
      var k :| 0 <= k < |w.zones| && w.zones[k].id == z && Loiters(w, t, p, w.zones[k]);
      assert Loiters(w, u, p, w.zones[k]);
    }
    forall z | z in b ensures z in a || z in t.loiterAlerted {
      LoiteringExactly(w, t, p, w.zones, z);
      LoiteringExactly(w, u, p, w.zones, z);
      var k :| 0 <= k < |w.zones| && w.zones[k].id == z && Loiters(w, u, p, w.zones[k]);
      if z !in t.loiterAlerted {
        assert Loiters(w, t, p, w.zones[k]);
      }
    }
  }

  lemma AloneShadow(w: World, s: State, c: State, id: string, p: Point, now: int, d: Detection)
    requires Shadow(s, c) && id in s.tracks
    ensures Shadow(EvaluateAlone(w, s, id, p, now, d).state, EvaluateAlone(w, c, id, p, now, d).state)
    ensures FindingsOf(EvaluateAlone(w, s, id, p, now, d).alerts) <= FindingsOf(EvaluateAlone(w, c, id, p, now, d).alerts)
  {
    var t, u := s.tracks[id], c.tracks[id];
    assert Shadows(t, u);
    LoiterShadow(w, t, u, p);
    var a, b := LoiteringZones(w, t, p, w.zones), LoiteringZones(w, u, p, w.zones);
    LoiterFindings(t, id, a, now, d);
    LoiterFindings(u, id, b, now, d);
    assert forall z :: z in a ==> z in SetOf(b);
    FindingsConcat(SpeedAlerts(w, t, id, p, now, d), LoiterAlerts(t, id, a, now, d));
    FindingsConcat(SpeedAlerts(w, u, id, p, now, d), LoiterAlerts(u, id, b, now, d));
  }

  lemma MeetingsShadow(w: World, s: State, c: State, id: string, p: Point, o1: seq<string>, o2: seq<string>, now: int)
    requires Shadow(s, c) && id in s.tracks && Enumerates(o1, s.tracks.Keys) && Enumerates(o2, s.tracks.Keys)
    ensures MeetingFindings(w, s, id, p, o1, now) <= MeetingFindings(w, c, id, p, o2, now)
  {
    forall o | o in o1 && Meets(w, s, id, p, o) ensures o in o2 && Meets(w, c, id, p, o) {
      MeetsShadow(w, s, c, id, p, o);
    }
  }

  lemma EvaluateShadow(w: World, s: State, c: State, id: string, d: Detection, o1: seq<string>, o2: seq<string>, now: int)
    requires Shadow(s, c) && Inv(s) && id in s.tracks
    requires Enumerates(o1, s.tracks.Keys) && Enumerates(o2, s.tracks.Keys)
    ensures Shadow(Evaluate(w, s, id, d, o1, now).state, Evaluate(w, c, id, d, o2, now).state)
    ensures FindingsOf(Evaluate(w, s, id, d, o1, now).alerts) <= FindingsOf(Evaluate(w, c, id, d, o2, now).alerts)
  {
    var p := PointOf(d);
    var x, y := EvaluateAlone(w, s, id, p, now, d), EvaluateAlone(w, c, id, p, now, d);
    AloneShadow(w, s, c, id, p, now, d);
    AloneKeepsInv(w, s, id, p, now, d);
    EnumerationIsSet(o1, s.tracks.Keys);
    EnumerationIsSet(o2, s.tracks.Keys);
    PairLoop(w, x, id, p, o1, now, d);
    PairLoop(w, y, id, p, o2, now, d);
    TurnedShadow(w, x.state, y.state, Evaluate(w, s, id, d, o1, now).state, Evaluate(w, c, id, d, o2, now).state, id, p);
    PairFindings(w, x, id, p, o1, now, d);
    PairFindings(w, y, id, p, o2, now, d);
    MeetingsShadow(w, x.state, y.state, id, p, o1, o2, now);
  }

  lemma IngestShadow(w: World, s: State, c: State, d: Detection, ch: Choice, ch': Choice)
    requires Shadow(s, c) && Inv(s) && Accepted(d) && LegalChoice(w, s, d, ch) && LegalChoice(w, c, d, ch')
    requires Indexed(c) && ch' == ch.(pairOrder := ch'.pairOrder)
    ensures TargetOf(w, s, d, ch) in Placed(w, s, d, ch).tracks && TargetOf(w, c, d, ch') == TargetOf(w, s, d, ch)
    ensures TargetOf(w, s, d, ch) in Placed(w, c, d, ch').tracks
    ensures Shadow(Ingest(w, s, d, ch).state, Ingest(w, c, d, ch').state)
    ensures FindingsOf(Ingest(w, s, d, ch).alerts) <= FindingsOf(Ingest(w, c, d, ch').alerts)
  {
    SamePlacement(w, s, c, d, ch);
    PlacedIsOpened(w, s, d, ch);
    var id := TargetOf(w, s, d, ch);
    AbsorbShadow(Placed(w, s, d, ch), Placed(w, c, d, ch'), id, d);
    AbsorbKeepsInv(Placed(w, s, d, ch), id, d);
    EvaluateShadow(w, Absorb(Placed(w, s, d, ch), id, d), Absorb(Placed(w, c, d, ch'), id, d), id, d, ch.pairOrder, ch'.pairOrder, ch.now);
  }

  // A scan, track by track: the order does not matter.
  ghost predicate Scanned(w: World, s: State, x: State, done: set<string>, now: int) {
    && x.tracks.Keys == s.tracks.Keys && x.byMMSI == s.byMMSI
    && forall id :: id in s.tracks ==>
         x.tracks[id] == if id in done && GoesDark(w, s.tracks[id], now) then s.tracks[id].(dark := true) else s.tracks[id]
  }

  ghost function DarkFindings(w: World, s: State, done: set<string>, now: int): set<Finding> {
    set id | id in done && id in s.tracks && GoesDark(w, s.tracks[id], now)
      :: Finding(DarkVessel, [id], Geo.Containing(Last(s.tracks[id]).position, w.zones)[0].id, now)
  }

  lemma DarkFindingsGrow(w: World, s: State, done: set<string>, id: string, now: int)
    requires id in s.tracks
    ensures DarkFindings(w, s, done + {id}, now) == DarkFindings(w, s, done, now)
              + if GoesDark(w, s.tracks[id], now)
                then {Finding(DarkVessel, [id], Geo.Containing(Last(s.tracks[id]).position, w.zones)[0].id, now)} else {}
  {
  }

  lemma {:induction false} ScanEffect(w: World, s: State, order: seq<string>, now: int)
    requires forall i, j :: 0 <= i < j < |order| ==> order[i] != order[j]
    requires forall id :: id in order ==> id in s.tracks
    ensures Scanned(w, s, Scan(w, s, order, now).state, SetOf(order), now)
    ensures FindingsOf(Scan(w, s, order, now).alerts) == DarkFindings(w, s, SetOf(order), now)
    decreases |order|
  {
    if order != [] {
      var front, id := order[..|order| - 1], order[|order| - 1];
      ScanEffect(w, s, front, now);
      assert SetOf(order) == SetOf(front) + {id};
      ScanTurn(w, s, Scan(w, s, front, now), SetOf(front), id, now);
    }
  }

  // The turn of one more track.
  lemma ScanTurn(w: World, s: State, x: Outcome, done: set<string>, id: string, now: int)
    requires id in s.tracks && id !in done && Scanned(w, s, x.state, done, now)
    requires FindingsOf(x.alerts) == DarkFindings(w, s, done, now)
    ensures var y := ScanTrack(w, x, id, now);
            Scanned(w, s, y.state, done + {id}, now) && FindingsOf(y.alerts) == DarkFindings(w, s, done + {id}, now)
  {
    DarkFindingsGrow(w, s, done, id, now);
    assert x.state.tracks[id] == s.tracks[id];
    var t := s.tracks[id];
    if GoesDark(w, t, now) {
      FindingsConcat(x.alerts, [Anomaly(DarkVessel, id, [id], Geo.Containing(Last(t).position, w.zones)[0].id, t.level, now, [])]);
    }
  }

  lemma DarkShadow(w: World, s: State, c: State, now: int)
    requires Shadow(s, c)
    ensures DarkFindings(w, s, s.tracks.Keys, now) <= DarkFindings(w, c, c.tracks.Keys, now)
  {
    forall id | id in s.tracks && GoesDark(w, s.tracks[id], now)
      ensures id in c.tracks && GoesDark(w, c.tracks[id], now) && Last(c.tracks[id]) == Last(s.tracks[id])
    {
      assert Shadows(s.tracks[id], c.tracks[id]);
    }
  }

  lemma ScannedShadow(w: World, s: State, c: State, x: State, y: State, now: int)
    requires Shadow(s, c) && Scanned(w, s, x, s.tracks.Keys, now) && Scanned(w, c, y, c.tracks.Keys, now)
    ensures Shadow(x, y)
  {
    forall id | id in s.tracks ensures Shadows(x.tracks[id], y.tracks[id]) {
      assert Shadows(s.tracks[id], c.tracks[id]);
    }
  }

  lemma ScanShadow(w: World, s: State, c: State, o1: seq<string>, o2: seq<string>, now: int)
    requires Shadow(s, c) && Enumerates(o1, s.tracks.Keys) && Enumerates(o2, s.tracks.Keys)
    ensures Shadow(Scan(w, s, o1, now).state, Scan(w, c, o2, now).state)
    ensures FindingsOf(Scan(w, s, o1, now).alerts) <= FindingsOf(Scan(w, c, o2, now).alerts)
  {
    ScanEffect(w, s, o1, now);
    ScanEffect(w, c, o2, now);
    EnumerationIsSet(o1, s.tracks.Keys);
    EnumerationIsSet(o2, s.tracks.Keys);
    DarkShadow(w, s, c, now);
    ScannedShadow(w, s, c, Scan(w, s, o1, now).state, Scan(w, c, o2, now).state, now);
  }

  // ---------------------------------------------------------------------------
  // Whole runs
  // ---------------------------------------------------------------------------

  /** The alerts of one event. */
  ghost function Emitted(w: World, s: State, e: Event): seq<Anomaly> {
    EffectOf(w, s, e).out.alerts
  }

  /** The same detection, clock, fresh identity and tie-break; map orders may differ otherwise. */
  ghost predicate SameInput(e: Event, f: Event) {
    match e
    case Report(d, ch) => f.Report? && f.d == d && f.choice == ch.(pairOrder := f.choice.pairOrder)
    case Sweep(order, now) => f.Sweep? && f.now == now
  }

  lemma EventShadow(w: World, s: State, c: State, e: Event, f: Event)
    requires Shadow(s, c) && Inv(s) && Indexed(c)
    requires LegalEvent(w, s, e) && LegalEvent(w, c, f) && SameInput(e, f)
    ensures Shadow(EffectOf(w, s, e).out.state, EffectOf(w, c, f).out.state)
    ensures EffectOf(w, s, e).log == EffectOf(w, c, f).log
    ensures FindingsOf(Emitted(w, s, e)) <= FindingsOf(Emitted(w, c, f))
  {
    match e
    case Report(d, ch) =>
      if Accepted(d) {
        IngestShadow(w, s, c, d, ch, f.choice);
      }
    case Sweep(order, now) =>
      ScanShadow(w, s, c, order, f.order, now);
  }

  lemma ShadowIndexed(s: State, c: State)
    requires Shadow(s, c) && Indexed(s)
    ensures Indexed(c)
  {
  }

  ghost predicate SameInputs(events: seq<Event>, others: seq<Event>) {
    |events| == |others| && forall k :: 0 <= k < |events| ==> SameInput(events[k], others[k])
  }

  /** The alerts of every event of a run, event by event. */
  ghost function Emissions(w: World, r: Run, events: seq<Event>): (all: seq<seq<Anomaly>>)
    ensures |all| == |events|
  {
    if events == [] then []
    else
      var n := |events| - 1;
      Emissions(w, r, events[..n]) + [Emitted(w, Exec(w, r, events[..n]).state, events[n])]
  }

  /** At every event the second run raises every alert of the first. */
  ghost predicate Covered(first: seq<seq<Anomaly>>, second: seq<seq<Anomaly>>) {
    |first| == |second| && forall k :: 0 <= k < |first| ==> FindingsOf(first[k]) <= FindingsOf(second[k])
  }

  lemma CoveredLonger(first: seq<seq<Anomaly>>, second: seq<seq<Anomaly>>, a: seq<Anomaly>, b: seq<Anomaly>)
    requires Covered(first, second) && FindingsOf(a) <= FindingsOf(b)
    ensures Covered(first + [a], second + [b])
  {
  }

  lemma {:induction false} RunShadow(w: World, r: Run, c: Run, events: seq<Event>, others: seq<Event>)
    requires Shadow(r.state, c.state) && Inv(r.state) && r.log == c.log
    requires Legal(w, r, events) && Legal(w, c, others) && SameInputs(events, others)
    ensures Shadow(Exec(w, r, events).state, Exec(w, c, others).state)
    ensures Inv(Exec(w, r, events).state) && Exec(w, r, events).log == Exec(w, c, others).log
    ensures Covered(Emissions(w, r, events), Emissions(w, c, others))
    decreases |events|
  {
    if events != [] {
      var n := |events| - 1;
      var front, rest, e, f := events[..n], others[..n], events[n], others[n];
      assert SameInput(e, f);
      RunShadow(w, r, c, front, rest);
      var x, y := Exec(w, r, front), Exec(w, c, rest);
      ShadowIndexed(x.state, y.state);
      EventShadow(w, x.state, y.state, e, f);
      StepKeepsInv(w, x, e);
      assert Exec(w, r, events) == Step(w, x, e) && Exec(w, c, others) == Step(w, y, f);
      CoveredLonger(Emissions(w, r, front), Emissions(w, c, rest), Emitted(w, x.state, e), Emitted(w, y.state, f));
    }
  }

  /**
    Fail-safe restart. Stop an engine after any run in which the reports that open tracks agree on their
    MMSI, and rebuild a copy from what was persisted. From then on, on the same input, every detection
    goes to the same track in both, and at every event the copy raises every alert (kind, tracks, zone,
    time) the original raises. The original may itself have been restarted before.
   */
  lemma FailSafeRestart(w: World, start: Run, before: seq<Event>, orders: seq<seq<string>>, after: seq<Event>, others: seq<Event>)
    requires Booted(w, start) && Legal(w, start, before) && OpenersAgree(Exec(w, start, before).log, |start.log|)
    requires LegalOrders(w, Exec(w, start, before).log, orders)
    requires var r := Exec(w, start, before);
             && Legal(w, r, after) && Legal(w, Run(Rebuild(w, r.log, orders), r.log, []), others) && SameInputs(after, others)
    ensures var r := Exec(w, start, before);
            var c := Run(Rebuild(w, r.log, orders), r.log, []);
            && Exec(w, r, after).log == Exec(w, c, others).log
            && Covered(Emissions(w, r, after), Emissions(w, c, others))
  {
    var r := Exec(w, start, before);
    var c := Run(Rebuild(w, r.log, orders), r.log, []);
    BootedIsSound(w, start);
    ReachableStates(w, start, before);
    ReplayRefinesIngest(w, start, before, orders);
    RunShadow(w, r, c, after, others);
  }
}
