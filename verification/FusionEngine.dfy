/**
  internal/tracks/fusion.go: the engine with its mutable tracks. Every method is proved to do to
  the heap what FusionModel says, for whatever order the map loops take; that order is returned
  as a ghost result.
 */
module FusionEngine {
  import opened Base
  import opened Classification
  import opened FusionModel
  import Geo

  class Track {
    const id: string
    var mmsi: string
    var level: Label
    var points: seq<Point>
    var lastAIS: int
    var zoneEnter: map<string, int>
    var loiterAlerted: set<string>
    var nearSince: map<string, int>
    var rendezAlerted: set<string>
    var dark: bool

    constructor (id: string, level: Label)
      ensures this.id == id && View() == NewTrack(level)
    {
      this.id, this.mmsi, this.level, this.points, this.lastAIS := id, "", level, [], 0;
      this.zoneEnter, this.loiterAlerted := map[], {};
      this.nearSince, this.rendezAlerted, this.dark := map[], {}, false;
    }

    ghost function View(): TrackState
      reads this
    {
      TrackState(mmsi, level, points, lastAIS, zoneEnter, loiterAlerted, nearSince, rendezAlerted, dark)
    }
  }

  /** The map key is the track's identity, so no object appears twice. */
  ghost predicate Keyed(tracks: map<string, Track>) {
    forall id :: id in tracks ==> tracks[id].id == id
  }

  /** No MMSI points nowhere. */
  ghost predicate Indexed(byMMSI: map<string, string>, keys: set<string>) {
    forall m :: m in byMMSI ==> byMMSI[m] in keys
  }

  class Engine {
    const world: World
    var tracks: map<string, Track>
    var byMMSI: map<string, string>

    ghost predicate Valid()
      reads this
    {
      Keyed(tracks) && Indexed(byMMSI, tracks.Keys)
    }

    ghost function View(): State
      reads this, tracks.Values
    {
      State(map id | id in tracks :: tracks[id].View(), byMMSI)
    }

    /** After a step that touched at most two tracks, the view differs from s at those two keys only. */
    lemma Touched(s: State, t: Track, u: Track)
      requires Valid() && t.id in tracks && tracks[t.id] == t && u.id in tracks && tracks[u.id] == u
      requires s.tracks.Keys == tracks.Keys
      requires forall id :: id in tracks && id != t.id && id != u.id ==> tracks[id].View() == s.tracks[id]
      ensures View().tracks == s.tracks[t.id := t.View()][u.id := u.View()]
    {
    }

    constructor (world: World)
      ensures Valid() && View() == EMPTY && this.world == world
    {
      this.world := world;
      this.tracks, this.byMMSI := map[], map[];
    }

    /** The new engine is refused unless the thresholds and every zone are valid. */
    static method NewEngine(config: Config, zones: seq<Geo.Zone>, distance: (Geo.Position, Geo.Position) -> real)
      returns (r: Result<Engine, string>)
      ensures r.Ok? <==>
                && 0 < config.correlationWindow <= 86_400_000_000_000 && 0.0 < config.correlationRadius <= 50000.0
                && 0.0 < config.rendezvousRadius <= 10000.0 && 0 < config.rendezvousMin <= 86_400_000_000_000
                && 0 < config.loiteringMin <= 259_200_000_000_000 && 0 < config.darkGap <= 604_800_000_000_000
                && 0.0 < config.maxSpeedKnots <= 102.2
                && forall k :: 0 <= k < |zones| ==> Geo.ValidZone(zones[k])
      ensures r.Ok? ==> fresh(r.value) && r.value.Valid() && r.value.View() == EMPTY
                        && r.value.world == World(config, zones, distance)
    {
      if !config.Validate() {
        return Err("configuration is not valid");
      }
      for i := 0 to |zones|
        invariant forall k :: 0 <= k < i ==> Geo.ValidZone(zones[k])
      {
        var checked := Geo.NewZone(zones[i].id, zones[i].kind, zones[i].vertices);
        if checked.Err? {
          return Err("zone is not valid");
        }
      }
      var engine := new Engine(World(config, zones, distance));
      r := Ok(engine);
    }

    // -------------------------------------------------------------------------
    // associate
    // -------------------------------------------------------------------------

    method Associate(d: Detection, newID: string) returns (track: Track, ghost order: seq<string>)
      requires Valid() && newID !in tracks
      modifies this
      ensures Valid() && Enumerates(order, old(tracks.Keys))
      ensures track.id in tracks && track == tracks[track.id]
      ensures fresh(tracks.Values - old(tracks.Values))
      ensures var chosen := FusionModel.Associate(world, old(View()), d, order);
              && track.id == (if chosen.Some? then chosen.value else newID)
              && View() == if chosen.Some? then old(View()) else AddTrack(old(View()), newID, d)
    {
      if d.mmsi != "" {
        if d.mmsi in byMMSI {
          order := AnyOrder(tracks.Keys);
          return tracks[byMMSI[d.mmsi]], order;
        }
      }
      var best: Option<Track>;
      best, order := NearestTrack(d);
      if best.Some? {
        return best.value, order;
      }
      track := MintTrack(d, newID);
    }

    // The end of associate: a fresh track.
    method MintTrack(d: Detection, newID: string) returns (track: Track)
      requires Valid() && newID !in tracks
      modifies this
      ensures Valid() && track.id == newID && newID in tracks && track == tracks[newID]
      ensures fresh(tracks.Values - old(tracks.Values))
      ensures View() == AddTrack(old(View()), newID, d)
    {
      ghost var s := View();
      track := new Track(newID, d.level);
      if d.mmsi != "" {
        track.mmsi := d.mmsi;
        byMMSI := byMMSI[d.mmsi := newID];
      }
      tracks := tracks[newID := track];
      assert track.View() == NewTrack(d.level).(mmsi := d.mmsi);
      Added(s, newID);
    }

    /** After a step that only added a track, the view differs from s at that key only. */
    lemma Added(s: State, id: string)
      requires tracks.Keys == s.tracks.Keys + {id}
      requires forall other :: other in s.tracks && other != id ==> tracks[other].View() == s.tracks[other]
      ensures View().tracks == s.tracks[id := tracks[id].View()]
    {
    }

    // The loop of associate.
    method NearestTrack(d: Detection) returns (best: Option<Track>, ghost order: seq<string>)
      requires Valid()
      ensures Enumerates(order, tracks.Keys)
      ensures var id := Nearest(world, View(), d, order).id;
              if id.Some? then id.value in tracks && best == Some(tracks[id.value]) else best.None?
    {
      best := None;
      var bestDistance := world.config.correlationRadius;
      ghost var bestID: Option<string> := None;
      order := [];
      var rest := tracks.Keys;
      while rest != {}
        invariant rest <= tracks.Keys && Enumerates(order, tracks.Keys - rest)
        invariant Nearest(world, View(), d, order) == Best(bestID, bestDistance)
        invariant if bestID.Some? then bestID.value in tracks && best == Some(tracks[bestID.value]) else best.None?
      {
        var id :| id in rest;
        rest := rest - {id};
        ghost var before := order;
        order := order + [id];
        assert order[..|order| - 1] == before;
        var candidate := tracks[id];
        if d.mmsi != "" && candidate.mmsi != "" && candidate.mmsi != d.mmsi {
          continue;
        }
        if candidate.points == [] {
          continue;
        }
        var last := candidate.points[|candidate.points| - 1];
        var gap := Sub(d.observedAt, last.observedAt);
        if gap < 0 {
          gap := Negate(gap);
        }
        if gap > world.config.correlationWindow {
          continue;
        }
        var distance := world.distance(last.position, d.position);
        if distance <= bestDistance {
          best, bestDistance, bestID := Some(candidate), distance, Some(id);
        }
      }
    }

    // -------------------------------------------------------------------------
    // absorbPointLocked
    // -------------------------------------------------------------------------

    method AbsorbPoint(track: Track, d: Detection) returns (point: Point)
      requires Valid() && track.id in tracks && tracks[track.id] == track
      modifies `byMMSI, track
      ensures Valid() && point == PointOf(d)
      ensures track.View() == AbsorbTrack(old(track.View()), d)
      ensures byMMSI == AbsorbIndex(old(byMMSI), old(track.View()), track.id, d)
    {
      point := Point(d.sourceID, d.sourceEventID, d.modality, d.observedAt, d.position, 0.0, 0.0);
      if d.ais.Some? {
        point := point.(speedKnots := d.ais.value.speedKnots, headingDeg := d.ais.value.headingDeg);
        HearAis(track, d.ais.value.mmsi, d.observedAt);
      }
      if d.mmsi != "" && track.mmsi == "" {
        track.mmsi := d.mmsi;
        byMMSI := byMMSI[d.mmsi := track.id];
      }
      AppendPoint(track, point, d.level);
    }

    // absorbPointLocked, seen from the whole engine.
    method Take(track: Track, d: Detection) returns (point: Point)
      requires Valid() && track.id in tracks && tracks[track.id] == track
      modifies `byMMSI, track
      ensures Valid() && point == PointOf(d) && View() == Absorb(old(View()), track.id, d)
    {
      ghost var s := View();
      assert track.View() == s.tracks[track.id];
      point := AbsorbPoint(track, d);
      Touched(s, track, track);
      hide AbsorbTrack, AbsorbIndex;
    }

    // The AIS part of absorbPointLocked: re-arm the dark-vessel rule, move the marker, bind the MMSI.
    method HearAis(track: Track, mmsi: string, observedAt: int)
      requires track.id in tracks && Indexed(byMMSI, tracks.Keys)
      modifies `byMMSI, track`dark, track`lastAIS, track`mmsi
      ensures Indexed(byMMSI, tracks.Keys)
      ensures track.View() == old(track.View()).(
                dark := if observedAt >= old(track.lastAIS) then false else old(track.dark),
                lastAIS := observedAt,
                mmsi := if old(track.mmsi) == "" then mmsi else old(track.mmsi))
      ensures byMMSI == if old(track.mmsi) == "" then old(byMMSI)[mmsi := track.id] else old(byMMSI)
    {
      if !(observedAt < track.lastAIS) {
        track.dark := false;
      }
      track.lastAIS := observedAt;
      if track.mmsi == "" {
        track.mmsi := mmsi;
        byMMSI := byMMSI[mmsi := track.id];
      }
    }

    // The last part of absorbPointLocked: append, raise the label, keep the newest points.
    method AppendPoint(track: Track, point: Point, level: Label)
      modifies track`points, track`level
      ensures track.View() == old(track.View()).(points := Keep(old(track.points) + [point]), level := Max(old(track.level), level))
    {
      track.points := track.points + [point];
      track.level := Max(track.level, level);
      if |track.points| > MAX_POINTS {
        track.points := track.points[|track.points| - MAX_POINTS..];
      }
    }

    // -------------------------------------------------------------------------
    // Zone clocks
    // -------------------------------------------------------------------------

    // The last part of both zone loops: forget the zones the track has left.
    method DropLeftZones(track: Track, inside: set<string>)
      modifies track`zoneEnter
      ensures track.zoneEnter == map z | z in old(track.zoneEnter) && z in inside :: old(track.zoneEnter)[z]
    {
      var rest := track.zoneEnter.Keys;
      while rest != {}
        invariant rest <= old(track.zoneEnter).Keys
        invariant track.zoneEnter == map z | z in old(track.zoneEnter) && (z in rest || z in inside) :: old(track.zoneEnter)[z]
      {
        var z :| z in rest;
        rest := rest - {z};
        if z !in inside {
          track.zoneEnter := track.zoneEnter - {z};
        }
      }
    }

    // A report from inside a restricted zone starts its clock unless it is running.
    method EnterZone(track: Track, z: string, point: Point, ghost enter: map<string, int>, ghost inside: set<string>)
      requires track.zoneEnter == Entered(enter, inside, point)
      modifies track`zoneEnter
      ensures track.zoneEnter == Entered(enter, inside + {z}, point)
    {
      if z !in track.zoneEnter {
        track.zoneEnter := track.zoneEnter[z := point.observedAt];
      }
    }

    // The zone loop of restoreRuleStateLocked.
    method RestoreZones(track: Track, point: Point)
      modifies track`zoneEnter
      ensures track.zoneEnter == ZoneClock(world, old(track.zoneEnter), point)
    {
      ghost var enter := track.zoneEnter;
      var inside: set<string> := {};
      for i := 0 to |world.zones|
        invariant inside == RestrictedAt(world.zones[..i], point.position)
        invariant track.zoneEnter == Entered(enter, inside, point)
      {
        var zone := world.zones[i];
        var hit := false;
        if zone.kind == Geo.RestrictedArea {
          hit := Geo.Contains(zone, point.position);
        }
        RestrictedGrows(world.zones, i, point.position);
        if hit {
          EnterZone(track, zone.id, point, enter, inside);
          inside := inside + {zone.id};
        }
      }
      assert world.zones[..|world.zones|] == world.zones;
      DropLeftZones(track, inside);
    }

    // -------------------------------------------------------------------------
    // Pair proximity
    // -------------------------------------------------------------------------

    // The closure `separated` of both pair loops.
    method Separate(track: Track, other: Track)
      requires track != other
      modifies track`nearSince, other`nearSince
      ensures track.nearSince == old(track.nearSince) - {other.id} && other.nearSince == old(other.nearSince) - {track.id}
    {
      track.nearSince := track.nearSince - {other.id};
      other.nearSince := other.nearSince - {track.id};
    }

    // Both tracks remember when they came together.
    method Join(track: Track, other: Track, since: int)
      requires track != other
      modifies track`nearSince, other`nearSince
      ensures track.nearSince == old(track.nearSince)[other.id := since] && other.nearSince == old(other.nearSince)[track.id := since]
    {
      track.nearSince := track.nearSince[other.id := since];
      other.nearSince := other.nearSince[track.id := since];
    }

    // The earlier of the two recorded times, else the earlier of the two observations.
    method MeetingTime(track: Track, other: Track, point: Point) returns (since: int)
      requires other.points != []
      ensures since == Since(track.View(), track.id, other.View(), other.id, point)
    {
      var seen := other.id in track.nearSince;
      since := if seen then track.nearSince[other.id] else 0;
      if track.id in other.nearSince && (!seen || other.nearSince[track.id] < since) {
        since, seen := other.nearSince[track.id], true;
      }
      if !seen {
        var last := other.points[|other.points| - 1];
        since := point.observedAt;
        if last.observedAt < since {
          since := last.observedAt;
        }
      }
    }

    // The body of the pair loop in restoreRuleStateLocked.
    method RestorePair(track: Track, other: Track, point: Point)
      requires Valid() && track.id in tracks && tracks[track.id] == track && other.id in tracks && tracks[other.id] == other
      modifies track, other
      ensures var r := StepPair(world, old(View()), track.id, point, other.id);
              track.View() == r.tracks[track.id] && other.View() == r.tracks[other.id]
    {
      if other.id == track.id {
        return;
      }
      if other.points == [] {
        return;
      }
      var last := other.points[|other.points| - 1];
      if Sub(point.observedAt, last.observedAt) > world.config.rendezvousMin || Sub(last.observedAt, point.observedAt) > world.config.rendezvousMin {
        Separate(track, other);
        return;
      }
      if world.distance(last.position, point.position) > world.config.rendezvousRadius {
        Separate(track, other);
        return;
      }
      var since := MeetingTime(track, other, point);
      Join(track, other, since);
    }

    // One turn of the pair loop, seen from the whole engine.
    method RestoreTurn(track: Track, o: string, point: Point)
      requires Valid() && track.id in tracks && tracks[track.id] == track && o in tracks
      modifies tracks.Values
      ensures Valid() && View() == StepPair(world, old(View()), track.id, point, o)
    {
      ghost var s := View();
      RestorePair(track, tracks[o], point);
      Touched(s, track, tracks[o]);
      StepPairExtent(world, s, track.id, point, o);
    }

    method RestoreRuleState(track: Track, point: Point) returns (ghost order: seq<string>)
      requires Valid() && track.id in tracks && tracks[track.id] == track
      modifies tracks.Values
      ensures Valid() && Enumerates(order, tracks.Keys)
      ensures View() == Restore(world, old(View()), track.id, point, order)
    {
      hide RestorePairs, ZoneClock;
      ghost var s := View();
      RestoreZones(track, point);
      Touched(s, track, track);
      assert View().tracks == StepZones(world, s, track.id, point).tracks;
      order := RestoreLoop(track, point);
    }

    // The pair loop of restoreRuleStateLocked.
    method RestoreLoop(track: Track, point: Point) returns (ghost order: seq<string>)
      requires Valid() && track.id in tracks && tracks[track.id] == track
      modifies tracks.Values
      ensures Valid() && Enumerates(order, tracks.Keys)
      ensures View() == RestorePairs(world, old(View()), track.id, point, order)
    {
      ghost var s := View();
      order := [];
      var rest := tracks.Keys;
      while rest != {}
        invariant Valid() && rest <= tracks.Keys && Enumerates(order, tracks.Keys - rest)
        invariant View() == RestorePairs(world, s, track.id, point, order)
      {
        var o :| o in rest;
        rest := rest - {o};
        RestoreTurn(track, o, point);
        ghost var before := order;
        order := order + [o];
        assert order[..|order| - 1] == before;
      }
    }

    // -------------------------------------------------------------------------
    // evaluateLocked
    // -------------------------------------------------------------------------

    // Speed outlier: the implied speed of the leg just added.
    method SpeedRule(track: Track, point: Point, now: int, d: Detection) returns (anomalies: seq<Anomaly>)
      ensures anomalies == SpeedAlerts(world, track.View(), track.id, point, now, d)
    {
      anomalies := [];
      if |track.points| >= 2 {
        var previous := track.points[|track.points| - 2];
        var gap := Sub(point.observedAt, previous.observedAt);
        if gap > 0 {
          var metres := world.distance(previous.position, point.position);
          var knots := metres / (gap as real / SECOND as real) * 1.94384;
          if knots > world.config.maxSpeedKnots {
            anomalies := [Anomaly(SpeedOutlier, track.id, [track.id], "", track.level, now, d.correlationRefs)];
            assert [track.id] + [] == [track.id];
          }
        }
      }
    }

    // Loitering: the zone loop of evaluateLocked.
    method LoiterRule(track: Track, point: Point, now: int, d: Detection) returns (anomalies: seq<Anomaly>)
      modifies track`zoneEnter, track`loiterAlerted
      ensures track.View() == StepLoitering(world, old(track.View()), point)
      ensures anomalies == LoiterAlerts(old(track.View()), track.id, LoiteringZones(world, old(track.View()), point, world.zones), now, d)
    {
      ghost var t := track.View();
      ghost var fired: seq<string> := [];
      anomalies := [];
      var inside: set<string> := {};
      for i := 0 to |world.zones|
        invariant inside == RestrictedAt(world.zones[..i], point.position)
        invariant fired == LoiteringZones(world, t, point, world.zones[..i])
        invariant track.zoneEnter == Entered(t.zoneEnter, inside, point)
        invariant track.loiterAlerted == t.loiterAlerted + SetOf(fired)
        invariant anomalies == LoiterAlerts(t, track.id, fired, now, d)
      {
        var zone := world.zones[i];
        var hit := Geo.Contains(zone, point.position);
        RestrictedGrows(world.zones, i, point.position);
        assert world.zones[..i + 1][..i] == world.zones[..i];
        if hit && zone.kind == Geo.RestrictedArea {
          EnterZone(track, zone.id, point, t.zoneEnter, inside);
          inside := inside + {zone.id};
          if zone.id !in track.loiterAlerted && Sub(point.observedAt, track.zoneEnter[zone.id]) >= world.config.loiteringMin {
            track.loiterAlerted := track.loiterAlerted + {zone.id};
            anomalies := anomalies + [Anomaly(Loitering, track.id, [track.id], zone.id, track.level, now, d.correlationRefs)];
            LoiterAlertsGrow(t, track.id, fired, zone.id, now, d);
            fired := fired + [zone.id];
          }
        }
      }
      assert world.zones[..|world.zones|] == world.zones;
      DropLeftZones(track, inside);
      assert track.zoneEnter == ZoneClock(world, t.zoneEnter, point);
    }

    // Both tracks remember that their meeting was reported, and the reporting one takes the higher label.
    method LatchPair(track: Track, other: Track)
      requires track != other
      modifies track`rendezAlerted, other`rendezAlerted, track`level
      ensures track.rendezAlerted == old(track.rendezAlerted) + {other.id} && track.level == Max(old(track.level), old(other.level))
      ensures other.rendezAlerted == old(other.rendezAlerted) + {track.id}
    {
      track.rendezAlerted := track.rendezAlerted + {other.id};
      other.rendezAlerted := other.rendezAlerted + {track.id};
      track.level := Max(track.level, other.level);
    }

    // The rest of the body once the pair is known to be near.
    method MeetPair(track: Track, other: Track, point: Point, now: int, d: Detection, earlier: seq<Anomaly>)
      returns (anomalies: seq<Anomaly>)
      requires track != other && track.id != other.id && other.points != []
      modifies track, other
      ensures var t, u := old(track.View()), old(other.View());
              var since := Since(t, track.id, u, other.id, point);
              var meets := other.id !in t.rendezAlerted && Sub(point.observedAt, since) >= world.config.rendezvousMin;
              var t', u' := Linked(t, other.id, Some(since)), Linked(u, track.id, Some(since));
              && track.View() == (if meets then t'.(rendezAlerted := t.rendezAlerted + {other.id}, level := Max(t.level, u.level)) else t')
              && other.View() == (if meets then u'.(rendezAlerted := u.rendezAlerted + {track.id}) else u')
              && anomalies == if meets
                   then earlier + [Anomaly(Rendezvous, track.id, [track.id, other.id], "", Max(t.level, u.level), now, d.correlationRefs)]
                   else earlier
    {
      anomalies := earlier;
      var since := MeetingTime(track, other, point);
      Join(track, other, since);
      if other.id !in track.rendezAlerted && Sub(point.observedAt, since) >= world.config.rendezvousMin {
        LatchPair(track, other);
        anomalies := anomalies + [Anomaly(Rendezvous, track.id, [track.id, other.id], "", track.level, now, d.correlationRefs)];
      }
    }

    // The body of the pair loop in evaluateLocked.
    method EvaluatePair(track: Track, other: Track, point: Point, now: int, d: Detection, earlier: seq<Anomaly>)
      returns (anomalies: seq<Anomaly>)
      requires Valid() && track.id in tracks && tracks[track.id] == track && other.id in tracks && tracks[other.id] == other
      modifies track, other
      ensures var r := FusionModel.EvaluatePair(world, Outcome(old(View()), earlier), track.id, point, other.id, now, d);
              track.View() == r.state.tracks[track.id] && other.View() == r.state.tracks[other.id] && anomalies == r.alerts
    {
      ghost var x := Outcome(View(), earlier);
      anomalies := earlier;
      PairCases(world, x, track.id, point, other.id, now, d);
      if other.id == track.id {
        return;
      }
      if other.points == [] {
        return;
      }
      var last := other.points[|other.points| - 1];
      if Sub(point.observedAt, last.observedAt) > world.config.rendezvousMin || Sub(last.observedAt, point.observedAt) > world.config.rendezvousMin {
        Separate(track, other);
        return;
      }
      if world.distance(last.position, point.position) > world.config.rendezvousRadius {
        Separate(track, other);
        return;
      }
      anomalies := MeetPair(track, other, point, now, d, earlier);
    }

    // One turn of the pair loop, seen from the whole engine.
    method EvaluateTurn(track: Track, o: string, point: Point, now: int, d: Detection, earlier: seq<Anomaly>)
      returns (anomalies: seq<Anomaly>)
      requires Valid() && track.id in tracks && tracks[track.id] == track && o in tracks
      modifies tracks.Values
      ensures Valid()
      ensures Outcome(View(), anomalies)
           == FusionModel.EvaluatePair(world, Outcome(old(View()), earlier), track.id, point, o, now, d)
    {
      ghost var s := View();
      anomalies := EvaluatePair(track, tracks[o], point, now, d, earlier);
      Touched(s, track, tracks[o]);
      EvaluatePairExtent(world, Outcome(s, earlier), track.id, point, o, now, d);
    }

    // The pair loop of evaluateLocked.
    method EvaluateLoop(track: Track, point: Point, now: int, d: Detection, earlier: seq<Anomaly>)
      returns (anomalies: seq<Anomaly>, ghost order: seq<string>)
      requires Valid() && track.id in tracks && tracks[track.id] == track
      modifies tracks.Values
      ensures Valid() && Enumerates(order, tracks.Keys)
      ensures Outcome(View(), anomalies) == EvaluatePairs(world, Outcome(old(View()), earlier), track.id, point, order, now, d)
    {
      ghost var x := Outcome(View(), earlier);
      anomalies, order := earlier, [];
      var rest := tracks.Keys;
      while rest != {}
        invariant Valid() && rest <= tracks.Keys && Enumerates(order, tracks.Keys - rest)
        invariant Outcome(View(), anomalies) == EvaluatePairs(world, x, track.id, point, order, now, d)
      {
        var o :| o in rest;
        rest := rest - {o};
        anomalies := EvaluateTurn(track, o, point, now, d, anomalies);
        ghost var before := order;
        order := order + [o];
        assert order[..|order| - 1] == before;
      }
    }

    method Evaluate(track: Track, point: Point, now: int, d: Detection) returns (anomalies: seq<Anomaly>, ghost order: seq<string>)
      requires Valid() && track.id in tracks && tracks[track.id] == track && point == PointOf(d)
      modifies tracks.Values
      ensures Valid() && Enumerates(order, tracks.Keys)
      ensures Outcome(View(), anomalies) == FusionModel.Evaluate(world, old(View()), track.id, d, order, now)
    {
      hide EvaluatePairs, LoiteringZones, SpeedAlerts, LoiterAlerts, StepLoitering, PointOf;
      ghost var s := View();
      anomalies := SpeedRule(track, point, now, d);
      var loitering := LoiterRule(track, point, now, d);
      Touched(s, track, track);
      anomalies := anomalies + loitering;
      assert View().tracks == EvaluateAlone(world, s, track.id, point, now, d).state.tracks;
      anomalies, order := EvaluateLoop(track, point, now, d, anomalies);
    }

    // -------------------------------------------------------------------------
    // The public operations
    // -------------------------------------------------------------------------

    // Ingest once the track is known.
    method Process(track: Track, d: Detection, now: int) returns (anomalies: seq<Anomaly>, ghost order: seq<string>)
      requires Valid() && track.id in tracks && tracks[track.id] == track
      modifies `byMMSI, tracks.Values
      ensures Valid() && Enumerates(order, tracks.Keys)
      ensures Outcome(View(), anomalies)
           == FusionModel.Evaluate(world, Absorb(old(View()), track.id, d), track.id, d, order, now)
    {
      var point := Take(track, d);
      anomalies, order := Evaluate(track, point, now, d);
    }

    method Ingest(d: Detection, newID: string, now: int)
      returns (r: Result<(string, seq<Anomaly>), string>, ghost choice: Choice)
      requires Valid() && newID !in tracks && ReplayableID(newID)
      modifies this, tracks.Values
      ensures Valid() && fresh(tracks.Values - old(tracks.Values))
      ensures r.Ok? <==> Accepted(d)
      ensures r.Err? ==> View() == old(View())
      ensures r.Ok? ==>
                && choice.newID == newID && choice.now == now
                && Ingests(world, old(View()), d, choice, r.value.0, Outcome(View(), r.value.1))
    {
      choice := Choice(newID, [], [], now);
      if !Validate(d) {
        return Err("detection is not valid"), choice;
      }
      if !d.hasPosition {
        return Err("detections without a position cannot enter track fusion"), choice;
      }
      ghost var s := View();
      var track, associateOrder := Associate(d, newID);
      ghost var placed := View();
      var anomalies, pairOrder := Process(track, d, now);
      choice := Choice(newID, associateOrder, pairOrder, now);
      IngestsIntro(world, s, d, choice, track.id, placed, Outcome(View(), anomalies));
      r := Ok((track.id, anomalies));
    }

    // Replay once the track is known.
    method Reinstate(track: Track, d: Detection) returns (ghost order: seq<string>)
      requires Valid() && track.id in tracks && tracks[track.id] == track
      modifies `byMMSI, tracks.Values
      ensures Valid() && Enumerates(order, tracks.Keys)
      ensures View() == Restore(world, Absorb(old(View()), track.id, d), track.id, PointOf(d), order)
    {
      var point := Take(track, d);
      order := RestoreRuleState(track, point);
    }

    method Replay(id: string, d: Detection) returns (r: Result<(), string>, ghost order: seq<string>)
      requires Valid()
      modifies this, tracks.Values
      ensures Valid() && fresh(tracks.Values - old(tracks.Values))
      ensures r.Ok? <==> Accepted(d) && ReplayableID(id)
      ensures r.Err? ==> View() == old(View())
      ensures r.Ok? ==> Enumerates(order, old(View()).tracks.Keys + {id})
                        && View() == FusionModel.Replay(world, old(View()), id, d, order)
    {
      order := [];
      if !Validate(d) {
        return Err("detection is not valid"), order;
      }
      if !d.hasPosition {
        return Err("replayed association has no position"), order;
      }
      if Blank(id) || |id| > 128 {
        return Err("replay requires the persisted track identity"), order;
      }
      ghost var s := View();
      var track := PinTrack(id, d);
      order := Reinstate(track, d);
      ReplayIntro(world, s, id, d, order, View());
      r := Ok(());
    }

    // The start of Replay: the persisted identity is pinned.
    method PinTrack(id: string, d: Detection) returns (track: Track)
      requires Valid()
      modifies `tracks
      ensures Valid() && track.id == id && id in tracks && track == tracks[id]
      ensures fresh(tracks.Values - old(tracks.Values))
      ensures View() == Pinned(old(View()), id, d)
    {
      ghost var s := View();
      if id !in tracks {
        track := new Track(id, d.level);
        tracks := tracks[id := track];
        Added(s, id);
      }
      track := tracks[id];
    }

    method ScanDarkVessels(now: int) returns (anomalies: seq<Anomaly>, ghost order: seq<string>)
      requires Valid()
      modifies tracks.Values
      ensures Valid() && Enumerates(order, tracks.Keys)
      ensures Outcome(View(), anomalies) == Scan(world, old(View()), order, now)
    {
      ghost var s := View();
      anomalies, order := [], [];
      var rest := tracks.Keys;
      while rest != {}
        invariant Valid() && rest <= tracks.Keys && Enumerates(order, tracks.Keys - rest)
        invariant Outcome(View(), anomalies) == Scan(world, s, order, now)
      {
        var id :| id in rest;
        rest := rest - {id};
        anomalies := ScanOne(tracks[id], now, anomalies);
        ghost var before := order;
        order := order + [id];
        assert order[..|order| - 1] == before;
      }
    }

    // The body of the scan loop.
    method ScanOne(track: Track, now: int, earlier: seq<Anomaly>) returns (anomalies: seq<Anomaly>)
      requires Valid() && track.id in tracks && tracks[track.id] == track
      modifies track
      ensures Valid() && Outcome(View(), anomalies) == ScanTrack(world, Outcome(old(View()), earlier), track.id, now)
    {
      ghost var s := View();
      anomalies := earlier;
      if track.dark || track.mmsi == "" || track.lastAIS == 0 {
        return;
      }
      if track.points == [] || Sub(now, track.lastAIS) < world.config.darkGap {
        return;
      }
      var last := track.points[|track.points| - 1];
      var inside := Geo.ZonesContaining(last.position, world.zones);
      if |inside| == 0 {
        return;
      }
      track.dark := true;
      anomalies := anomalies + [Anomaly(DarkVessel, track.id, [track.id], inside[0].id, track.level, now, [])];
      assert View().tracks == s.tracks[track.id := s.tracks[track.id].(dark := true)];
    }
  }

  /** Entry times during the zone loop: old ones kept, new ones started. */
  ghost function Entered(enter: map<string, int>, inside: set<string>, p: Point): map<string, int> {
    map z | z in enter.Keys + inside :: if z in enter then enter[z] else p.observedAt
  }

  lemma RestrictedGrows(zones: seq<Geo.Zone>, i: nat, position: Geo.Position)
    requires i < |zones|
    ensures RestrictedAt(zones[..i + 1], position) == RestrictedAt(zones[..i], position)
              + if zones[i].kind == Geo.RestrictedArea && Geo.Inside(position, zones[i].vertices) then {zones[i].id} else {}
  {
    var shorter, longer := zones[..i], zones[..i + 1];
    forall z | z in RestrictedAt(longer, position)
      ensures z in RestrictedAt(shorter, position)
              || (z == zones[i].id && zones[i].kind == Geo.RestrictedArea && Geo.Inside(position, zones[i].vertices))
    {
      var k :| 0 <= k < |longer| && longer[k].kind == Geo.RestrictedArea && Geo.Inside(position, longer[k].vertices) && longer[k].id == z;
      if k < i {
        assert shorter[k] == longer[k];
      }
    }
    forall z | z in RestrictedAt(shorter, position) ensures z in RestrictedAt(longer, position) {
      var k :| 0 <= k < |shorter| && shorter[k].kind == Geo.RestrictedArea && Geo.Inside(position, shorter[k].vertices) && shorter[k].id == z;
      assert longer[k] == shorter[k];
    }
    assert longer[i] == zones[i];
  }

  lemma LoiterAlertsGrow(t: TrackState, id: string, fired: seq<string>, z: string, now: int, d: Detection)
    ensures LoiterAlerts(t, id, fired + [z], now, d)
         == LoiterAlerts(t, id, fired, now, d) + [Anomaly(Loitering, id, [id], z, t.level, now, d.correlationRefs)]
    ensures SetOf(fired + [z]) == SetOf(fired) + {z}
  {
    assert (fired + [z])[..|fired|] == fired;
    assert [id] + [] == [id];
  }

  lemma IngestsIntro(w: World, s: State, d: Detection, c: Choice, id: string, placed: State, out: Outcome)
    requires Enumerates(c.associateOrder, s.tracks.Keys) && c.newID !in s.tracks && ReplayableID(c.newID)
    requires var chosen := FusionModel.Associate(w, s, d, c.associateOrder);
             && id == (if chosen.Some? then chosen.value else c.newID)
             && placed == if chosen.Some? then s else AddTrack(s, c.newID, d)
    requires id in placed.tracks && Enumerates(c.pairOrder, placed.tracks.Keys)
    requires out == FusionModel.Evaluate(w, Absorb(placed, id, d), id, d, c.pairOrder, c.now)
    ensures Ingests(w, s, d, c, id, out)
  {
  }

  lemma ReplayIntro(w: World, s: State, id: string, d: Detection, order: seq<string>, r: State)
    requires id in Pinned(s, id, d).tracks && Enumerates(order, Pinned(s, id, d).tracks.Keys)
    requires r == Restore(w, Absorb(Pinned(s, id, d), id, d), id, PointOf(d), order)
    ensures Enumerates(order, s.tracks.Keys + {id}) && r == FusionModel.Replay(w, s, id, d, order)
  {
    assert Pinned(s, id, d).tracks.Keys == s.tracks.Keys + {id};
  }

  /** A finite set can be ranged over. */
  ghost function AnyOrder(keys: set<string>): (order: seq<string>)
    ensures Enumerates(order, keys)
  {
    if keys == {} then []
    else
      var k :| k in keys;
      AnyOrder(keys - {k}) + [k]
  }
}
