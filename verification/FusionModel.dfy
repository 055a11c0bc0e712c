/**
  The state of internal/tracks/fusion.go as values, and what each of its methods does to it.
  Every function takes the order in which Go happens to range over a map as an argument.
 */
module FusionModel {
  import opened Base
  import opened Classification
  import Geo

  // ---------------------------------------------------------------------------
  // Time. A Time is nanoseconds since Go's zero time.Time, so 0 is the zero value.
  // ---------------------------------------------------------------------------

  const MIN_DURATION: int := -0x8000_0000_0000_0000
  const MAX_DURATION: int := 0x7fff_ffff_ffff_ffff
  const SECOND: int := 1_000_000_000
  const HOUR: int := 3600 * SECOND

  /** time.Time.Sub saturates at the ends of int64. */
  function Sub(a: int, b: int): int {
    if a - b < MIN_DURATION then MIN_DURATION
    else if a - b > MAX_DURATION then MAX_DURATION
    else a - b
  }

  /** Negating an int64 wraps at its minimum. */
  function Negate(d: int): int {
    if d == MIN_DURATION then MIN_DURATION else -d
  }

  // ---------------------------------------------------------------------------
  // Configuration and inputs
  // ---------------------------------------------------------------------------

  datatype Config = Config(
    correlationWindow: int, correlationRadius: real,
    rendezvousRadius: real, rendezvousMin: int,
    loiteringMin: int, darkGap: int, maxSpeedKnots: real)
  {
    predicate Validate() {
      && 0 < correlationWindow <= 24 * HOUR
      && 0.0 < correlationRadius <= 50000.0
      && 0.0 < rendezvousRadius <= 10000.0
      && 0 < rendezvousMin <= 24 * HOUR
      && 0 < loiteringMin <= 72 * HOUR
      && 0 < darkGap <= 168 * HOUR
      && 0.0 < maxSpeedKnots <= 102.2
    }
  }

  // The distance on the ground is a parameter; nothing below depends on how it is computed.
  datatype World = World(config: Config, zones: seq<Geo.Zone>, distance: (Geo.Position, Geo.Position) -> real)

  datatype Modality = AIS | SAR | RF | Acoustic | Optical

  datatype AisReport = AisReport(mmsi: string, speedKnots: real, headingDeg: real)

  // fieldsValid stands for the outcome of the remaining field-by-field checks of Detection.Validate.
  datatype Detection = Detection(
    sourceID: string, sourceEventID: string, modality: Modality, level: Label,
    observedAt: int, hasPosition: bool, position: Geo.Position,
    mmsi: string, ais: Option<AisReport>, correlationRefs: seq<string>, fieldsValid: bool)

  predicate IsMmsi(s: string) {
    |s| == 9 && forall i :: 0 <= i < 9 ==> IsDigit(s[i])
  }

  predicate Validate(d: Detection) {
    && d.fieldsValid
    && Known(d.level)
    && d.observedAt != 0
    && (d.hasPosition ==> Geo.ValidPosition(d.position))
    && (d.mmsi != "" ==> IsMmsi(d.mmsi))
    && (d.ais.Some? <==> d.modality == AIS)
    && (d.ais.Some? ==> IsMmsi(d.ais.value.mmsi))
  }

  /** Ingest and Replay take exactly these detections. */
  predicate Accepted(d: Detection) {
    Validate(d) && d.hasPosition
  }

  /** Replay also wants the persisted track identity. */
  predicate ReplayableID(id: string) {
    !Blank(id) && |id| <= 128
  }

  // ---------------------------------------------------------------------------
  // State
  // ---------------------------------------------------------------------------

  const MAX_POINTS := 4096

  datatype Point = Point(
    sourceID: string, sourceEventID: string, modality: Modality, observedAt: int,
    position: Geo.Position, speedKnots: real, headingDeg: real)

  datatype TrackState = TrackState(
    mmsi: string, level: Label, points: seq<Point>, lastAIS: int,
    zoneEnter: map<string, int>, loiterAlerted: set<string>,
    nearSince: map<string, int>, rendezAlerted: set<string>, dark: bool)

  datatype State = State(tracks: map<string, TrackState>, byMMSI: map<string, string>)

  const EMPTY := State(map[], map[])

  datatype Kind = DarkVessel | SpeedOutlier | Rendezvous | Loitering

  // The anomaly identity string is built from kind, owner and detectedAt.
  datatype Anomaly = Anomaly(
    kind: Kind, owner: string, trackIDs: seq<string>, zoneID: string,
    level: Label, detectedAt: int, correlationRefs: seq<string>)

  function Last(t: TrackState): Point
    requires t.points != []
  {
    t.points[|t.points| - 1]
  }

  function PointOf(d: Detection): Point {
    match d.ais
    case None => Point(d.sourceID, d.sourceEventID, d.modality, d.observedAt, d.position, 0.0, 0.0)
    case Some(a) => Point(d.sourceID, d.sourceEventID, d.modality, d.observedAt, d.position, a.speedKnots, a.headingDeg)
  }

  function NewTrack(level: Label): TrackState {
    TrackState("", level, [], 0, map[], {}, map[], {}, false)
  }

  // ---------------------------------------------------------------------------
  // associate
  // ---------------------------------------------------------------------------

  /** The gap test of associate: |a - b| against the window, with Go's duration arithmetic. */
  predicate WithinWindow(window: int, a: int, b: int) {
    var gap := Sub(a, b);
    (if gap < 0 then Negate(gap) else gap) <= window
  }

  /** A track the detection may join when no MMSI binding decides. */
  predicate Eligible(w: World, t: TrackState, d: Detection) {
    && !(d.mmsi != "" && t.mmsi != "" && t.mmsi != d.mmsi)
    && t.points != []
    && WithinWindow(w.config.correlationWindow, d.observedAt, Last(t).observedAt)
  }

  function Gap(w: World, t: TrackState, d: Detection): real
    requires t.points != []
  {
    w.distance(Last(t).position, d.position)
  }

  datatype Best = Best(id: Option<string>, distance: real)

  function Consider(w: World, s: State, d: Detection, best: Best, id: string): Best
    requires id in s.tracks
  {
    if Eligible(w, s.tracks[id], d) && Gap(w, s.tracks[id], d) <= best.distance
    then Best(Some(id), Gap(w, s.tracks[id], d))
    else best
  }

  /** The running best after ranging over `order`. */
  function Nearest(w: World, s: State, d: Detection, order: seq<string>): (r: Best)
    requires forall id :: id in order ==> id in s.tracks
    ensures r.id.Some? ==> r.id.value in s.tracks
  {
    if order == [] then Best(None, w.config.correlationRadius)
    else Consider(w, s, d, Nearest(w, s, d, order[..|order| - 1]), order[|order| - 1])
  }

  /** The existing track a detection goes to, or None when a fresh one is needed. */
  function Associate(w: World, s: State, d: Detection, order: seq<string>): Option<string>
    requires forall id :: id in order ==> id in s.tracks
  {
    if d.mmsi != "" && d.mmsi in s.byMMSI then Some(s.byMMSI[d.mmsi])
    else Nearest(w, s, d, order).id
  }

  /** A fresh track, bound to the detection's MMSI when it has one. */
  function AddTrack(s: State, id: string, d: Detection): State {
    State(s.tracks[id := NewTrack(d.level).(mmsi := d.mmsi)],
          if d.mmsi != "" then s.byMMSI[d.mmsi := id] else s.byMMSI)
  }

  // ---------------------------------------------------------------------------
  // absorbPointLocked
  // ---------------------------------------------------------------------------

  function Keep<T>(points: seq<T>): seq<T> {
    if |points| > MAX_POINTS then points[|points| - MAX_POINTS..] else points
  }

  function AisMmsi(t: TrackState, d: Detection): string {
    if d.ais.Some? && t.mmsi == "" then d.ais.value.mmsi else t.mmsi
  }

  function AbsorbTrack(t: TrackState, d: Detection): TrackState {
    var mmsi := AisMmsi(t, d);
    t.(
      mmsi := if d.mmsi != "" && mmsi == "" then d.mmsi else mmsi,
      level := Max(t.level, d.level),
      points := Keep(t.points + [PointOf(d)]),
      lastAIS := if d.ais.Some? then d.observedAt else t.lastAIS,
      dark := if d.ais.Some? && d.observedAt >= t.lastAIS then false else t.dark)
  }

  function AbsorbIndex(byMMSI: map<string, string>, t: TrackState, id: string, d: Detection): map<string, string> {
    var first := if d.ais.Some? && t.mmsi == "" then byMMSI[d.ais.value.mmsi := id] else byMMSI;
    if d.mmsi != "" && AisMmsi(t, d) == "" then first[d.mmsi := id] else first
  }

  function Absorb(s: State, id: string, d: Detection): State
    requires id in s.tracks
  {
    State(s.tracks[id := AbsorbTrack(s.tracks[id], d)], AbsorbIndex(s.byMMSI, s.tracks[id], id, d))
  }

  // ---------------------------------------------------------------------------
  // Zone clocks
  // ---------------------------------------------------------------------------

  ghost function RestrictedAt(zones: seq<Geo.Zone>, position: Geo.Position): set<string> {
    set k | 0 <= k < |zones| && zones[k].kind == Geo.RestrictedArea && Geo.Inside(position, zones[k].vertices) :: zones[k].id
  }

  /** Entry times after a report at `position`: kept inside, started on entry, dropped on leaving. */
  ghost function ZoneClock(w: World, enter: map<string, int>, p: Point): map<string, int> {
    map z | z in RestrictedAt(w.zones, p.position) :: if z in enter then enter[z] else p.observedAt
  }

  ghost function StepZones(w: World, s: State, id: string, p: Point): State
    requires id in s.tracks
  {
    s.(tracks := s.tracks[id := s.tracks[id].(zoneEnter := ZoneClock(w, s.tracks[id].zoneEnter, p))])
  }

  // ---------------------------------------------------------------------------
  // Pair proximity
  // ---------------------------------------------------------------------------

  predicate Near(w: World, last: Point, p: Point) {
    && Sub(p.observedAt, last.observedAt) <= w.config.rendezvousMin
    && Sub(last.observedAt, p.observedAt) <= w.config.rendezvousMin
    && w.distance(last.position, p.position) <= w.config.rendezvousRadius
  }

  /** When the pair came together, for a new point p of track t near the last point of track u. */
  function Since(t: TrackState, id: string, u: TrackState, o: string, p: Point): int
    requires u.points != []
  {
    if o in t.nearSince && id in u.nearSince then
      if u.nearSince[id] < t.nearSince[o] then u.nearSince[id] else t.nearSince[o]
    else if o in t.nearSince then t.nearSince[o]
    else if id in u.nearSince then u.nearSince[id]
    else if Last(u).observedAt < p.observedAt then Last(u).observedAt
    else p.observedAt
  }

  function Linked(t: TrackState, o: string, since: Option<int>): TrackState {
    match since
    case None => t.(nearSince := t.nearSince - {o})
    case Some(time) => t.(nearSince := t.nearSince[o := time])
  }

  predicate Compares(s: State, id: string, o: string)
    requires o in s.tracks
  {
    o != id && s.tracks[o].points != []
  }

  /** One turn of the pair loop in restoreRuleStateLocked: track `id` just reported p, compare it with `o`. */
  function StepPair(w: World, s: State, id: string, p: Point, o: string): (r: State)
    requires id in s.tracks && o in s.tracks
    ensures r.tracks.Keys == s.tracks.Keys
  {
    if !Compares(s, id, o) then s
    else
      var t, u := s.tracks[id], s.tracks[o];
      var since := if Near(w, Last(u), p) then Some(Since(t, id, u, o, p)) else None;
      s.(tracks := s.tracks[id := Linked(t, o, since)][o := Linked(u, id, since)])
  }

  function RestorePairs(w: World, s: State, id: string, p: Point, order: seq<string>): (r: State)
    requires id in s.tracks && forall o :: o in order ==> o in s.tracks
    ensures r.tracks.Keys == s.tracks.Keys
  {
    if order == [] then s
    else StepPair(w, RestorePairs(w, s, id, p, order[..|order| - 1]), id, p, order[|order| - 1])
  }

  // ---------------------------------------------------------------------------
  // Alerts
  // ---------------------------------------------------------------------------

  datatype Outcome = Outcome(state: State, alerts: seq<Anomaly>)

  function Alert(kind: Kind, id: string, others: seq<string>, zone: string, level: Label, now: int, d: Detection): Anomaly {
    Anomaly(kind, id, [id] + others, zone, level, now, d.correlationRefs)
  }

  /** Implied leg speed above the baseline, in knots. */
  predicate TooFast(w: World, previous: Point, p: Point) {
    var gap := Sub(p.observedAt, previous.observedAt);
    && gap > 0
    && w.distance(previous.position, p.position) / (gap as real / SECOND as real) * 1.94384 > w.config.maxSpeedKnots
  }

  function SpeedAlerts(w: World, t: TrackState, id: string, p: Point, now: int, d: Detection): seq<Anomaly> {
    if |t.points| >= 2 && TooFast(w, t.points[|t.points| - 2], p)
    then [Alert(SpeedOutlier, id, [], "", t.level, now, d)]
    else []
  }

  /** The zone may alert: inside it, clock long enough, latch clear. */
  ghost predicate Loiters(w: World, t: TrackState, p: Point, zone: Geo.Zone) {
    && zone.kind == Geo.RestrictedArea
    && Geo.Inside(p.position, zone.vertices)
    && zone.id !in t.loiterAlerted
    && Sub(p.observedAt, if zone.id in t.zoneEnter then t.zoneEnter[zone.id] else p.observedAt) >= w.config.loiteringMin
  }

  /** The zones of a prefix of the zone list that alert, in list order; t is the track before the loop. */
  ghost function LoiteringZones(w: World, t: TrackState, p: Point, zones: seq<Geo.Zone>): (r: seq<string>)
  {
    if zones == [] then []
    else
      var before, zone := LoiteringZones(w, t, p, zones[..|zones| - 1]), zones[|zones| - 1];
      if Loiters(w, t, p, zone) && zone.id !in before then before + [zone.id] else before
  }

  function SetOf(s: seq<string>): set<string> {
    set x | x in s
  }

  ghost function StepLoitering(w: World, t: TrackState, p: Point): TrackState {
    t.(zoneEnter := ZoneClock(w, t.zoneEnter, p),
       loiterAlerted := t.loiterAlerted + SetOf(LoiteringZones(w, t, p, w.zones)))
  }

  function LoiterAlerts(t: TrackState, id: string, zones: seq<string>, now: int, d: Detection): seq<Anomaly> {
    if zones == [] then []
    else
      LoiterAlerts(t, id, zones[..|zones| - 1], now, d)
      + [Alert(Loitering, id, [], zones[|zones| - 1], t.level, now, d)]
  }

  /** The rendezvous rule fires for `o` in the pair loop, given the state before its turn. */
  predicate Meets(w: World, s: State, id: string, p: Point, o: string)
    requires id in s.tracks && o in s.tracks
  {
    && Compares(s, id, o)
    && Near(w, Last(s.tracks[o]), p)
    && o !in s.tracks[id].rendezAlerted
    && Sub(p.observedAt, Since(s.tracks[id], id, s.tracks[o], o, p)) >= w.config.rendezvousMin
  }

  /** Set both latches and raise the label of the reporting track. */
  function Latch(s: State, id: string, o: string): State
    requires id in s.tracks && o in s.tracks && o != id
  {
    var t, u := s.tracks[id], s.tracks[o];
    s.(tracks := s.tracks
        [id := t.(rendezAlerted := t.rendezAlerted + {o}, level := Max(t.level, u.level))]
        [o := u.(rendezAlerted := u.rendezAlerted + {id})])
  }

  /** One turn of the pair loop in evaluateLocked. */
  function EvaluatePair(w: World, x: Outcome, id: string, p: Point, o: string, now: int, d: Detection): (r: Outcome)
    requires id in x.state.tracks && o in x.state.tracks
    ensures r.state.tracks.Keys == x.state.tracks.Keys
  {
    var s := StepPair(w, x.state, id, p, o);
    if Meets(w, x.state, id, p, o) then
      var s' := Latch(s, id, o);
      Outcome(s', x.alerts + [Alert(Rendezvous, id, [o], "", s'.tracks[id].level, now, d)])
    else Outcome(s, x.alerts)
  }

  /** The three outcomes of one turn of the pair loop, track by track. */
  lemma PairCases(w: World, x: Outcome, id: string, p: Point, o: string, now: int, d: Detection)
    requires id in x.state.tracks && o in x.state.tracks
    ensures var r := EvaluatePair(w, x, id, p, o, now, d);
            var t, u := x.state.tracks[id], x.state.tracks[o];
            if !Compares(x.state, id, o) then r == x
            else if !Near(w, Last(u), p) then
              r.state.tracks[id] == Linked(t, o, None) && r.state.tracks[o] == Linked(u, id, None) && r.alerts == x.alerts
            else
              var since := Some(Since(t, id, u, o, p));
              if Meets(w, x.state, id, p, o) then
                && r.state.tracks[id] == Linked(t, o, since).(rendezAlerted := t.rendezAlerted + {o}, level := Max(t.level, u.level))
                && r.state.tracks[o] == Linked(u, id, since).(rendezAlerted := u.rendezAlerted + {id})
                && r.alerts == x.alerts + [Anomaly(Rendezvous, id, [id, o], "", Max(t.level, u.level), now, d.correlationRefs)]
              else
                && r.state.tracks[id] == Linked(t, o, since) && r.state.tracks[o] == Linked(u, id, since) && r.alerts == x.alerts
  {
    assert [id] + [o] == [id, o];
  }

  lemma StepPairExtent(w: World, s: State, id: string, p: Point, o: string)
    requires id in s.tracks && o in s.tracks
    ensures var r := StepPair(w, s, id, p, o);
            r.byMMSI == s.byMMSI && r.tracks == s.tracks[id := r.tracks[id]][o := r.tracks[o]]
  {
  }

  lemma EvaluatePairExtent(w: World, x: Outcome, id: string, p: Point, o: string, now: int, d: Detection)
    requires id in x.state.tracks && o in x.state.tracks
    ensures var r := EvaluatePair(w, x, id, p, o, now, d).state;
            r.byMMSI == x.state.byMMSI && r.tracks == x.state.tracks[id := r.tracks[id]][o := r.tracks[o]]
  {
    StepPairExtent(w, x.state, id, p, o);
  }

  function EvaluatePairs(w: World, x: Outcome, id: string, p: Point, order: seq<string>, now: int, d: Detection): (r: Outcome)
    requires id in x.state.tracks && forall o :: o in order ==> o in x.state.tracks
    ensures r.state.tracks.Keys == x.state.tracks.Keys
  {
    if order == [] then x
    else EvaluatePair(w, EvaluatePairs(w, x, id, p, order[..|order| - 1], now, d), id, p, order[|order| - 1], now, d)
  }

  /** evaluateLocked up to the pair loop: speed, then loitering. */
  ghost function EvaluateAlone(w: World, s: State, id: string, p: Point, now: int, d: Detection): Outcome
    requires id in s.tracks
  {
    var t := s.tracks[id];
    Outcome(s.(tracks := s.tracks[id := StepLoitering(w, t, p)]),
            SpeedAlerts(w, t, id, p, now, d)
            + LoiterAlerts(t, id, LoiteringZones(w, t, p, w.zones), now, d))
  }

  ghost function Evaluate(w: World, s: State, id: string, d: Detection, order: seq<string>, now: int): (r: Outcome)
    requires id in s.tracks && forall o :: o in order ==> o in s.tracks
    ensures r.state.tracks.Keys == s.tracks.Keys
  {
    EvaluatePairs(w, EvaluateAlone(w, s, id, PointOf(d), now, d), id, PointOf(d), order, now, d)
  }

  ghost function Restore(w: World, s: State, id: string, p: Point, order: seq<string>): (r: State)
    requires id in s.tracks && forall o :: o in order ==> o in s.tracks
    ensures r.tracks.Keys == s.tracks.Keys
  {
    RestorePairs(w, StepZones(w, s, id, p), id, p, order)
  }

  // ---------------------------------------------------------------------------
  // The public operations
  // ---------------------------------------------------------------------------

  /** Everything about one call of Ingest that the code leaves to its environment. */
  datatype Choice = Choice(newID: string, associateOrder: seq<string>, pairOrder: seq<string>, now: int)

  ghost predicate LegalChoice(w: World, s: State, d: Detection, c: Choice) {
    && Enumerates(c.associateOrder, s.tracks.Keys)
    && c.newID !in s.tracks && ReplayableID(c.newID)
    && Enumerates(c.pairOrder, Placed(w, s, d, c).tracks.Keys)
  }

  /** The track the detection ends up in. */
  function TargetOf(w: World, s: State, d: Detection, c: Choice): string
    requires forall id :: id in c.associateOrder ==> id in s.tracks
  {
    match Associate(w, s, d, c.associateOrder)
    case Some(id) => id
    case None => c.newID
  }

  /** The state after associate. */
  function Placed(w: World, s: State, d: Detection, c: Choice): State
    requires forall id :: id in c.associateOrder ==> id in s.tracks
  {
    if Associate(w, s, d, c.associateOrder).Some? then s else AddTrack(s, c.newID, d)
  }

  ghost function Ingest(w: World, s: State, d: Detection, c: Choice): Outcome
    requires LegalChoice(w, s, d, c) && TargetOf(w, s, d, c) in Placed(w, s, d, c).tracks
  {
    var id := TargetOf(w, s, d, c);
    Evaluate(w, Absorb(Placed(w, s, d, c), id, d), id, d, c.pairOrder, c.now)
  }

  /** One successful call of Ingest: the detection went to track id with this outcome. */
  ghost predicate Ingests(w: World, s: State, d: Detection, c: Choice, id: string, out: Outcome) {
    && LegalChoice(w, s, d, c)
    && id == TargetOf(w, s, d, c) && id in Placed(w, s, d, c).tracks
    && out == Ingest(w, s, d, c)
  }

  /** The state Replay absorbs into. */
  function Pinned(s: State, id: string, d: Detection): State {
    if id in s.tracks then s else s.(tracks := s.tracks[id := NewTrack(d.level)])
  }

  ghost function Replay(w: World, s: State, id: string, d: Detection, order: seq<string>): State
    requires Enumerates(order, s.tracks.Keys + {id})
  {
    Restore(w, Absorb(Pinned(s, id, d), id, d), id, PointOf(d), order)
  }

  /** The dark-vessel rule for one track. */
  ghost predicate GoesDark(w: World, t: TrackState, now: int) {
    && !t.dark && t.mmsi != "" && t.lastAIS != 0
    && t.points != []
    && Sub(now, t.lastAIS) >= w.config.darkGap
    && Geo.Containing(Last(t).position, w.zones) != []
  }

  ghost function ScanTrack(w: World, x: Outcome, id: string, now: int): (r: Outcome)
    requires id in x.state.tracks
    ensures r.state.tracks.Keys == x.state.tracks.Keys
  {
    var t := x.state.tracks[id];
    if GoesDark(w, t, now) then
      Outcome(x.state.(tracks := x.state.tracks[id := t.(dark := true)]),
              x.alerts + [Anomaly(DarkVessel, id, [id], Geo.Containing(Last(t).position, w.zones)[0].id, t.level, now, [])])
    else x
  }

  /** ScanDarkVessels, ranging over `order`. */
  ghost function Scan(w: World, s: State, order: seq<string>, now: int): (r: Outcome)
    requires forall id :: id in order ==> id in s.tracks
    ensures r.state.tracks.Keys == s.tracks.Keys
  {
    if order == [] then Outcome(s, [])
    else ScanTrack(w, Scan(w, s, order[..|order| - 1], now), order[|order| - 1], now)
  }
}
