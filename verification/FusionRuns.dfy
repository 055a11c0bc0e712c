/** Runs of the fusion engine: any sequence of reports and scans, and what every state of a run keeps. */
module FusionRuns {
  import opened Base
  import opened Classification
  import opened FusionModel

  // ---------------------------------------------------------------------------
  // The pair loop does not depend on the map order, except for the labels of its alerts
  // ---------------------------------------------------------------------------

  /** The proximity recorded for the pair after a turn of the loop: since when, or not near. */
  function Met(w: World, s: State, id: string, p: Point, o: string): Option<int>
    requires id in s.tracks && o in s.tracks && s.tracks[o].points != []
  {
    if Near(w, Last(s.tracks[o]), p) then Some(Since(s.tracks[id], id, s.tracks[o], o, p)) else None
  }

  /** The other track after its turn. */
  function OtherAfter(w: World, s: State, id: string, p: Point, o: string): TrackState
    requires id in s.tracks && o in s.tracks
  {
    var u := s.tracks[o];
    if !Compares(s, id, o) then u
    else Linked(u, id, Met(w, s, id, p, o)).(rendezAlerted := if Meets(w, s, id, p, o) then u.rendezAlerted + {id} else u.rendezAlerted)
  }

  // The two halves of Turned: the other tracks, and the reporting track itself.
  ghost predicate TurnedOthers(w: World, s: State, x: State, id: string, p: Point, done: set<string>)
    requires id in s.tracks && done <= s.tracks.Keys
  {
    && x.tracks.Keys == s.tracks.Keys && x.byMMSI == s.byMMSI
    && forall o :: o in s.tracks && o != id ==> x.tracks[o] == if o in done then OtherAfter(w, s, id, p, o) else s.tracks[o]
  }

  ghost predicate TurnedSelf(w: World, s: State, t': TrackState, id: string, p: Point, done: set<string>)
    requires id in s.tracks && done <= s.tracks.Keys
  {
    var t := s.tracks[id];
    && t' == t.(nearSince := t'.nearSince, rendezAlerted := t'.rendezAlerted, level := t'.level)
    && (forall o :: o in t'.nearSince <==>
          if o in done && Compares(s, id, o) then Met(w, s, id, p, o).Some? else o in t.nearSince)
    && (forall o :: o in t'.nearSince ==>
          t'.nearSince[o] == if o in done && Compares(s, id, o) then Met(w, s, id, p, o).value else t.nearSince[o])
    && (forall o :: o in t'.rendezAlerted <==> o in t.rendezAlerted || (o in done && Meets(w, s, id, p, o)))
    && Rank(t'.level) >= Rank(t.level)
  }

  /** State x is s after the turns of the tracks in `done`, in whatever order. */
  ghost predicate Turned(w: World, s: State, x: State, id: string, p: Point, done: set<string>)
    requires id in s.tracks && done <= s.tracks.Keys
  {
    TurnedOthers(w, s, x, id, p, done) && TurnedSelf(w, s, x.tracks[id], id, p, done)
  }

  // What the turn of `o` does, from a state in which only other turns have been taken.
  lemma TurnEffect(w: World, s: State, x: Outcome, id: string, p: Point, done: set<string>, o: string, now: int, d: Detection)
    requires id in s.tracks && done <= s.tracks.Keys && o in s.tracks && o !in done
    requires Turned(w, s, x.state, id, p, done) && Compares(s, id, o)
    ensures var t, x', met := x.state.tracks[id], EvaluatePair(w, x, id, p, o, now, d).state, Met(w, s, id, p, o);
            && x'.tracks[o] == OtherAfter(w, s, id, p, o)
            && x'.tracks[id].nearSince == Linked(t, o, met).nearSince
            && x'.tracks[id].rendezAlerted == (if Meets(w, s, id, p, o) then t.rendezAlerted + {o} else t.rendezAlerted)
            && x'.tracks[id] == t.(nearSince := x'.tracks[id].nearSince, rendezAlerted := x'.tracks[id].rendezAlerted, level := x'.tracks[id].level)
            && Rank(x'.tracks[id].level) >= Rank(t.level)
  {
    assert x.state.tracks[o] == s.tracks[o];
    assert Since(x.state.tracks[id], id, s.tracks[o], o, p) == Since(s.tracks[id], id, s.tracks[o], o, p);
    assert Meets(w, x.state, id, p, o) == Meets(w, s, id, p, o);
    PairCases(w, x, id, p, o, now, d);
  }

  lemma TurnOthers(w: World, s: State, x: Outcome, id: string, p: Point, done: set<string>, o: string, now: int, d: Detection)
    requires id in s.tracks && done <= s.tracks.Keys && o in s.tracks && o !in done
    requires Turned(w, s, x.state, id, p, done)
    ensures TurnedOthers(w, s, EvaluatePair(w, x, id, p, o, now, d).state, id, p, done + {o})
  {
    if Compares(s, id, o) {
      TurnEffect(w, s, x, id, p, done, o, now, d);
      EvaluatePairExtent(w, x, id, p, o, now, d);
    }
  }

  lemma TurnSelf(w: World, s: State, t: TrackState, t': TrackState, id: string, p: Point, done: set<string>, o: string)
    requires id in s.tracks && done <= s.tracks.Keys && o in s.tracks && o !in done && Compares(s, id, o)
    requires TurnedSelf(w, s, t, id, p, done)
    requires t'.nearSince == Linked(t, o, Met(w, s, id, p, o)).nearSince
    requires t'.rendezAlerted == (if Meets(w, s, id, p, o) then t.rendezAlerted + {o} else t.rendezAlerted)
    requires t' == t.(nearSince := t'.nearSince, rendezAlerted := t'.rendezAlerted, level := t'.level)
    requires Rank(t'.level) >= Rank(t.level)
    ensures TurnedSelf(w, s, t', id, p, done + {o})
  {
  }

  lemma SelfSkipped(w: World, s: State, t: TrackState, id: string, p: Point, done: set<string>, o: string)
    requires id in s.tracks && done <= s.tracks.Keys && o in s.tracks && !Compares(s, id, o)
    requires TurnedSelf(w, s, t, id, p, done)
    ensures TurnedSelf(w, s, t, id, p, done + {o})
  {
    hide Met;
  }

  lemma TurnSkipped(w: World, s: State, x: Outcome, id: string, p: Point, done: set<string>, o: string, now: int, d: Detection)
    requires id in s.tracks && done <= s.tracks.Keys && o in s.tracks && o !in done && !Compares(s, id, o)
    requires Turned(w, s, x.state, id, p, done)
    ensures EvaluatePair(w, x, id, p, o, now, d) == x
  {
    assert o != id ==> x.state.tracks[o] == s.tracks[o];
    hide TurnedSelf, TurnedOthers, Meets, Met, Near;
    PairCases(w, x, id, p, o, now, d);
    hide EvaluatePair;
  }

  lemma TurnOne(w: World, s: State, x: Outcome, id: string, p: Point, done: set<string>, o: string, now: int, d: Detection)
    requires id in s.tracks && done <= s.tracks.Keys && o in s.tracks && o !in done
    requires Turned(w, s, x.state, id, p, done)
    ensures Turned(w, s, EvaluatePair(w, x, id, p, o, now, d).state, id, p, done + {o})
  {
    TurnOthers(w, s, x, id, p, done, o, now, d);
    if !Compares(s, id, o) {
      TurnSkipped(w, s, x, id, p, done, o, now, d);
      SelfSkipped(w, s, x.state.tracks[id], id, p, done, o);
      hide TurnedOthers, TurnedSelf, EvaluatePair, Meets, Met, Linked;
    } else {
      TurnEffect(w, s, x, id, p, done, o, now, d);
      hide TurnedOthers, TurnedSelf, EvaluatePair, Meets, Met, Linked, Compares;
      TurnSelf(w, s, x.state.tracks[id], EvaluatePair(w, x, id, p, o, now, d).state.tracks[id], id, p, done, o);
    }
  }

  lemma {:induction false} PairLoop(w: World, x: Outcome, id: string, p: Point, order: seq<string>, now: int, d: Detection)
    requires id in x.state.tracks && SetOf(order) <= x.state.tracks.Keys
    requires forall i, j :: 0 <= i < j < |order| ==> order[i] != order[j]
    ensures Turned(w, x.state, EvaluatePairs(w, x, id, p, order, now, d).state, id, p, SetOf(order))
    decreases |order|
  {
    if order != [] {
      var front, o := order[..|order| - 1], order[|order| - 1];
      assert SetOf(order) == SetOf(front) + {o};
      PairLoop(w, x, id, p, front, now, d);
      TurnOne(w, x.state, EvaluatePairs(w, x, id, p, front, now, d), id, p, SetOf(front), o, now, d);
    }
  }

  // ---------------------------------------------------------------------------
  // Runs
  // ---------------------------------------------------------------------------

  datatype Event =
    | Report(d: Detection, choice: Choice)
    | Sweep(order: seq<string>, now: int)

  datatype Association = Association(id: string, d: Detection)

  /** The state reached, the detections absorbed so far in order, and every alert emitted. */
  datatype Run = Run(state: State, log: seq<Association>, alerts: seq<Anomaly>)

  const START := Run(EMPTY, [], [])

  /** No MMSI points to a missing track. */
  ghost predicate Indexed(s: State) {
    forall m :: m in s.byMMSI ==> s.byMMSI[m] in s.tracks
  }

  /** What the environment promises: fresh identities, and map orders that list every key once. */
  ghost predicate LegalEvent(w: World, s: State, e: Event) {
    match e
    case Report(d, c) => Accepted(d) ==> LegalChoice(w, s, d, c)
    case Sweep(order, now) => Enumerates(order, s.tracks.Keys)
  }

  datatype Effect = Effect(out: Outcome, log: seq<Association>)

  /** What one event does. A report that Ingest refuses changes nothing. */
  ghost function EffectOf(w: World, s: State, e: Event): Effect {
    match e
    case Report(d, c) =>
      if Accepted(d) && LegalChoice(w, s, d, c) && Indexed(s)
      then Effect(Ingest(w, s, d, c), [Association(TargetOf(w, s, d, c), d)])
      else Effect(Outcome(s, []), [])
    case Sweep(order, now) =>
      if Enumerates(order, s.tracks.Keys) then Effect(Scan(w, s, order, now), []) else Effect(Outcome(s, []), [])
  }

  ghost function Step(w: World, r: Run, e: Event): Run {
    var f := EffectOf(w, r.state, e);
    Run(f.out.state, r.log + f.log, r.alerts + f.out.alerts)
  }

  ghost function Exec(w: World, r: Run, events: seq<Event>): Run {
    if events == [] then r
    else Step(w, Exec(w, r, events[..|events| - 1]), events[|events| - 1])
  }

  ghost predicate Legal(w: World, r: Run, events: seq<Event>) {
    events == [] || (
      && Legal(w, r, events[..|events| - 1])
      && LegalEvent(w, Exec(w, r, events[..|events| - 1]).state, events[|events| - 1]))
  }

  // ---------------------------------------------------------------------------
  // Every reachable state
  // ---------------------------------------------------------------------------

  ghost predicate PairSymmetric(s: State) {
    && (forall a, b :: a in s.tracks && b in s.tracks[a].nearSince ==>
          b != a && b in s.tracks && a in s.tracks[b].nearSince && s.tracks[b].nearSince[a] == s.tracks[a].nearSince[b])
    && (forall a, b :: a in s.tracks && b in s.tracks[a].rendezAlerted ==>
          b != a && b in s.tracks && a in s.tracks[b].rendezAlerted)
  }

  /**
    Every state of a run: every MMSI binding leads to a track carrying that MMSI, every track has a
    point and an approved label, and both kinds of pair bookkeeping are symmetric.
   */
  ghost predicate Inv(s: State) {
    && Indexed(s)
    && (forall m :: m in s.byMMSI ==> s.tracks[s.byMMSI[m]].mmsi == m && m != "")
    && (forall a :: a in s.tracks ==> s.tracks[a].points != [] && Known(s.tracks[a].level))
    && PairSymmetric(s)
  }

  /** The same before the new track has received its first point. */
  ghost predicate Opened(s: State, id: string) {
    && Indexed(s)
    && (forall m :: m in s.byMMSI ==> s.tracks[s.byMMSI[m]].mmsi == m && m != "")
    && (forall a :: a in s.tracks ==> (a == id || s.tracks[a].points != []) && Known(s.tracks[a].level))
    && PairSymmetric(s)
  }

  lemma AddedIsOpened(s: State, id: string, d: Detection)
    requires Inv(s) && id !in s.tracks && Known(d.level)
    ensures Opened(AddTrack(s, id, d), id)
  {
    hide PairSymmetric;
    AddedKeepsSymmetry(s, id, AddTrack(s, id, d));
  }

  lemma AddedKeepsSymmetry(s: State, id: string, x: State)
    requires PairSymmetric(s) && id !in s.tracks && id in x.tracks && x.tracks == s.tracks[id := x.tracks[id]]
    requires x.tracks[id].nearSince == map[] && x.tracks[id].rendezAlerted == {}
    ensures PairSymmetric(x)
  {
    forall a, b | a in x.tracks && b in x.tracks[a].nearSince
      ensures b != a && b in x.tracks && a in x.tracks[b].nearSince && x.tracks[b].nearSince[a] == x.tracks[a].nearSince[b]
    {
      assert b in s.tracks[a].nearSince;
    }
    forall a, b | a in x.tracks && b in x.tracks[a].rendezAlerted ensures b != a && b in x.tracks && a in x.tracks[b].rendezAlerted {
      assert b in s.tracks[a].rendezAlerted;
    }
  }

  lemma PlacedIsOpened(w: World, s: State, d: Detection, c: Choice)
    requires Inv(s) && Accepted(d) && LegalChoice(w, s, d, c)
    ensures Opened(Placed(w, s, d, c), TargetOf(w, s, d, c)) && TargetOf(w, s, d, c) in Placed(w, s, d, c).tracks
  {
    AddedIsOpened(s, c.newID, d);
    hide PairSymmetric, AddTrack;
    assert c.newID in AddTrack(s, c.newID, d).tracks by { AddedHasTrack(s, c.newID, d); }
  }

  lemma AddedHasTrack(s: State, id: string, d: Detection)
    ensures id in AddTrack(s, id, d).tracks
  {
  }

  lemma AbsorbKeepsInv(s: State, id: string, d: Detection)
    requires Opened(s, id) && id in s.tracks && Accepted(d)
    ensures Inv(Absorb(s, id, d))
  {
    var r := Absorb(s, id, d);
    assert r.tracks[id].points != [];
    forall m | m in r.byMMSI ensures r.byMMSI[m] in r.tracks && r.tracks[r.byMMSI[m]].mmsi == m && m != "" {
      if m in s.byMMSI && r.byMMSI[m] == s.byMMSI[m] && s.byMMSI[m] != id {
        assert s.tracks[s.byMMSI[m]].mmsi == m;
      }
    }
    assert PairSymmetric(r);
  }

  lemma AloneKeepsInv(w: World, s: State, id: string, p: Point, now: int, d: Detection)
    requires Inv(s) && id in s.tracks
    ensures Inv(EvaluateAlone(w, s, id, p, now, d).state)
  {
  }

  lemma TurnedKeepsProximity(w: World, s: State, x: State, id: string, p: Point, a: string, b: string)
    requires Inv(s) && id in s.tracks && Turned(w, s, x, id, p, s.tracks.Keys)
    requires a in x.tracks && b in x.tracks[a].nearSince
    ensures b != a && b in x.tracks && a in x.tracks[b].nearSince && x.tracks[b].nearSince[a] == x.tracks[a].nearSince[b]
  {
    hide Met, Meets, Near;
    if a == id {
      assert b in s.tracks && b != id;
      assert x.tracks[b] == OtherAfter(w, s, id, p, b);
    } else {
      assert x.tracks[a] == OtherAfter(w, s, id, p, a);
      if b != id {
        assert b in s.tracks[a].nearSince;
        assert x.tracks[b] == OtherAfter(w, s, id, p, b);
      }
    }
  }

  lemma TurnedKeepsLatches(w: World, s: State, x: State, id: string, p: Point, a: string, b: string)
    requires Inv(s) && id in s.tracks && Turned(w, s, x, id, p, s.tracks.Keys)
    requires a in x.tracks && b in x.tracks[a].rendezAlerted
    ensures b != a && b in x.tracks && a in x.tracks[b].rendezAlerted
  {
    hide Met, Near, Since, Sub;
    if a == id {
      assert b in s.tracks && b != id;
      assert x.tracks[b] == OtherAfter(w, s, id, p, b);
    } else {
      assert x.tracks[a] == OtherAfter(w, s, id, p, a);
      if b != id {
        assert b in s.tracks[a].rendezAlerted;
        assert x.tracks[b] == OtherAfter(w, s, id, p, b);
      }
    }
  }

  lemma TurnedKeepsSymmetry(w: World, s: State, x: State, id: string, p: Point)
    requires Inv(s) && id in s.tracks && Turned(w, s, x, id, p, s.tracks.Keys)
    ensures PairSymmetric(x)
  {
    hide Turned;
    forall a, b | a in x.tracks && b in x.tracks[a].nearSince
      ensures b != a && b in x.tracks && a in x.tracks[b].nearSince && x.tracks[b].nearSince[a] == x.tracks[a].nearSince[b]
    {
      TurnedKeepsProximity(w, s, x, id, p, a, b);
    }
    forall a, b | a in x.tracks && b in x.tracks[a].rendezAlerted
      ensures b != a && b in x.tracks && a in x.tracks[b].rendezAlerted
    {
      TurnedKeepsLatches(w, s, x, id, p, a, b);
    }
  }

  lemma TurnedKeepsInv(w: World, s: State, x: State, id: string, p: Point)
    requires Inv(s) && id in s.tracks && Turned(w, s, x, id, p, s.tracks.Keys)
    requires forall a :: a in x.tracks ==> Known(x.tracks[a].level)
    ensures Inv(x)
  {
    forall a | a in x.tracks ensures x.tracks[a].points == s.tracks[a].points && x.tracks[a].mmsi == s.tracks[a].mmsi {
      if a != id {
        assert x.tracks[a] == OtherAfter(w, s, id, p, a);
      }
    }
    assert PairSymmetric(x) by {
      TurnedKeepsSymmetry(w, s, x, id, p);
    }
  }

  lemma PairKeepsLabelsKnown(w: World, x: Outcome, id: string, p: Point, o: string, now: int, d: Detection)
    requires id in x.state.tracks && o in x.state.tracks
    requires forall a :: a in x.state.tracks ==> Known(x.state.tracks[a].level)
    ensures forall a :: a in x.state.tracks ==> Known(EvaluatePair(w, x, id, p, o, now, d).state.tracks[a].level)
  {
    PairCases(w, x, id, p, o, now, d);
    EvaluatePairExtent(w, x, id, p, o, now, d);
    hide EvaluatePair, Near, Since, Meets;
  }

  lemma {:induction false} PairsKeepLabelsKnown(w: World, x: Outcome, id: string, p: Point, order: seq<string>, now: int, d: Detection)
    requires id in x.state.tracks && forall o :: o in order ==> o in x.state.tracks
    requires forall a :: a in x.state.tracks ==> Known(x.state.tracks[a].level)
    ensures forall a :: a in x.state.tracks ==> Known(EvaluatePairs(w, x, id, p, order, now, d).state.tracks[a].level)
    decreases |order|
  {
    hide EvaluatePair;
    if order != [] {
      PairsKeepLabelsKnown(w, x, id, p, order[..|order| - 1], now, d);
      PairKeepsLabelsKnown(w, EvaluatePairs(w, x, id, p, order[..|order| - 1], now, d), id, p, order[|order| - 1], now, d);
    }
  }

  lemma EnumerationIsSet(order: seq<string>, keys: set<string>)
    requires Enumerates(order, keys)
    ensures SetOf(order) == keys
  {
  }

  lemma EvaluateKeepsInv(w: World, s: State, id: string, d: Detection, order: seq<string>, now: int)
    requires Inv(s) && id in s.tracks && Enumerates(order, s.tracks.Keys)
    ensures Inv(Evaluate(w, s, id, d, order, now).state)
  {
    var x, p := EvaluateAlone(w, s, id, PointOf(d), now, d), PointOf(d);
    AloneKeepsInv(w, s, id, p, now, d);
    EnumerationIsSet(order, s.tracks.Keys);
    PairLoop(w, x, id, p, order, now, d);
    PairsKeepLabelsKnown(w, x, id, p, order, now, d);
    TurnedKeepsInv(w, x.state, Evaluate(w, s, id, d, order, now).state, id, p);
  }

  lemma IngestKeepsInv(w: World, s: State, d: Detection, c: Choice)
    requires Inv(s) && Accepted(d) && LegalChoice(w, s, d, c)
    ensures TargetOf(w, s, d, c) in Placed(w, s, d, c).tracks && Inv(Ingest(w, s, d, c).state)
  {
    PlacedIsOpened(w, s, d, c);
    var id := TargetOf(w, s, d, c);
    AbsorbKeepsInv(Placed(w, s, d, c), id, d);
    EvaluateKeepsInv(w, Absorb(Placed(w, s, d, c), id, d), id, d, c.pairOrder, c.now);
  }

  // Setting the dark-vessel latch of one track.
  lemma DarkKeepsInv(s: State, id: string, x: State)
    requires Inv(s) && id in s.tracks && x == s.(tracks := s.tracks[id := s.tracks[id].(dark := true)])
    ensures Inv(x)
  {
    forall a | a in s.tracks ensures x.tracks[a] == s.tracks[a].(dark := x.tracks[a].dark) {
    }
    assert PairSymmetric(x);
  }

  lemma {:induction false} ScanKeepsInv(w: World, s: State, order: seq<string>, now: int)
    requires Inv(s) && forall id :: id in order ==> id in s.tracks
    ensures Inv(Scan(w, s, order, now).state)
    decreases |order|
  {
    if order != [] {
      var x, id := Scan(w, s, order[..|order| - 1], now), order[|order| - 1];
      ScanKeepsInv(w, s, order[..|order| - 1], now);
      var y := ScanTrack(w, x, id, now);
      if y != x {
        DarkKeepsInv(x.state, id, y.state);
      }
    }
  }

  lemma StepKeepsInv(w: World, r: Run, e: Event)
    requires Inv(r.state) && LegalEvent(w, r.state, e)
    ensures Inv(Step(w, r, e).state)
  {
    match e
    case Report(d, c) =>
      if Accepted(d) {
        IngestKeepsInv(w, r.state, d, c);
      }
    case Sweep(order, now) => ScanKeepsInv(w, r.state, order, now);
  }

  /** Every run from a sound state keeps the MMSI index sound and pair bookkeeping symmetric. */
  lemma {:induction false} ReachableStates(w: World, start: Run, events: seq<Event>)
    requires Inv(start.state) && Legal(w, start, events)
    ensures Inv(Exec(w, start, events).state)
    decreases |events|
  {
    if events != [] {
      ReachableStates(w, start, events[..|events| - 1]);
      StepKeepsInv(w, Exec(w, start, events[..|events| - 1]), events[|events| - 1]);
    }
  }
}
