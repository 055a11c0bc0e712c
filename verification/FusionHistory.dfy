/**
  What the incremental state of the fusion engine means in terms of the full history of a run:
  points, labels, zone clocks and rendezvous clocks.
 */
module FusionHistory {
  import opened Base
  import opened Classification
  import opened FusionModel
  import opened FusionRuns
  import opened FusionReplay
  import opened FusionRestart

  // ---------------------------------------------------------------------------
  // The effect of one report, track by track
  // ---------------------------------------------------------------------------

  /** The reporting track before it absorbs the detection. */
  function Before(s: State, id: string, d: Detection): TrackState {
    if id in s.tracks then s.tracks[id] else NewTrack(d.level).(mmsi := d.mmsi)
  }

  /** After a report to track id: the other tracks change in their pair bookkeeping only. */
  ghost predicate Reported(w: World, s: State, x: State, id: string, d: Detection) {
    && x.tracks.Keys == s.tracks.Keys + {id}
    && (forall a :: a in s.tracks && a != id ==>
          x.tracks[a] == s.tracks[a].(nearSince := x.tracks[a].nearSince, rendezAlerted := x.tracks[a].rendezAlerted))
    && var t, t' := AbsorbTrack(Before(s, id, d), d), x.tracks[id];
       && t' == t.(zoneEnter := ZoneClock(w, t.zoneEnter, PointOf(d)), loiterAlerted := t'.loiterAlerted,
                   nearSince := t'.nearSince, rendezAlerted := t'.rendezAlerted, level := t'.level)
       && Rank(t'.level) >= Rank(t.level)
  }

  /** When the pair came together, as both tracks record it. */
  function Recorded(s: State, a: string, b: string): Option<int> {
    if a in s.tracks && b in s.tracks[a].nearSince then Some(s.tracks[a].nearSince[b]) else None
  }

  function Earlier(a: int, b: int): int {
    if a < b then a else b
  }

  /** The record of the pair (id, o) after a report p of id. */
  function RecordAfter(w: World, s: State, id: string, p: Point, o: string): Option<int> {
    if o !in s.tracks || s.tracks[o].points == [] || !Near(w, Last(s.tracks[o]), p) then None
    else if Recorded(s, id, o).Some? then Recorded(s, id, o)
    else Some(Earlier(Last(s.tracks[o]).observedAt, p.observedAt))
  }

  /** After a report to track id: records of other pairs are untouched. */
  ghost predicate Rerecorded(w: World, s: State, x: State, id: string, p: Point) {
    forall a, b :: a != b ==>
      Recorded(x, a, b) == if a == id then RecordAfter(w, s, id, p, b) else if b == id then RecordAfter(w, s, id, p, a) else Recorded(s, a, b)
  }

  // The state just before the pair loop of a report.
  ghost function BeforePairs(w: World, s: State, d: Detection, c: Choice): State
    requires LegalChoice(w, s, d, c) && TargetOf(w, s, d, c) in Placed(w, s, d, c).tracks
  {
    var id := TargetOf(w, s, d, c);
    EvaluateAlone(w, Absorb(Placed(w, s, d, c), id, d), id, PointOf(d), c.now, d).state
  }

  lemma BeforePairsEffect(w: World, s: State, d: Detection, c: Choice)
    requires Inv(s) && Accepted(d) && LegalChoice(w, s, d, c)
    ensures var id := TargetOf(w, s, d, c);
            && id in Placed(w, s, d, c).tracks
            && var y := BeforePairs(w, s, d, c);
            && y.tracks.Keys == s.tracks.Keys + {id}
            && (forall a :: a in s.tracks && a != id ==> y.tracks[a] == s.tracks[a])
            && y.tracks[id] == StepLoitering(w, AbsorbTrack(Before(s, id, d), d), PointOf(d))
            && y.byMMSI == Absorb(Placed(w, s, d, c), id, d).byMMSI
            && Inv(y)
  {
    hide PairSymmetric, ZoneClock, LoiteringZones;
    PlacedIsOpened(w, s, d, c);
    var id := TargetOf(w, s, d, c);
    AbsorbKeepsInv(Placed(w, s, d, c), id, d);
    AloneKeepsInv(w, Absorb(Placed(w, s, d, c), id, d), id, PointOf(d), c.now, d);
  }

  lemma IngestTurns(w: World, s: State, d: Detection, c: Choice)
    requires Inv(s) && Accepted(d) && LegalChoice(w, s, d, c)
    ensures TargetOf(w, s, d, c) in Placed(w, s, d, c).tracks && Inv(Ingest(w, s, d, c).state)
    ensures var id, y := TargetOf(w, s, d, c), BeforePairs(w, s, d, c);
            id in y.tracks && Turned(w, y, Ingest(w, s, d, c).state, id, PointOf(d), y.tracks.Keys)
  {
    BeforePairsEffect(w, s, d, c);
    IngestKeepsInv(w, s, d, c);
    var id := TargetOf(w, s, d, c);
    var y := EvaluateAlone(w, Absorb(Placed(w, s, d, c), id, d), id, PointOf(d), c.now, d);
    EnumerationIsSet(c.pairOrder, y.state.tracks.Keys);
    PairLoop(w, y, id, PointOf(d), c.pairOrder, c.now, d);
  }

  lemma IngestReported(w: World, s: State, d: Detection, c: Choice)
    requires Inv(s) && Accepted(d) && LegalChoice(w, s, d, c)
    ensures TargetOf(w, s, d, c) in Placed(w, s, d, c).tracks
    ensures Reported(w, s, Ingest(w, s, d, c).state, TargetOf(w, s, d, c), d)
  {
    BeforePairsEffect(w, s, d, c);
    IngestTurns(w, s, d, c);
    TurnedReported(w, s, BeforePairs(w, s, d, c), Ingest(w, s, d, c).state, TargetOf(w, s, d, c), d);
  }

  lemma TurnedReported(w: World, s: State, y: State, x: State, id: string, d: Detection)
    requires y.tracks.Keys == s.tracks.Keys + {id}
    requires forall a :: a in s.tracks && a != id ==> y.tracks[a] == s.tracks[a]
    requires y.tracks[id] == StepLoitering(w, AbsorbTrack(Before(s, id, d), d), PointOf(d))
    requires Turned(w, y, x, id, PointOf(d), y.tracks.Keys)
    ensures Reported(w, s, x, id, d)
  {
    forall a | a in s.tracks && a != id
      ensures x.tracks[a] == s.tracks[a].(nearSince := x.tracks[a].nearSince, rendezAlerted := x.tracks[a].rendezAlerted)
    {
      assert x.tracks[a] == OtherAfter(w, y, id, PointOf(d), a);
    }
  }

  // With symmetric records, the code's choice between the two records is the record, if any.
  lemma SinceIsRecord(w: World, y: State, id: string, p: Point, o: string)
    requires PairSymmetric(y) && id in y.tracks && o in y.tracks && o != id && y.tracks[o].points != []
    ensures Met(w, y, id, p, o) == if !Near(w, Last(y.tracks[o]), p) then None
                                   else if Recorded(y, id, o).Some? then Recorded(y, id, o)
                                   else Some(Earlier(Last(y.tracks[o]).observedAt, p.observedAt))
  {
    if id in y.tracks[o].nearSince {
      assert o in y.tracks[id].nearSince;
    }
  }

  lemma TurnedRecord(w: World, y: State, x: State, id: string, p: Point, o: string)
    requires Inv(y) && id in y.tracks && o != id
    requires Turned(w, y, x, id, p, y.tracks.Keys)
    ensures Recorded(x, id, o) == RecordAfter(w, y, id, p, o)
  {
    if o in y.tracks {
      assert Compares(y, id, o);
      SinceIsRecord(w, y, id, p, o);
    }
  }

  lemma SameRecordAfter(w: World, s: State, y: State, id: string, p: Point, o: string)
    requires PairSymmetric(s) && y.tracks.Keys == s.tracks.Keys + {id} && o != id
    requires forall a :: a in s.tracks && a != id ==> y.tracks[a] == s.tracks[a]
    requires y.tracks[id].nearSince == (if id in s.tracks then s.tracks[id].nearSince else map[])
    ensures RecordAfter(w, y, id, p, o) == RecordAfter(w, s, id, p, o)
  {
  }

  lemma RecordedIsSymmetric(s: State, a: string, b: string)
    requires Inv(s)
    ensures Recorded(s, a, b) == Recorded(s, b, a)
  {
  }

  lemma UntouchedRecord(w: World, s: State, y: State, x: State, id: string, d: Detection, a: string, b: string)
    requires y.tracks.Keys == s.tracks.Keys + {id} && a != b && a != id && b != id
    requires forall a :: a in s.tracks && a != id ==> y.tracks[a] == s.tracks[a]
    requires Turned(w, y, x, id, PointOf(d), y.tracks.Keys)
    ensures Recorded(x, a, b) == Recorded(s, a, b)
  {
    if a in s.tracks {
      assert x.tracks[a] == OtherAfter(w, y, id, PointOf(d), a);
    }
  }

  lemma IngestRerecords(w: World, s: State, d: Detection, c: Choice)
    requires Inv(s) && Accepted(d) && LegalChoice(w, s, d, c)
    ensures TargetOf(w, s, d, c) in Placed(w, s, d, c).tracks
    ensures Rerecorded(w, s, Ingest(w, s, d, c).state, TargetOf(w, s, d, c), PointOf(d))
  {
    BeforePairsEffect(w, s, d, c);
    IngestTurns(w, s, d, c);
    TurnedRerecords(w, s, BeforePairs(w, s, d, c), Ingest(w, s, d, c).state, TargetOf(w, s, d, c), d);
  }

  lemma TurnedRerecords(w: World, s: State, y: State, x: State, id: string, d: Detection)
    requires Inv(s) && Inv(y) && Inv(x) && y.tracks.Keys == s.tracks.Keys + {id}
    requires forall a :: a in s.tracks && a != id ==> y.tracks[a] == s.tracks[a]
    requires y.tracks[id].nearSince == (if id in s.tracks then s.tracks[id].nearSince else map[])
    requires Turned(w, y, x, id, PointOf(d), y.tracks.Keys)
    ensures Rerecorded(w, s, x, id, PointOf(d))
  {
    var p := PointOf(d);
    forall a, b | a != b
      ensures Recorded(x, a, b) == if a == id then RecordAfter(w, s, id, p, b) else if b == id then RecordAfter(w, s, id, p, a) else Recorded(s, a, b)
    {
      if a == id {
        TurnedRecord(w, y, x, id, p, b);
        SameRecordAfter(w, s, y, id, p, b);
      } else if b == id {
        TurnedRecord(w, y, x, id, p, a);
        SameRecordAfter(w, s, y, id, p, a);
        RecordedIsSymmetric(x, a, b);
      } else {
        UntouchedRecord(w, s, y, x, id, d, a, b);
      }
    }
  }

  // ---------------------------------------------------------------------------
  // The effect of one replayed association
  // ---------------------------------------------------------------------------

  lemma {:induction false} RestoreOnlyNear(w: World, s: State, id: string, p: Point, order: seq<string>)
    requires id in s.tracks && forall o :: o in order ==> o in s.tracks
    ensures var x := RestorePairs(w, s, id, p, order);
            forall a :: a in s.tracks ==> x.tracks[a] == s.tracks[a].(nearSince := x.tracks[a].nearSince)
    decreases |order|
  {
    if order != [] {
      var front, o := order[..|order| - 1], order[|order| - 1];
      RestoreOnlyNear(w, s, id, p, front);
      OnlyNearStep(w, RestorePairs(w, s, id, p, front), id, p, o);
    }
  }

  lemma OnlyNearStep(w: World, s: State, id: string, p: Point, o: string)
    requires id in s.tracks && o in s.tracks
    ensures var x := StepPair(w, s, id, p, o);
            forall a :: a in s.tracks ==> x.tracks[a] == s.tracks[a].(nearSince := x.tracks[a].nearSince)
  {
    hide Near, Since;
  }

  /** After replaying an association of track id: the other tracks change in their pair records only. */
  ghost predicate Replayed(w: World, s: State, x: State, id: string, d: Detection) {
    && x.tracks.Keys == s.tracks.Keys + {id}
    && (forall a :: a in s.tracks && a != id ==> x.tracks[a] == s.tracks[a].(nearSince := x.tracks[a].nearSince))
    && var t := AbsorbTrack(if id in s.tracks then s.tracks[id] else NewTrack(d.level), d);
       x.tracks[id] == t.(zoneEnter := ZoneClock(w, t.zoneEnter, PointOf(d)), nearSince := x.tracks[id].nearSince)
  }

  lemma ReplayReplayed(w: World, s: State, id: string, d: Detection, order: seq<string>)
    requires Enumerates(order, s.tracks.Keys + {id})
    ensures Replayed(w, s, Replay(w, s, id, d, order), id, d)
  {
    hide AbsorbTrack, AbsorbIndex, ZoneClock, NewTrack, RestorePairs;
    RestoreOnlyNear(w, StepZones(w, Absorb(Pinned(s, id, d), id, d), id, PointOf(d)), id, PointOf(d), order);
  }

  lemma ReplayRerecords(w: World, s: State, x: Association, order: seq<string>)
    requires Inv(s) && Accepted(x.d) && Enumerates(order, s.tracks.Keys + {x.id})
    ensures Rerecorded(w, s, Replay(w, s, x.id, x.d, order), x.id, PointOf(x.d))
  {
    var id, d, p := x.id, x.d, PointOf(x.d);
    var z := Absorb(Pinned(s, id, d), id, d);
    PinnedIsOpened(s, id, d);
    AbsorbKeepsInv(Pinned(s, id, d), id, d);
    AbsorbKeepsKeys(Pinned(s, id, d), id, d);
    PinnedRest(s, id, d);
    AloneRest(w, z, id, p, d);
    hide Absorb, Pinned, Inv, AbsorbTrack;
    EvaluatedRerecords(w, s, z, id, d, order);
    RestoreMirrorsEvaluate(w, z, id, d, order, 0);
    hide EvaluateAlone, Evaluate, Restore, Replay;
    assert Replay(w, s, id, d, order) == Restore(w, z, id, p, order) by { ReplayIsRestore(w, s, id, d, order); }
    SameRecords(w, s, Evaluate(w, z, id, d, order, 0).state, Restore(w, z, id, p, order), id, p);
  }

  lemma ReplayIsRestore(w: World, s: State, id: string, d: Detection, order: seq<string>)
    requires Enumerates(order, s.tracks.Keys + {id})
    ensures id in Absorb(Pinned(s, id, d), id, d).tracks && (forall o :: o in order ==> o in Absorb(Pinned(s, id, d), id, d).tracks)
    ensures Replay(w, s, id, d, order) == Restore(w, Absorb(Pinned(s, id, d), id, d), id, PointOf(d), order)
  {
  }

  lemma PinnedRest(s: State, id: string, d: Detection)
    ensures var z := Absorb(Pinned(s, id, d), id, d);
            && z.tracks.Keys == s.tracks.Keys + {id} && (forall a :: a in s.tracks && a != id ==> z.tracks[a] == s.tracks[a])
            && z.tracks[id].nearSince == (if id in s.tracks then s.tracks[id].nearSince else map[])
  {
  }

  lemma AloneRest(w: World, z: State, id: string, p: Point, d: Detection)
    requires id in z.tracks
    ensures var y := EvaluateAlone(w, z, id, p, 0, d).state;
            && y.tracks.Keys == z.tracks.Keys && (forall a :: a in z.tracks && a != id ==> y.tracks[a] == z.tracks[a])
            && y.tracks[id].nearSince == z.tracks[id].nearSince
  {
  }

  lemma EvaluatedRerecords(w: World, s: State, z: State, id: string, d: Detection, order: seq<string>)
    requires Inv(s) && Inv(z) && z.tracks.Keys == s.tracks.Keys + {id} && Enumerates(order, z.tracks.Keys)
    requires forall a :: a in s.tracks && a != id ==> z.tracks[a] == s.tracks[a]
    requires z.tracks[id].nearSince == (if id in s.tracks then s.tracks[id].nearSince else map[])
    ensures Rerecorded(w, s, Evaluate(w, z, id, d, order, 0).state, id, PointOf(d))
  {
    var p, y := PointOf(d), EvaluateAlone(w, z, id, PointOf(d), 0, d);
    AloneKeepsInv(w, z, id, p, 0, d);
    EvaluateKeepsInv(w, z, id, d, order, 0);
    EnumerationIsSet(order, y.state.tracks.Keys);
    PairLoop(w, y, id, p, order, 0, d);
    AloneRest(w, z, id, p, d);
    assert Evaluate(w, z, id, d, order, 0) == EvaluatePairs(w, y, id, p, order, 0, d);
    hide Inv, EvaluatePairs, EvaluateAlone, Turned, Evaluate;
    TurnedRerecords(w, s, y.state, EvaluatePairs(w, y, id, p, order, 0, d).state, id, d);
  }

  lemma SameRecords(w: World, s: State, e: State, c: State, id: string, p: Point)
    requires Rerecorded(w, s, e, id, p) && Mirrors(e, c)
    ensures Rerecorded(w, s, c, id, p)
  {
    forall a, b ensures Recorded(c, a, b) == Recorded(e, a, b) {
      if a in e.tracks {
        assert SameClocks(e.tracks[a], c.tracks[a]);
      }
    }
  }

  /** A scan changes dark-vessel latches only. */
  ghost predicate OnlyDark(s: State, x: State) {
    && x.tracks.Keys == s.tracks.Keys && x.byMMSI == s.byMMSI
    && forall id :: id in s.tracks ==> x.tracks[id] == s.tracks[id].(dark := x.tracks[id].dark)
  }

  lemma ScanOnlyDark(w: World, s: State, order: seq<string>, now: int)
    requires Enumerates(order, s.tracks.Keys)
    ensures OnlyDark(s, Scan(w, s, order, now).state)
  {
    ScanEffect(w, s, order, now);
  }
}
