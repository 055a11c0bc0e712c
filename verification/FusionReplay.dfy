/**
  Restarting the fusion engine: replaying the persisted associations rebuilds the state, and the
  rebuilt engine never misses an alert the original would have raised.
 */
module FusionReplay {
  import opened Base
  import opened Classification
  import opened FusionModel
  import opened FusionRuns

  // ---------------------------------------------------------------------------
  // The restarted copy: equal but for labels, with no more latches set
  // ---------------------------------------------------------------------------

  ghost predicate Shadows(a: TrackState, b: TrackState) {
    && b == a.(level := b.level, loiterAlerted := b.loiterAlerted, rendezAlerted := b.rendezAlerted, dark := b.dark)
    && b.loiterAlerted <= a.loiterAlerted && b.rendezAlerted <= a.rendezAlerted && (b.dark ==> a.dark)
  }

  /** Copy c has the same tracks, points, bindings and clocks as s, and a subset of its latches. */
  ghost predicate Shadow(s: State, c: State) {
    && c.tracks.Keys == s.tracks.Keys && c.byMMSI == s.byMMSI
    && forall id :: id in s.tracks ==> Shadows(s.tracks[id], c.tracks[id])
  }

  lemma {:induction false} SameNearest(w: World, s: State, c: State, d: Detection, order: seq<string>)
    requires Shadow(s, c) && forall id :: id in order ==> id in s.tracks
    ensures Nearest(w, c, d, order) == Nearest(w, s, d, order)
    decreases |order|
  {
    if order != [] {
      SameNearest(w, s, c, d, order[..|order| - 1]);
      assert Shadows(s.tracks[order[|order| - 1]], c.tracks[order[|order| - 1]]);
    }
  }

  lemma SamePlacement(w: World, s: State, c: State, d: Detection, ch: Choice)
    requires Shadow(s, c) && LegalChoice(w, s, d, ch)
    ensures TargetOf(w, c, d, ch) == TargetOf(w, s, d, ch)
    ensures Shadow(Placed(w, s, d, ch), Placed(w, c, d, ch))
  {
    SameNearest(w, s, c, d, ch.associateOrder);
  }

  lemma AbsorbShadow(s: State, c: State, id: string, d: Detection)
    requires Shadow(s, c) && id in s.tracks
    ensures Shadow(Absorb(s, id, d), Absorb(c, id, d))
  {
    assert Shadows(s.tracks[id], c.tracks[id]);
  }

  /** One detection whose two MMSI fields do not contradict each other. */
  predicate Agrees(d: Detection) {
    d.ais.Some? && d.mmsi != "" ==> d.mmsi == d.ais.value.mmsi
  }

  lemma FreshAgrees(byMMSI: map<string, string>, id: string, d: Detection)
    requires Agrees(d) && Accepted(d)
    ensures var t := NewTrack(d.level);
            && Shadows(AbsorbTrack(t.(mmsi := d.mmsi), d), AbsorbTrack(t, d))
            && AbsorbIndex(if d.mmsi != "" then byMMSI[d.mmsi := id] else byMMSI, t.(mmsi := d.mmsi), id, d) == AbsorbIndex(byMMSI, t, id, d)
  {
  }

  // A fresh track is bound by associate on ingest, but by absorbPointLocked on replay.
  lemma AbsorbFresh(s: State, c: State, id: string, d: Detection)
    requires Shadow(s, c) && id !in s.tracks && Agrees(d) && Accepted(d)
    ensures Shadow(Absorb(AddTrack(s, id, d), id, d), Absorb(Pinned(c, id, d), id, d))
  {
    hide AbsorbTrack, AbsorbIndex, Shadows, Accepted, Agrees;
    var a, b := Absorb(AddTrack(s, id, d), id, d), Absorb(Pinned(c, id, d), id, d);
    FreshAgrees(s.byMMSI, id, d);
    assert a.tracks == s.tracks[id := AbsorbTrack(NewTrack(d.level).(mmsi := d.mmsi), d)];
    assert b.tracks == c.tracks[id := AbsorbTrack(NewTrack(d.level), d)];
  }

  lemma MeetsShadow(w: World, s: State, c: State, id: string, p: Point, o: string)
    requires Shadow(s, c) && id in s.tracks && o in s.tracks
    ensures Compares(c, id, o) == Compares(s, id, o)
    ensures Compares(s, id, o) ==> Met(w, c, id, p, o) == Met(w, s, id, p, o)
    ensures Meets(w, s, id, p, o) ==> Meets(w, c, id, p, o)
    ensures Meets(w, c, id, p, o) ==> Meets(w, s, id, p, o) || o in s.tracks[id].rendezAlerted
  {
    assert Shadows(s.tracks[id], c.tracks[id]) && Shadows(s.tracks[o], c.tracks[o]);
  }

  lemma OtherShadow(w: World, s: State, c: State, id: string, p: Point, o: string)
    requires Shadow(s, c) && PairSymmetric(s) && id in s.tracks && o in s.tracks && o != id
    ensures Shadows(OtherAfter(w, s, id, p, o), OtherAfter(w, c, id, p, o))
  {
    assert Shadows(s.tracks[o], c.tracks[o]);
    MeetsShadow(w, s, c, id, p, o);
    if Compares(s, id, o) {
      var met := Met(w, s, id, p, o);
      assert Linked(c.tracks[o], id, met).nearSince == Linked(s.tracks[o], id, met).nearSince;
    }
  }

  lemma TurnedShadowOther(w: World, s: State, c: State, s': State, c': State, id: string, p: Point, o: string)
    requires Shadow(s, c) && PairSymmetric(s) && id in s.tracks && o in s.tracks && o != id
    requires TurnedOthers(w, s, s', id, p, s.tracks.Keys) && TurnedOthers(w, c, c', id, p, s.tracks.Keys)
    ensures Shadows(s'.tracks[o], c'.tracks[o])
  {
    OtherShadow(w, s, c, id, p, o);
  }

  lemma TurnedShadowEntry(w: World, s: State, c: State, s': State, c': State, id: string, p: Point, o: string)
    requires Shadow(s, c) && id in s.tracks
    requires Turned(w, s, s', id, p, s.tracks.Keys) && Turned(w, c, c', id, p, s.tracks.Keys)
    ensures o in s'.tracks[id].nearSince <==> o in c'.tracks[id].nearSince
    ensures o in s'.tracks[id].nearSince ==> s'.tracks[id].nearSince[o] == c'.tracks[id].nearSince[o]
    ensures o in c'.tracks[id].rendezAlerted ==> o in s'.tracks[id].rendezAlerted
  {
    assert Shadows(s.tracks[id], c.tracks[id]);
    if o in s.tracks {
      MeetsShadow(w, s, c, id, p, o);
    }
  }

  lemma TurnedShadowSelf(w: World, s: State, c: State, s': State, c': State, id: string, p: Point)
    requires Shadow(s, c) && id in s.tracks
    requires Turned(w, s, s', id, p, s.tracks.Keys) && Turned(w, c, c', id, p, s.tracks.Keys)
    ensures Shadows(s'.tracks[id], c'.tracks[id])
  {
    var t, u := s'.tracks[id], c'.tracks[id];
    forall o ensures o in t.nearSince <==> o in u.nearSince
             ensures o in t.nearSince ==> t.nearSince[o] == u.nearSince[o]
             ensures o in u.rendezAlerted ==> o in t.rendezAlerted
    {
      TurnedShadowEntry(w, s, c, s', c', id, p, o);
    }
    assert t.nearSince == u.nearSince;
    assert Shadows(s.tracks[id], c.tracks[id]);
  }

  lemma TurnedShadow(w: World, s: State, c: State, s': State, c': State, id: string, p: Point)
    requires Shadow(s, c) && PairSymmetric(s) && id in s.tracks
    requires Turned(w, s, s', id, p, s.tracks.Keys) && Turned(w, c, c', id, p, s.tracks.Keys)
    ensures Shadow(s', c')
  {
    TurnedShadowSelf(w, s, c, s', c', id, p);
    forall o | o in s.tracks && o != id ensures Shadows(s'.tracks[o], c'.tracks[o]) {
      TurnedShadowOther(w, s, c, s', c', id, p, o);
    }
  }

  // ---------------------------------------------------------------------------
  // restoreRuleStateLocked mirrors evaluateLocked
  // ---------------------------------------------------------------------------

  /** Everything but labels and latches is the same. */
  ghost predicate SameClocks(a: TrackState, b: TrackState) {
    b == a.(level := b.level, loiterAlerted := b.loiterAlerted, rendezAlerted := b.rendezAlerted)
  }

  ghost predicate Mirrors(s: State, c: State) {
    && c.tracks.Keys == s.tracks.Keys && c.byMMSI == s.byMMSI
    && forall id :: id in s.tracks ==> SameClocks(s.tracks[id], c.tracks[id])
  }

  /** Labels and latches are the same. */
  ghost predicate SameLatches(a: TrackState, b: TrackState) {
    b.level == a.level && b.loiterAlerted == a.loiterAlerted && b.rendezAlerted == a.rendezAlerted && b.dark == a.dark
  }

  ghost predicate Quiet(s: State, c: State) {
    c.tracks.Keys == s.tracks.Keys && forall id :: id in s.tracks ==> SameLatches(s.tracks[id], c.tracks[id])
  }

  lemma PairIsQuiet(w: World, c: State, id: string, p: Point, o: string)
    requires id in c.tracks && o in c.tracks
    ensures Quiet(c, StepPair(w, c, id, p, o))
  {
  }

  lemma PairMirrors(w: World, x: Outcome, c: State, id: string, p: Point, o: string, now: int, d: Detection)
    requires Mirrors(x.state, c) && id in c.tracks && o in c.tracks
    ensures Mirrors(EvaluatePair(w, x, id, p, o, now, d).state, StepPair(w, c, id, p, o))
  {
    assert SameClocks(x.state.tracks[id], c.tracks[id]) && SameClocks(x.state.tracks[o], c.tracks[o]);
    if Compares(c, id, o) {
      PairMirrorsEnds(w, x, c, id, p, o, now, d);
      EvaluatePairExtent(w, x, id, p, o, now, d);
      StepPairExtent(w, c, id, p, o);
    }
  }

  lemma PairMirrorsEnds(w: World, x: Outcome, c: State, id: string, p: Point, o: string, now: int, d: Detection)
    requires id in x.state.tracks && o in x.state.tracks && id in c.tracks && o in c.tracks && Compares(c, id, o)
    requires SameClocks(x.state.tracks[id], c.tracks[id]) && SameClocks(x.state.tracks[o], c.tracks[o])
    ensures SameClocks(EvaluatePair(w, x, id, p, o, now, d).state.tracks[id], StepPair(w, c, id, p, o).tracks[id])
    ensures SameClocks(EvaluatePair(w, x, id, p, o, now, d).state.tracks[o], StepPair(w, c, id, p, o).tracks[o])
  {
    assert Since(c.tracks[id], id, c.tracks[o], o, p) == Since(x.state.tracks[id], id, x.state.tracks[o], o, p);
    PairCases(w, x, id, p, o, now, d);
  }

  /** The two pair loops, run in the same order, leave the same clocks; the restoring one touches no latch or label. */
  lemma {:induction false} LoopMirrors(w: World, x: Outcome, c: State, id: string, p: Point, order: seq<string>, now: int, d: Detection)
    requires Mirrors(x.state, c) && id in c.tracks && forall o :: o in order ==> o in c.tracks
    ensures Mirrors(EvaluatePairs(w, x, id, p, order, now, d).state, RestorePairs(w, c, id, p, order))
    ensures Quiet(c, RestorePairs(w, c, id, p, order))
    decreases |order|
  {
    if order != [] {
      var front, o := order[..|order| - 1], order[|order| - 1];
      LoopMirrors(w, x, c, id, p, front, now, d);
      PairMirrors(w, EvaluatePairs(w, x, id, p, front, now, d), RestorePairs(w, c, id, p, front), id, p, o, now, d);
      PairIsQuiet(w, RestorePairs(w, c, id, p, front), id, p, o);
    }
  }

  /** restoreRuleStateLocked makes the state transitions of evaluateLocked minus the alerts. */
  lemma RestoreMirrorsEvaluate(w: World, s: State, id: string, d: Detection, order: seq<string>, now: int)
    requires id in s.tracks && forall o :: o in order ==> o in s.tracks
    ensures Mirrors(Evaluate(w, s, id, d, order, now).state, Restore(w, s, id, PointOf(d), order))
    ensures Quiet(s, Restore(w, s, id, PointOf(d), order))
  {
    LoopMirrors(w, EvaluateAlone(w, s, id, PointOf(d), now, d), StepZones(w, s, id, PointOf(d)), id, PointOf(d), order, now, d);
  }

  // ---------------------------------------------------------------------------
  // Replay refines Ingest
  // ---------------------------------------------------------------------------

  /** No latch is set. */
  ghost predicate Unlatched(c: State) {
    forall id :: id in c.tracks ==> c.tracks[id].loiterAlerted == {} && c.tracks[id].rendezAlerted == {} && !c.tracks[id].dark
  }

  // The pair loops of the original (o1) and of the copy (o2), from states that already shadow each other.
  lemma PairLoopsShadow(w: World, x: Outcome, z: State, id: string, d: Detection, o1: seq<string>, o2: seq<string>, now: int)
    requires Shadow(x.state, z) && Inv(x.state) && id in z.tracks && Unlatched(z)
    requires Enumerates(o1, z.tracks.Keys) && Enumerates(o2, z.tracks.Keys)
    ensures Shadow(EvaluatePairs(w, x, id, PointOf(d), o1, now, d).state, RestorePairs(w, z, id, PointOf(d), o2))
    ensures Unlatched(RestorePairs(w, z, id, PointOf(d), o2))
  {
    var p, y := PointOf(d), Outcome(z, []);
    EnumerationIsSet(o1, z.tracks.Keys);
    EnumerationIsSet(o2, z.tracks.Keys);
    PairLoop(w, x, id, p, o1, now, d);
    // The copy's clocks do not depend on its latches: compare with an evaluation of the copy.
    PairLoop(w, y, id, p, o2, now, d);
    var s', c', e := EvaluatePairs(w, x, id, p, o1, now, d).state, RestorePairs(w, z, id, p, o2), EvaluatePairs(w, y, id, p, o2, now, d).state;
    TurnedShadow(w, x.state, z, s', e, id, p);
    LoopMirrors(w, y, z, id, p, o2, now, d);
    ShadowThroughMirror(s', e, c', z);
  }

  lemma ShadowThroughMirror(s: State, e: State, c: State, z: State)
    requires Shadow(s, e) && Mirrors(e, c) && Quiet(z, c) && Unlatched(z)
    ensures Shadow(s, c) && Unlatched(c)
  {
    forall a | a in c.tracks ensures c.tracks[a].loiterAlerted == {} && c.tracks[a].rendezAlerted == {} && !c.tracks[a].dark {
      assert SameLatches(z.tracks[a], c.tracks[a]);
    }
    forall a | a in s.tracks ensures Shadows(s.tracks[a], c.tracks[a]) {
      assert Shadows(s.tracks[a], e.tracks[a]) && SameClocks(e.tracks[a], c.tracks[a]);
    }
  }

  lemma EvaluateAndRestoreShadow(w: World, s: State, c: State, id: string, d: Detection, o1: seq<string>, o2: seq<string>, now: int)
    requires Shadow(s, c) && Inv(s) && id in s.tracks && Unlatched(c)
    requires Enumerates(o1, s.tracks.Keys) && Enumerates(o2, s.tracks.Keys)
    ensures Shadow(Evaluate(w, s, id, d, o1, now).state, Restore(w, c, id, PointOf(d), o2))
    ensures Unlatched(Restore(w, c, id, PointOf(d), o2))
  {
    var p := PointOf(d);
    var x, z := EvaluateAlone(w, s, id, p, now, d), StepZones(w, c, id, p);
    assert Shadows(s.tracks[id], c.tracks[id]);
    assert Shadow(x.state, z);
    AloneKeepsInv(w, s, id, p, now, d);
    PairLoopsShadow(w, x, z, id, d, o1, o2, now);
  }

  lemma AbsorbUnlatched(c: State, id: string, d: Detection)
    requires Unlatched(c)
    ensures Pinned(c, id, d).tracks.Keys == c.tracks.Keys + {id}
    ensures Unlatched(Absorb(Pinned(c, id, d), id, d))
  {
  }

  lemma AbsorbKeepsKeys(s: State, id: string, d: Detection)
    requires id in s.tracks
    ensures Absorb(s, id, d).tracks.Keys == s.tracks.Keys
  {
  }

  lemma PlacedAndPinnedShadow(w: World, s: State, c: State, d: Detection, ch: Choice)
    requires Shadow(s, c) && Inv(s) && Accepted(d) && LegalChoice(w, s, d, ch)
    requires TargetOf(w, s, d, ch) !in s.tracks ==> Agrees(d)
    requires TargetOf(w, s, d, ch) in Placed(w, s, d, ch).tracks
    ensures var id := TargetOf(w, s, d, ch);
            Shadow(Absorb(Placed(w, s, d, ch), id, d), Absorb(Pinned(c, id, d), id, d))
  {
    var id := TargetOf(w, s, d, ch);
    if Associate(w, s, d, ch.associateOrder).Some? {
      assert Placed(w, s, d, ch) == s && Pinned(c, id, d) == c;
      AbsorbShadow(s, c, id, d);
    } else {
      assert Placed(w, s, d, ch) == AddTrack(s, id, d);
      AbsorbFresh(s, c, id, d);
    }
  }

  /** One report, ingested by the original and replayed into the copy. */
  lemma IngestAndReplay(w: World, s: State, c: State, d: Detection, ch: Choice, order: seq<string>)
    requires Shadow(s, c) && Inv(s) && Unlatched(c) && Accepted(d)
    requires LegalChoice(w, s, d, ch) && (TargetOf(w, s, d, ch) !in s.tracks ==> Agrees(d))
    requires Enumerates(order, c.tracks.Keys + {TargetOf(w, s, d, ch)})
    ensures TargetOf(w, s, d, ch) in Placed(w, s, d, ch).tracks
    ensures var id := TargetOf(w, s, d, ch);
            Shadow(Ingest(w, s, d, ch).state, Replay(w, c, id, d, order)) && Unlatched(Replay(w, c, id, d, order))
  {
    var id := TargetOf(w, s, d, ch);
    PlacedIsOpened(w, s, d, ch);
    PlacedAndPinnedShadow(w, s, c, d, ch);
    AbsorbUnlatched(c, id, d);
    AbsorbKeepsInv(Placed(w, s, d, ch), id, d);
    AbsorbKeepsKeys(Placed(w, s, d, ch), id, d);
    AbsorbKeepsKeys(Pinned(c, id, d), id, d);
    EvaluateAndRestoreShadow(w, Absorb(Placed(w, s, d, ch), id, d), Absorb(Pinned(c, id, d), id, d), id, d, ch.pairOrder, order, ch.now);
  }

  /** Scanning only sets latches of the original. */
  lemma {:induction false} ScanKeepsShadow(w: World, s: State, c: State, order: seq<string>, now: int)
    requires Shadow(s, c) && forall id :: id in order ==> id in s.tracks
    ensures Shadow(Scan(w, s, order, now).state, c)
    decreases |order|
  {
    if order != [] {
      ScanKeepsShadow(w, s, c, order[..|order| - 1], now);
    }
  }

  /** The state rebuilt from a list of associations; the i-th replay ranges over the tracks in orders[i]. */
  ghost function Rebuild(w: World, log: seq<Association>, orders: seq<seq<string>>): State
    requires |orders| == |log|
  {
    if log == [] then EMPTY
    else
      var n := |log| - 1;
      var s := Rebuild(w, log[..n], orders[..n]);
      if Enumerates(orders[n], s.tracks.Keys + {log[n].id}) then Replay(w, s, log[n].id, log[n].d, orders[n]) else s
  }

  ghost predicate LegalOrders(w: World, log: seq<Association>, orders: seq<seq<string>>) {
    && |orders| == |log|
    && (log == [] || (
          var n := |log| - 1;
          && LegalOrders(w, log[..n], orders[..n])
          && Enumerates(orders[n], Rebuild(w, log[..n], orders[..n]).tracks.Keys + {log[n].id})))
  }

  /** Association i opens its track. */
  ghost predicate Opens(log: seq<Association>, i: int) {
    0 <= i < |log| && forall j :: 0 <= j < i ==> log[j].id != log[i].id
  }

  /** From position `from` of the log on, the reports that open tracks have agreeing MMSI fields. */
  ghost predicate OpenersAgree(log: seq<Association>, from: nat) {
    forall i :: Opens(log, i) && i >= from ==> Agrees(log[i].d)
  }

  lemma OpenersBefore(log: seq<Association>, x: Association, from: nat)
    requires OpenersAgree(log + [x], from) && from <= |log|
    ensures OpenersAgree(log, from)
    ensures (forall j :: 0 <= j < |log| ==> log[j].id != x.id) ==> Agrees(x.d)
  {
    var longer := log + [x];
    forall i | Opens(log, i) && i >= from ensures Agrees(log[i].d) {
      assert Opens(longer, i);
    }
    if forall j :: 0 <= j < |log| ==> log[j].id != x.id {
      assert Opens(longer, |log|);
    }
  }

  /** Every track has an association, and every association a track. */
  ghost predicate Logged(s: State, log: seq<Association>) {
    forall id :: id in s.tracks <==> exists i :: 0 <= i < |log| && log[i].id == id
  }

  lemma LoggedStep(s: State, x: State, log: seq<Association>, a: Association)
    requires Logged(s, log) && x.tracks.Keys == s.tracks.Keys + {a.id}
    ensures Logged(x, log + [a])
  {
    var longer := log + [a];
    assert longer[|log|] == a;
    forall id | id in x.tracks ensures exists i :: 0 <= i < |longer| && longer[i].id == id {
      if id in s.tracks {
        var i :| 0 <= i < |log| && log[i].id == id;
        assert longer[i].id == id;
      }
    }
  }

  lemma IngestKeys(w: World, s: State, d: Detection, ch: Choice)
    requires LegalChoice(w, s, d, ch) && TargetOf(w, s, d, ch) in Placed(w, s, d, ch).tracks
    ensures Ingest(w, s, d, ch).state.tracks.Keys == s.tracks.Keys + {TargetOf(w, s, d, ch)}
  {
  }

  // ---------------------------------------------------------------------------
  // An engine after its startup
  // ---------------------------------------------------------------------------

  lemma PinnedIsOpened(s: State, id: string, d: Detection)
    requires Inv(s) && Known(d.level)
    ensures Opened(Pinned(s, id, d), id)
  {
    hide PairSymmetric;
    if id !in s.tracks {
      AddedKeepsSymmetry(s, id, Pinned(s, id, d));
    }
  }

  lemma NearEntry(e: State, c: State, a: string, b: string)
    requires PairSymmetric(e) && c.tracks.Keys == e.tracks.Keys
    requires forall t :: t in c.tracks ==> c.tracks[t].nearSince == e.tracks[t].nearSince
    requires a in c.tracks && b in c.tracks[a].nearSince
    ensures b != a && b in c.tracks && a in c.tracks[b].nearSince && c.tracks[b].nearSince[a] == c.tracks[a].nearSince[b]
  {
    assert b in e.tracks[a].nearSince;
  }

  lemma MeetEntry(y: State, c: State, a: string, b: string)
    requires PairSymmetric(y) && c.tracks.Keys == y.tracks.Keys
    requires forall t :: t in c.tracks ==> c.tracks[t].rendezAlerted == y.tracks[t].rendezAlerted
    requires a in c.tracks && b in c.tracks[a].rendezAlerted
    ensures b != a && b in c.tracks && a in c.tracks[b].rendezAlerted
  {
    assert b in y.tracks[a].rendezAlerted;
  }

  lemma BothEntries(c: State)
    requires forall a, b :: a in c.tracks && b in c.tracks[a].nearSince ==>
               b != a && b in c.tracks && a in c.tracks[b].nearSince && c.tracks[b].nearSince[a] == c.tracks[a].nearSince[b]
    requires forall a, b :: a in c.tracks && b in c.tracks[a].rendezAlerted ==> b != a && b in c.tracks && a in c.tracks[b].rendezAlerted
    ensures PairSymmetric(c)
  {
  }

  lemma SymmetryOfBoth(e: State, y: State, c: State)
    requires PairSymmetric(e) && PairSymmetric(y) && c.tracks.Keys == e.tracks.Keys == y.tracks.Keys
    requires forall a :: a in c.tracks ==> c.tracks[a].nearSince == e.tracks[a].nearSince
    requires forall a :: a in c.tracks ==> c.tracks[a].rendezAlerted == y.tracks[a].rendezAlerted
    ensures PairSymmetric(c)
  {
    hide PairSymmetric;
    forall a, b | a in c.tracks && b in c.tracks[a].nearSince
      ensures b != a && b in c.tracks && a in c.tracks[b].nearSince && c.tracks[b].nearSince[a] == c.tracks[a].nearSince[b]
    {
      NearEntry(e, c, a, b);
    }
    forall a, b | a in c.tracks && b in c.tracks[a].rendezAlerted ensures b != a && b in c.tracks && a in c.tracks[b].rendezAlerted {
      MeetEntry(y, c, a, b);
    }
    BothEntries(c);
  }

  lemma MirroredTrack(e: State, c: State, y: State, a: string)
    requires Mirrors(e, c) && Quiet(y, c) && a in c.tracks
    ensures a in e.tracks && a in y.tracks
    ensures c.tracks[a].nearSince == e.tracks[a].nearSince && c.tracks[a].rendezAlerted == y.tracks[a].rendezAlerted
    ensures c.tracks[a].mmsi == e.tracks[a].mmsi && c.tracks[a].points == e.tracks[a].points && c.tracks[a].level == y.tracks[a].level
  {
    assert SameClocks(e.tracks[a], c.tracks[a]) && SameLatches(y.tracks[a], c.tracks[a]);
  }

  lemma InvThroughMirror(e: State, c: State, y: State)
    requires Inv(e) && Inv(y) && Mirrors(e, c) && Quiet(y, c)
    ensures Inv(c)
  {
    assert c.tracks.Keys == e.tracks.Keys == y.tracks.Keys && c.byMMSI == e.byMMSI;
    forall a | a in c.tracks
      ensures c.tracks[a].nearSince == e.tracks[a].nearSince && c.tracks[a].rendezAlerted == y.tracks[a].rendezAlerted
      ensures c.tracks[a].mmsi == e.tracks[a].mmsi && c.tracks[a].points == e.tracks[a].points && c.tracks[a].level == y.tracks[a].level
    {
      MirroredTrack(e, c, y, a);
    }
    hide PairSymmetric, Mirrors, Quiet;
    SymmetryOfBoth(e, y, c);
  }

  lemma QuietUnlatched(y: State, c: State)
    requires Quiet(y, c) && Unlatched(y)
    ensures Unlatched(c)
  {
    forall id | id in c.tracks ensures c.tracks[id].loiterAlerted == {} && c.tracks[id].rendezAlerted == {} && !c.tracks[id].dark {
      assert SameLatches(y.tracks[id], c.tracks[id]);
    }
  }

  /** Replaying one association keeps the state sound and the latches clear. */
  lemma ReplayKeepsInv(w: World, s: State, x: Association, order: seq<string>)
    requires Inv(s) && Unlatched(s) && Accepted(x.d) && Enumerates(order, s.tracks.Keys + {x.id})
    ensures var c := Replay(w, s, x.id, x.d, order);
            Inv(c) && Unlatched(c) && c.tracks.Keys == s.tracks.Keys + {x.id}
  {
    var y := Absorb(Pinned(s, x.id, x.d), x.id, x.d);
    AbsorbUnlatched(s, x.id, x.d);
    AbsorbKeepsKeys(Pinned(s, x.id, x.d), x.id, x.d);
    PinnedIsOpened(s, x.id, x.d);
    AbsorbKeepsInv(Pinned(s, x.id, x.d), x.id, x.d);
    EvaluateKeepsInv(w, y, x.id, x.d, order, 0);
    RestoreMirrorsEvaluate(w, y, x.id, x.d, order, 0);
    hide Inv, Unlatched, Mirrors, Quiet, Absorb, Pinned, Evaluate, Restore;
    var c := Restore(w, y, x.id, PointOf(x.d), order);
    InvThroughMirror(Evaluate(w, y, x.id, x.d, order, 0).state, c, y);
    QuietUnlatched(y, c);
  }

  /** Of two replays of one association into copies that agree, the order of the map does not matter. */
  lemma ReplaysAlike(w: World, a: State, b: State, x: Association, o1: seq<string>, o2: seq<string>)
    requires Shadow(a, b) && Inv(a) && Unlatched(a) && Unlatched(b) && Accepted(x.d)
    requires Enumerates(o1, a.tracks.Keys + {x.id}) && Enumerates(o2, b.tracks.Keys + {x.id})
    ensures Shadow(Replay(w, a, x.id, x.d, o1), Replay(w, b, x.id, x.d, o2))
  {
    var y, z := Absorb(Pinned(a, x.id, x.d), x.id, x.d), Absorb(Pinned(b, x.id, x.d), x.id, x.d);
    PinnedShadow(a, b, x.id, x.d);
    AbsorbShadow(Pinned(a, x.id, x.d), Pinned(b, x.id, x.d), x.id, x.d);
    AbsorbUnlatched(a, x.id, x.d);
    AbsorbUnlatched(b, x.id, x.d);
    AbsorbKeepsKeys(Pinned(a, x.id, x.d), x.id, x.d);
    PinnedIsOpened(a, x.id, x.d);
    AbsorbKeepsInv(Pinned(a, x.id, x.d), x.id, x.d);
    assert z.tracks.Keys == y.tracks.Keys;
    hide Inv, Shadow, Unlatched, Absorb, Pinned, Evaluate, Restore, Mirrors, Quiet;
    EvaluateAndRestoreShadow(w, y, z, x.id, x.d, o1, o2, 0);
    RestoreMirrorsEvaluate(w, y, x.id, x.d, o1, 0);
    var e, c := Evaluate(w, y, x.id, x.d, o1, 0).state, Restore(w, y, x.id, PointOf(x.d), o1);
    QuietUnlatched(y, c);
    MirroredShadow(e, c, Restore(w, z, x.id, PointOf(x.d), o2));
  }

  lemma PinnedShadow(a: State, b: State, id: string, d: Detection)
    requires Shadow(a, b)
    ensures Shadow(Pinned(a, id, d), Pinned(b, id, d)) && id in Pinned(a, id, d).tracks
  {
  }

  lemma MirroredShadow(e: State, c: State, x: State)
    requires Mirrors(e, c) && Unlatched(c) && Shadow(e, x) && Unlatched(x)
    ensures Shadow(c, x)
  {
    forall id | id in c.tracks ensures Shadows(c.tracks[id], x.tracks[id]) {
      assert SameClocks(e.tracks[id], c.tracks[id]) && Shadows(e.tracks[id], x.tracks[id]);
    }
  }

  ghost predicate AllAccepted(log: seq<Association>) {
    forall i :: 0 <= i < |log| ==> Accepted(log[i].d)
  }

  lemma NothingRebuilt(w: World)
    ensures var c := Rebuild(w, [], []); c == EMPTY && Inv(c) && Unlatched(c) && Logged(c, [])
  {
  }

  lemma OrdersMatch(w: World, log: seq<Association>, orders: seq<seq<string>>)
    requires LegalOrders(w, log, orders)
    ensures |orders| == |log| && (log == [] ==> orders == [])
  {
  }

  lemma RebuildUnfolds(w: World, log: seq<Association>, orders: seq<seq<string>>)
    requires LegalOrders(w, log, orders) && log != []
    ensures var n := |log| - 1;
            && LegalOrders(w, log[..n], orders[..n])
            && Enumerates(orders[n], Rebuild(w, log[..n], orders[..n]).tracks.Keys + {log[n].id})
            && Rebuild(w, log, orders) == Replay(w, Rebuild(w, log[..n], orders[..n]), log[n].id, log[n].d, orders[n])
  {
  }

  lemma AcceptedFront(log: seq<Association>)
    requires AllAccepted(log) && log != []
    ensures AllAccepted(log[..|log| - 1]) && Accepted(log[|log| - 1].d)
  {
  }

  /** Whatever a startup replays, the state it leaves is sound, has its latches clear, and a track for every association. */
  lemma {:induction false} RebuiltIsSound(w: World, log: seq<Association>, orders: seq<seq<string>>)
    requires LegalOrders(w, log, orders) && AllAccepted(log)
    ensures var c := Rebuild(w, log, orders); Inv(c) && Unlatched(c) && Logged(c, log)
    decreases |log|
  {
    hide *;
    OrdersMatch(w, log, orders);
    if log == [] {
      NothingRebuilt(w);
    } else {
      var n := |log| - 1;
      var front, before, x := log[..n], orders[..n], log[n];
      RebuildUnfolds(w, log, orders);
      AcceptedFront(log);
      RebuiltIsSound(w, front, before);
      var s := Rebuild(w, front, before);
      ReplayKeepsInv(w, s, x, orders[n]);
      LoggedStep(s, Rebuild(w, log, orders), front, x);
      assert log == front + [x];
    }
  }

  lemma NothingShadows()
    ensures Shadow(EMPTY, EMPTY)
  {
  }

  /** The order of the maps during a startup does not matter. */
  lemma {:induction false} RebuildsAlike(w: World, log: seq<Association>, o1: seq<seq<string>>, o2: seq<seq<string>>)
    requires LegalOrders(w, log, o1) && LegalOrders(w, log, o2) && AllAccepted(log)
    ensures Shadow(Rebuild(w, log, o1), Rebuild(w, log, o2))
    decreases |log|
  {
    hide *;
    OrdersMatch(w, log, o1);
    OrdersMatch(w, log, o2);
    if log == [] {
      NothingRebuilt(w);
      NothingShadows();
    } else {
      var n := |log| - 1;
      RebuildUnfolds(w, log, o1);
      RebuildUnfolds(w, log, o2);
      AcceptedFront(log);
      RebuildsAlike(w, log[..n], o1[..n], o2[..n]);
      RebuiltIsSound(w, log[..n], o1[..n]);
      RebuiltIsSound(w, log[..n], o2[..n]);
      ReplaysAlike(w, Rebuild(w, log[..n], o1[..n]), Rebuild(w, log[..n], o2[..n]), log[n], o1[n], o2[n]);
    }
  }

  /** An engine whose startup has just replayed its log; without a log, an empty engine. */
  ghost predicate Booted(w: World, start: Run) {
    AllAccepted(start.log) && start.alerts == [] && exists orders :: RebuiltBy(w, start, orders)
  }

  ghost predicate RebuiltBy(w: World, start: Run, orders: seq<seq<string>>) {
    LegalOrders(w, start.log, orders) && start.state == Rebuild(w, start.log, orders)
  }

  lemma EmptyIsBooted(w: World)
    ensures Booted(w, START)
  {
    assert RebuiltBy(w, START, []);
  }

  lemma BootedIsSound(w: World, start: Run)
    requires Booted(w, start)
    ensures Inv(start.state) && Unlatched(start.state) && Logged(start.state, start.log) && start.alerts == []
  {
    hide Inv, Unlatched, Logged, LegalOrders, Rebuild, AllAccepted;
    var orders :| RebuiltBy(w, start, orders);
    RebuiltIsSound(w, start.log, orders);
  }

  lemma {:induction false} RunLogged(w: World, start: Run, events: seq<Event>)
    requires Inv(start.state) && Logged(start.state, start.log) && Legal(w, start, events)
    ensures Logged(Exec(w, start, events).state, Exec(w, start, events).log)
    ensures start.log <= Exec(w, start, events).log
    decreases |events|
  {
    if events != [] {
      var front, e := events[..|events| - 1], events[|events| - 1];
      var r := Exec(w, start, front);
      RunLogged(w, start, front);
      ReachableStates(w, start, front);
      match e {
        case Report(d, ch) =>
          if Accepted(d) {
            PlacedIsOpened(w, r.state, d, ch);
            IngestKeys(w, r.state, d, ch);
            LoggedStep(r.state, Ingest(w, r.state, d, ch).state, r.log, Association(TargetOf(w, r.state, d, ch), d));
          } else {
            assert r.log + [] == r.log;
          }
        case Sweep(order, now) =>
          assert r.log + [] == r.log;
          ScanKeys(w, r.state, order, now);
      }
    }
  }

  lemma {:induction false} RunAccepted(w: World, start: Run, events: seq<Event>)
    requires AllAccepted(start.log) && Legal(w, start, events)
    ensures AllAccepted(Exec(w, start, events).log)
    decreases |events|
  {
    if events != [] {
      RunAccepted(w, start, events[..|events| - 1]);
    }
  }

  /** A restart leaves an engine of the same kind: what holds after one startup holds after any number of them. */
  lemma RestartedIsBooted(w: World, start: Run, events: seq<Event>, orders: seq<seq<string>>)
    requires Booted(w, start) && Legal(w, start, events) && LegalOrders(w, Exec(w, start, events).log, orders)
    ensures Booted(w, Run(Rebuild(w, Exec(w, start, events).log, orders), Exec(w, start, events).log, []))
  {
    RunAccepted(w, start, events);
    var log := Exec(w, start, events).log;
    assert RebuiltBy(w, Run(Rebuild(w, log, orders), log, []), orders);
  }

  lemma {:induction false} ScanKeys(w: World, s: State, order: seq<string>, now: int)
    requires forall id :: id in order ==> id in s.tracks
    ensures Scan(w, s, order, now).state.tracks.Keys == s.tracks.Keys
    decreases |order|
  {
    if order != [] {
      ScanKeys(w, s, order[..|order| - 1], now);
    }
  }

  // One more accepted report, with the log of the longer run.
  lemma ReplayReport(w: World, s: State, log: seq<Association>, d: Detection, ch: Choice, orders: seq<seq<string>>)
    requires Inv(s) && Accepted(d) && LegalChoice(w, s, d, ch) && (TargetOf(w, s, d, ch) !in s.tracks ==> Agrees(d))
    requires LegalOrders(w, log + [Association(TargetOf(w, s, d, ch), d)], orders)
    requires var c := Rebuild(w, log, orders[..|log|]); Shadow(s, c) && Unlatched(c)
    ensures var c := Rebuild(w, log + [Association(TargetOf(w, s, d, ch), d)], orders);
            Shadow(EffectOf(w, s, Report(d, ch)).out.state, c) && Unlatched(c)
  {
    var n, id := |log|, TargetOf(w, s, d, ch);
    var longer := log + [Association(id, d)];
    assert longer[..n] == log;
    var c := Rebuild(w, log, orders[..n]);
    assert Rebuild(w, longer, orders) == Replay(w, c, id, d, orders[n]);
    IngestAndReplay(w, s, c, d, ch, orders[n]);
    assert EffectOf(w, s, Report(d, ch)).out == Ingest(w, s, d, ch);
  }

  lemma BootedShadow(w: World, start: Run, orders: seq<seq<string>>)
    requires Booted(w, start) && LegalOrders(w, start.log, orders)
    ensures Shadow(start.state, Rebuild(w, start.log, orders)) && Unlatched(Rebuild(w, start.log, orders))
  {
    hide Shadow, LegalOrders, Rebuild, AllAccepted, Unlatched;
    var before :| RebuiltBy(w, start, before);
    RebuildsAlike(w, start.log, before, orders);
    RebuiltIsSound(w, start.log, orders);
  }

  /**
    Replaying what a run persisted rebuilds its tracks, points, MMSI bindings, index, last AIS times,
    zone clocks and pair clocks, and leaves every latch clear, unless the run opened a track with a
    report whose MMSI fields contradict each other. The run may itself have begun with a replay.
   */
  lemma {:induction false} ReplayRefinesIngest(w: World, start: Run, events: seq<Event>, orders: seq<seq<string>>)
    requires Booted(w, start) && Legal(w, start, events) && OpenersAgree(Exec(w, start, events).log, |start.log|)
    requires LegalOrders(w, Exec(w, start, events).log, orders)
    ensures Shadow(Exec(w, start, events).state, Rebuild(w, Exec(w, start, events).log, orders))
    ensures Unlatched(Rebuild(w, Exec(w, start, events).log, orders))
    decreases |events|
  {
    BootedIsSound(w, start);
    if events == [] {
      BootedShadow(w, start, orders);
    } else {
      var front, e := events[..|events| - 1], events[|events| - 1];
      var r := Exec(w, start, front);
      ReachableStates(w, start, front);
      RunLogged(w, start, front);
      match e {
        case Report(d, ch) =>
          if Accepted(d) {
            assert Exec(w, start, events).log == r.log + [Association(TargetOf(w, r.state, d, ch), d)];
            OpenersBefore(r.log, Association(TargetOf(w, r.state, d, ch), d), |start.log|);
            OrdersPrefix(w, r.log, Association(TargetOf(w, r.state, d, ch), d), orders);
            ReplayRefinesIngest(w, start, front, orders[..|r.log|]);
            ReplayReport(w, r.state, r.log, d, ch, orders);
          } else {
            assert Exec(w, start, events).log == r.log;
            ReplayRefinesIngest(w, start, front, orders);
          }
        case Sweep(order, now) =>
          assert Exec(w, start, events).log == r.log;
          ReplayRefinesIngest(w, start, front, orders);
          ScanKeepsShadow(w, r.state, Rebuild(w, r.log, orders), order, now);
      }
    }
  }

  lemma OrdersPrefix(w: World, log: seq<Association>, last: Association, orders: seq<seq<string>>)
    requires LegalOrders(w, log + [last], orders)
    ensures LegalOrders(w, log, orders[..|log|])
  {
    assert (log + [last])[..|log|] == log;
  }
}
