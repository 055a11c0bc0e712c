/** What the label of a track guarantees, in the running engine and after a restart. */
module FusionLabels {
  import opened Base
  import opened Classification
  import opened FusionModel
  import opened FusionRuns
  import opened FusionReplay
  import opened FusionHistory
  import opened FusionMeaning

  lemma {:induction false} HistoryContains(log: seq<Association>, i: nat)
    requires i < |log|
    ensures log[i].d in History(log, log[i].id)
    ensures Latest(log, log[i].id) >= 0
    decreases |log|
  {
    var front := log[..|log| - 1];
    if i < |front| {
      HistoryContains(front, i);
      assert front[i] == log[i];
    }
  }

  /** Labels dominate contents: who may read the track may read every detection ever absorbed into it. */
  lemma LabelsDominate(w: World, start: Run, events: seq<Event>, i: nat, clearance: Label)
    requires Booted(w, start) && Legal(w, start, events) && i < |Exec(w, start, events).log|
    ensures var r := Exec(w, start, events);
            && r.log[i].id in r.state.tracks
            && (Covers(clearance, r.state.tracks[r.log[i].id].level) ==> Covers(clearance, r.log[i].d.level))
  {
    StateMeansHistory(w, start, events);
    var r := Exec(w, start, events);
    HistoryContains(r.log, i);
    var j :| 0 <= j < |History(r.log, r.log[i].id)| && History(r.log, r.log[i].id)[j] == r.log[i].d;
    assert Tracked(w, r.state, r.log, r.log[i].id);
  }

  /** The label of a track never decreases. */
  lemma LabelsNeverDecrease(w: World, start: Run, events: seq<Event>, e: Event, id: string)
    requires Booted(w, start) && Legal(w, start, events + [e]) && id in Exec(w, start, events).state.tracks
    ensures var s, s' := Exec(w, start, events).state, Exec(w, start, events + [e]).state;
            id in s'.tracks && Rank(s'.tracks[id].level) >= Rank(s.tracks[id].level)
  {
    var longer, s := events + [e], Exec(w, start, events).state;
    assert longer[..|longer| - 1] == events;
    BootedIsSound(w, start);
    ReachableStates(w, start, events);
    match e
    case Report(d, c) =>
      if Accepted(d) {
        IngestReported(w, s, d, c);
      }
    case Sweep(order, now) =>
      ScanOnlyDark(w, s, order, now);
  }

  // ---------------------------------------------------------------------------
  // The labels of alerts
  // ---------------------------------------------------------------------------

  /** The alert's label is approved and not below the label of any track it names. */
  ghost predicate AtLeast(a: Anomaly, z: State) {
    Known(a.level) && forall i :: 0 <= i < |a.trackIDs| ==> a.trackIDs[i] in z.tracks && Rank(a.level) >= Rank(z.tracks[a.trackIDs[i]].level)
  }

  ghost predicate AllAtLeast(alerts: seq<Anomaly>, z: State) {
    forall i :: 0 <= i < |alerts| ==> AtLeast(alerts[i], z)
  }

  lemma {:induction false} LoiterLabels(z: State, id: string, zones: seq<string>, now: int, d: Detection)
    requires id in z.tracks && Known(z.tracks[id].level)
    ensures AllAtLeast(LoiterAlerts(z.tracks[id], id, zones, now, d), z)
    decreases |zones|
  {
    if zones != [] {
      LoiterLabels(z, id, zones[..|zones| - 1], now, d);
    }
  }

  ghost predicate Raised(z: State, y: State) {
    y.tracks.Keys == z.tracks.Keys
    && forall o :: o in z.tracks ==> Known(y.tracks[o].level) && Rank(y.tracks[o].level) >= Rank(z.tracks[o].level)
  }

  // A turn of the pair loop raises at most the label of the reporting track.
  lemma PairLevels(w: World, y: Outcome, id: string, p: Point, o: string, now: int, d: Detection)
    requires id in y.state.tracks && o in y.state.tracks
    ensures var x, t, u := EvaluatePair(w, y, id, p, o, now, d).state, y.state.tracks[id], y.state.tracks[o];
            && (forall a :: a in y.state.tracks && a != id ==> x.tracks[a].level == y.state.tracks[a].level)
            && x.tracks[id].level in {t.level, Max(t.level, u.level)}
  {
    PairCases(w, y, id, p, o, now, d);
    EvaluatePairExtent(w, y, id, p, o, now, d);
    hide EvaluatePair, Near, Since, Meets, Max;
  }

  lemma PairRaises(w: World, z: State, y: Outcome, id: string, p: Point, o: string, now: int, d: Detection)
    requires Raised(z, y.state) && id in z.tracks && o in z.tracks
    ensures Raised(z, EvaluatePair(w, y, id, p, o, now, d).state)
  {
    PairLevels(w, y, id, p, o, now, d);
    hide EvaluatePair;
  }

  lemma PairAlert(z: State, y: State, a: Anomaly, id: string, o: string)
    requires Raised(z, y) && id in z.tracks && o in z.tracks
    requires a.trackIDs == [id, o] && a.level == Max(y.tracks[id].level, y.tracks[o].level)
    ensures AtLeast(a, z)
  {
  }

  lemma PairLabels(w: World, z: State, y: Outcome, id: string, p: Point, o: string, now: int, d: Detection)
    requires Raised(z, y.state) && AllAtLeast(y.alerts, z) && id in z.tracks && o in z.tracks
    ensures Raised(z, EvaluatePair(w, y, id, p, o, now, d).state) && AllAtLeast(EvaluatePair(w, y, id, p, o, now, d).alerts, z)
  {
    PairRaises(w, z, y, id, p, o, now, d);
    PairCases(w, y, id, p, o, now, d);
    var alert := Anomaly(Rendezvous, id, [id, o], "", Max(y.state.tracks[id].level, y.state.tracks[o].level), now, d.correlationRefs);
    PairAlert(z, y.state, alert, id, o);
    hide EvaluatePair, Near, Since, Meets, Raised, AtLeast;
    assert AllAtLeast(y.alerts + [alert], z);
  }

  lemma {:induction false} PairsLabels(w: World, z: State, x: Outcome, id: string, p: Point, order: seq<string>, now: int, d: Detection)
    requires Raised(z, x.state) && AllAtLeast(x.alerts, z) && id in z.tracks && forall o :: o in order ==> o in z.tracks
    ensures Raised(z, EvaluatePairs(w, x, id, p, order, now, d).state)
    ensures AllAtLeast(EvaluatePairs(w, x, id, p, order, now, d).alerts, z)
    decreases |order|
  {
    if order != [] {
      var front := order[..|order| - 1];
      PairsLabels(w, z, x, id, p, front, now, d);
      PairLabels(w, z, EvaluatePairs(w, x, id, p, front, now, d), id, p, order[|order| - 1], now, d);
    }
  }

  lemma EvaluateLabels(w: World, z: State, id: string, d: Detection, order: seq<string>, now: int)
    requires id in z.tracks && (forall o :: o in order ==> o in z.tracks) && forall a :: a in z.tracks ==> Known(z.tracks[a].level)
    ensures AllAtLeast(Evaluate(w, z, id, d, order, now).alerts, z)
  {
    var x, p := EvaluateAlone(w, z, id, PointOf(d), now, d), PointOf(d);
    LoiterLabels(z, id, LoiteringZones(w, z.tracks[id], p, w.zones), now, d);
    hide TooFast, LoiteringZones;
    PairsLabels(w, z, x, id, p, order, now, d);
  }

  lemma IngestLabels(w: World, s: State, d: Detection, c: Choice, i: int)
    requires Inv(s) && Accepted(d) && LegalChoice(w, s, d, c)
    ensures TargetOf(w, s, d, c) in Placed(w, s, d, c).tracks
    ensures 0 <= i < |Ingest(w, s, d, c).alerts| ==>
              var id, a := TargetOf(w, s, d, c), Ingest(w, s, d, c).alerts[i];
              && Known(a.level)
              && (forall o :: o in a.trackIDs && o != id ==> o in s.tracks && Rank(a.level) >= Rank(s.tracks[o].level))
              && (id in a.trackIDs ==> Rank(a.level) >= Rank(d.level) && (id in s.tracks ==> Rank(a.level) >= Rank(s.tracks[id].level)))
  {
    PlacedIsOpened(w, s, d, c);
    var id := TargetOf(w, s, d, c);
    var z := Absorb(Placed(w, s, d, c), id, d);
    AbsorbKeepsInv(Placed(w, s, d, c), id, d);
    EvaluateLabels(w, z, id, d, c.pairOrder, c.now);
    AbsorbedLabels(w, s, d, c);
    if 0 <= i < |Ingest(w, s, d, c).alerts| {
      var a := Ingest(w, s, d, c).alerts[i];
      hide Evaluate, Absorb, Placed, Inv, Opened;
      assert AtLeast(a, z);
    }
  }

  lemma AbsorbedLabels(w: World, s: State, d: Detection, c: Choice)
    requires Inv(s) && Accepted(d) && LegalChoice(w, s, d, c)
    ensures TargetOf(w, s, d, c) in Placed(w, s, d, c).tracks
    ensures var id := TargetOf(w, s, d, c);
            var z := Absorb(Placed(w, s, d, c), id, d);
            && (forall o :: o in z.tracks && o != id ==> o in s.tracks && z.tracks[o].level == s.tracks[o].level)
            && Rank(z.tracks[id].level) >= Rank(d.level)
            && (id in s.tracks ==> Rank(z.tracks[id].level) >= Rank(s.tracks[id].level))
  {
    PlacedIsOpened(w, s, d, c);
  }

  lemma {:induction false} ScanLabels(w: World, s: State, order: seq<string>, now: int, i: int)
    requires Inv(s) && (forall id :: id in order ==> id in s.tracks) && 0 <= i < |Scan(w, s, order, now).alerts|
    ensures AtLeast(Scan(w, s, order, now).alerts[i], s)
    ensures forall id :: id in s.tracks ==> Scan(w, s, order, now).state.tracks[id].level == s.tracks[id].level
    decreases |order|
  {
    var x, id := Scan(w, s, order[..|order| - 1], now), order[|order| - 1];
    ScanLevels(w, s, order[..|order| - 1], now);
    if i < |x.alerts| {
      ScanLabels(w, s, order[..|order| - 1], now, i);
    }
  }

  lemma {:induction false} ScanLevels(w: World, s: State, order: seq<string>, now: int)
    requires forall id :: id in order ==> id in s.tracks
    ensures forall id :: id in s.tracks ==> Scan(w, s, order, now).state.tracks[id].level == s.tracks[id].level
    decreases |order|
  {
    if order != [] {
      ScanLevels(w, s, order[..|order| - 1], now);
    }
  }

  /** Who may read an alert may read every detection absorbed so far into any of the tracks it names. */
  lemma AlertLabelsDominate(w: World, start: Run, events: seq<Event>, e: Event, i: int, k: int, clearance: Label)
    requires Booted(w, start) && Legal(w, start, events + [e])
    requires var r, r' := Exec(w, start, events), Exec(w, start, events + [e]);
             |r.alerts| <= i < |r'.alerts| && 0 <= k < |r'.log| && r'.log[k].id in r'.alerts[i].trackIDs
    ensures var r' := Exec(w, start, events + [e]);
            Covers(clearance, r'.alerts[i].level) ==> Covers(clearance, r'.log[k].d.level)
  {
    assert (events + [e])[..|events|] == events;
    StateMeansHistory(w, start, events);
    assert Exec(w, start, events + [e]) == Step(w, Exec(w, start, events), e) && LegalEvent(w, Exec(w, start, events).state, e);
    hide *;
    StepAlert(w, Exec(w, start, events), Exec(w, start, events + [e]), e, i, k, clearance);
  }

  lemma StepAlert(w: World, r: Run, r': Run, e: Event, i: int, k: int, clearance: Label)
    requires Inv(r.state) && TracksMean(w, r.state, r.log) && LegalEvent(w, r.state, e) && r' == Step(w, r, e)
    requires |r.alerts| <= i < |r'.alerts| && 0 <= k < |r'.log| && r'.log[k].id in r'.alerts[i].trackIDs
    ensures Covers(clearance, r'.alerts[i].level) ==> Covers(clearance, r'.log[k].d.level)
  {
    var f := EffectOf(w, r.state, e);
    assert r'.alerts == r.alerts + f.out.alerts && r'.log == r.log + f.log;
    NewAlert(w, r, e, i - |r.alerts|);
    hide *;
    CoversAll(w, r, f, i - |r.alerts|, k, clearance);
  }

  lemma CoversAll(w: World, r: Run, f: Effect, i: int, k: int, clearance: Label)
    requires TracksMean(w, r.state, r.log) && 0 <= i < |f.out.alerts| && AlertRight(r.state, f, i)
    requires 0 <= k < |r.log + f.log| && (r.log + f.log)[k].id in f.out.alerts[i].trackIDs
    ensures Covers(clearance, f.out.alerts[i].level) ==> Covers(clearance, (r.log + f.log)[k].d.level)
  {
    if k < |r.log| {
      LoggedLabel(w, r, k);
    }
    hide TracksMean;
  }

  ghost predicate AlertRight(s: State, f: Effect, i: int)
    requires 0 <= i < |f.out.alerts|
  {
    var a := f.out.alerts[i];
    && Known(a.level) && |f.log| <= 1
    && (forall o :: o in a.trackIDs && o in s.tracks ==> Rank(a.level) >= Rank(s.tracks[o].level))
    && (|f.log| == 1 ==> Known(f.log[0].d.level) && (f.log[0].id in a.trackIDs ==> Rank(a.level) >= Rank(f.log[0].d.level)))
  }

  lemma LoggedLabel(w: World, r: Run, k: int)
    requires TracksMean(w, r.state, r.log) && 0 <= k < |r.log|
    ensures r.log[k].id in r.state.tracks && Known(r.log[k].d.level) && Rank(r.log[k].d.level) <= Rank(r.state.tracks[r.log[k].id].level)
  {
    HistoryContains(r.log, k);
    var j :| 0 <= j < |History(r.log, r.log[k].id)| && History(r.log, r.log[k].id)[j] == r.log[k].d;
    assert Tracked(w, r.state, r.log, r.log[k].id);
  }

  lemma NewAlert(w: World, r: Run, e: Event, i: int)
    requires Inv(r.state) && LegalEvent(w, r.state, e) && 0 <= i < |EffectOf(w, r.state, e).out.alerts|
    ensures AlertRight(r.state, EffectOf(w, r.state, e), i)
  {
    match e
    case Report(d, c) =>
      if Accepted(d) {
        IngestLabels(w, r.state, d, c, i);
      }
    case Sweep(order, now) =>
      ScanLabels(w, r.state, order, now, i);
  }

  // ---------------------------------------------------------------------------
  // After a restart
  // ---------------------------------------------------------------------------

  /** The label is the most sensitive one of the detections, and one of them. */
  ghost predicate IsMaximum(h: seq<Detection>, level: Label) {
    && (forall i :: 0 <= i < |h| ==> Rank(h[i].level) <= Rank(level))
    && (exists i :: 0 <= i < |h| && h[i].level == level)
  }

  ghost predicate Labelled(c: State, log: seq<Association>, id: string) {
    && (id in c.tracks <==> Latest(log, id) >= 0)
    && (id in c.tracks ==> IsMaximum(History(log, id), c.tracks[id].level))
  }

  ghost predicate MaximalLabels(c: State, log: seq<Association>) {
    forall id :: Labelled(c, log, id)
  }

  lemma ReplayLabels(w: World, c: State, id: string, d: Detection, order: seq<string>)
    requires Enumerates(order, c.tracks.Keys + {id})
    ensures var x := Replay(w, c, id, d, order);
            && x.tracks.Keys == c.tracks.Keys + {id}
            && (forall a :: a in c.tracks && a != id ==> x.tracks[a].level == c.tracks[a].level)
            && x.tracks[id].level == Max(if id in c.tracks then c.tracks[id].level else d.level, d.level)
  {
    var y := Absorb(Pinned(c, id, d), id, d);
    assert y.tracks.Keys == c.tracks.Keys + {id};
    RestoreMirrorsEvaluate(w, y, id, d, order, 0);
    var x := Replay(w, c, id, d, order);
    forall a | a in y.tracks ensures x.tracks[a].level == y.tracks[a].level {
      assert SameLatches(y.tracks[a], x.tracks[a]);
    }
  }

  lemma MaximumGrows(h: seq<Detection>, level: Label, d: Detection)
    requires h != [] ==> IsMaximum(h, level)
    ensures IsMaximum(h + [d], Max(if h != [] then level else d.level, d.level))
  {
    var longer := h + [d];
    assert longer[|h|] == d;
    if h != [] && Rank(level) >= Rank(d.level) {
      var i :| 0 <= i < |h| && h[i].level == level;
      assert longer[i].level == level;
    }
  }

  lemma LabelledStep(w: World, c: State, log: seq<Association>, x: Association, order: seq<string>, id: string)
    requires Enumerates(order, c.tracks.Keys + {x.id}) && Labelled(c, log, id)
    ensures Labelled(Replay(w, c, x.id, x.d, order), log + [x], id)
  {
    ReplayLabels(w, c, x.id, x.d, order);
    LatestGrows(log, x, id);
    HistoryGrows(log, x, id);
    HistoryEnds(log, id);
    if id == x.id {
      MaximumGrows(History(log, id), if id in c.tracks then c.tracks[id].level else x.d.level, x.d);
    }
    hide Replay, History, Latest, IsMaximum, Enumerates;
    assert id != x.id ==> History(log + [x], id) == History(log, id);
  }

  /**
    Replay gives every track the most sensitive label of its own detections. Labels raised by a
    rendezvous with another track are not rebuilt.
   */
  lemma {:induction false} ReplayedLabels(w: World, log: seq<Association>, orders: seq<seq<string>>)
    requires LegalOrders(w, log, orders)
    ensures MaximalLabels(Rebuild(w, log, orders), log)
    decreases |log|
  {
    if log != [] {
      var n := |log| - 1;
      var c := Rebuild(w, log[..n], orders[..n]);
      ReplayedLabels(w, log[..n], orders[..n]);
      assert log == log[..n] + [log[n]];
      forall id ensures Labelled(Rebuild(w, log, orders), log, id) {
        assert Labelled(c, log[..n], id);
        LabelledStep(w, c, log[..n], log[n], orders[n], id);
      }
    }
  }

  /** So right after a restart no label is above the original one. */
  lemma ReplayNeverRaises(w: World, start: Run, events: seq<Event>, orders: seq<seq<string>>, id: string)
    requires Booted(w, start) && Legal(w, start, events) && LegalOrders(w, Exec(w, start, events).log, orders)
    requires id in Exec(w, start, events).state.tracks
    ensures var r := Exec(w, start, events);
            var c := Rebuild(w, r.log, orders);
            id in c.tracks && Rank(c.tracks[id].level) <= Rank(r.state.tracks[id].level)
  {
    var r := Exec(w, start, events);
    StateMeansHistory(w, start, events);
    ReplayedLabels(w, r.log, orders);
    assert Tracked(w, r.state, r.log, id) && Labelled(Rebuild(w, r.log, orders), r.log, id);
  }
}
