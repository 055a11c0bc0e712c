/** Exactly when a replay rebuilds the state of the engine, and what happens when it does not. */
module FusionRebuild {
  import opened Base
  import opened Classification
  import opened FusionModel
  import opened FusionRuns
  import opened FusionReplay
  import opened FusionRestart
  import opened FusionHistory
  import opened FusionIdentity
  import Geo

  // ---------------------------------------------------------------------------
  // The MMSI a track was opened with
  // ---------------------------------------------------------------------------

  /** The track of association i carries that MMSI. */
  predicate Named(s: State, log: seq<Association>, i: nat, mmsi: string)
    requires i < |log|
  {
    log[i].id in s.tracks && s.tracks[log[i].id].mmsi == mmsi
  }

  // What both a report and a replay keep: tracks, and the MMSI of every track that has one.
  ghost predicate KeepsNames(s: State, x: State, id: string) {
    && x.tracks.Keys == s.tracks.Keys + {id}
    && forall a :: a in s.tracks && s.tracks[a].mmsi != "" ==> x.tracks[a].mmsi == s.tracks[a].mmsi
  }

  lemma NameStays(s: State, x: State, log: seq<Association>, a: Association, i: nat, mmsi: string)
    requires Logged(s, log) && KeepsNames(s, x, a.id) && Opens(log + [a], i) && mmsi != ""
    requires i < |log| && Opens(log, i) ==> Named(s, log, i, mmsi)
    requires a.id !in s.tracks && i == |log| ==> x.tracks[a.id].mmsi == mmsi
    ensures Named(x, log + [a], i, mmsi)
  {
    var longer := log + [a];
    assert forall j :: 0 <= j < |log| ==> longer[j] == log[j];
    if i < |log| {
      assert Opens(log, i);
    } else {
      assert a.id !in s.tracks;
    }
  }

  lemma ReportKeepsNames(w: World, s: State, x: State, id: string, d: Detection)
    requires Reported(w, s, x, id, d)
    ensures KeepsNames(s, x, id) && (id !in s.tracks && d.mmsi != "" ==> x.tracks[id].mmsi == d.mmsi)
  {
  }

  lemma BindsReport(w: World, r: Run, d: Detection, c: Choice, i: nat)
    requires Inv(r.state) && Logged(r.state, r.log) && LegalEvent(w, r.state, Report(d, c)) && Accepted(d)
    ensures var x := Step(w, r, Report(d, c));
            && x.log == r.log + [Association(TargetOf(w, r.state, d, c), d)]
            && (Opens(x.log, i) && x.log[i].d.mmsi != ""
                && (i < |r.log| && Opens(r.log, i) ==> Named(r.state, r.log, i, r.log[i].d.mmsi)) ==>
                  Named(x.state, x.log, i, x.log[i].d.mmsi))
  {
    var x, id := Step(w, r, Report(d, c)), TargetOf(w, r.state, d, c);
    IngestReported(w, r.state, d, c);
    ReportKeepsNames(w, r.state, x.state, id, d);
    hide Step, Reported, KeepsNames, Named;
    if Opens(x.log, i) && x.log[i].d.mmsi != "" && (i < |r.log| && Opens(r.log, i) ==> Named(r.state, r.log, i, r.log[i].d.mmsi)) {
      NameStays(r.state, x.state, r.log, Association(id, d), i, x.log[i].d.mmsi);
    }
  }

  /** The running engine binds a track to the MMSI of the detection that opens it, for good. */
  lemma {:induction false} OpenerBinds(w: World, start: Run, events: seq<Event>, i: nat)
    requires Inv(start.state) && Logged(start.state, start.log) && Legal(w, start, events)
    requires i >= |start.log| && Opens(Exec(w, start, events).log, i) && Exec(w, start, events).log[i].d.mmsi != ""
    ensures var r := Exec(w, start, events); Accepted(r.log[i].d) && Named(r.state, r.log, i, r.log[i].d.mmsi)
    decreases |events|
  {
    assert events != [];
    var front, e := events[..|events| - 1], events[|events| - 1];
    var r := Exec(w, start, front);
    ReachableStates(w, start, front);
    match e
    case Report(d, c) =>
      if Accepted(d) {
        RunLogged(w, start, front);
        BindsReport(w, r, d, c, i);
        hide Named, Accepted, Inv, Logged;
        if i < |r.log| {
          assert forall j :: 0 <= j <= i ==> Exec(w, start, events).log[j] == r.log[j];
          assert Opens(r.log, i);
          OpenerBinds(w, start, front, i);
        }
      } else {
        assert Exec(w, start, events) == Run(r.state, r.log + [], r.alerts + []);
        assert r.log + [] == r.log;
        OpenerBinds(w, start, front, i);
      }
    case Sweep(order, now) =>
      assert Exec(w, start, events).log == r.log;
      OpenerBinds(w, start, front, i);
      ScanOnlyDark(w, r.state, order, now);
  }

  lemma {:induction false} RestoreKeepsIdentities(w: World, s: State, id: string, p: Point, order: seq<string>)
    requires id in s.tracks && forall o :: o in order ==> o in s.tracks
    ensures forall a :: a in s.tracks ==> RestorePairs(w, s, id, p, order).tracks[a].mmsi == s.tracks[a].mmsi
    decreases |order|
  {
    if order != [] {
      RestoreKeepsIdentities(w, s, id, p, order[..|order| - 1]);
    }
  }

  lemma ReplayedIdentities(w: World, s: State, id: string, d: Detection, order: seq<string>)
    requires Enumerates(order, s.tracks.Keys + {id})
    ensures var x := Replay(w, s, id, d, order);
            && KeepsNames(s, x, id)
            && (id !in s.tracks && d.ais.Some? && d.ais.value.mmsi != "" ==> x.tracks[id].mmsi == d.ais.value.mmsi)
  {
    var y := StepZones(w, Absorb(Pinned(s, id, d), id, d), id, PointOf(d));
    RestoreKeepsIdentities(w, y, id, PointOf(d), order);
  }

  /** The rebuilt track carries the MMSI of the AIS payload that opened it. */
  ghost predicate Rebound(s: State, log: seq<Association>, i: nat) {
    Opens(log, i) && log[i].d.ais.Some? && log[i].d.ais.value.mmsi != "" ==> Named(s, log, i, log[i].d.ais.value.mmsi)
  }

  lemma ReboundStep(s: State, x: State, log: seq<Association>, a: Association, i: nat)
    requires Logged(s, log) && Rebound(s, log, i) && KeepsNames(s, x, a.id)
    requires a.id !in s.tracks && a.d.ais.Some? && a.d.ais.value.mmsi != "" ==> x.tracks[a.id].mmsi == a.d.ais.value.mmsi
    ensures Logged(x, log + [a]) && Rebound(x, log + [a], i)
  {
    LoggedStep(s, x, log, a);
    var longer := log + [a];
    hide Logged, KeepsNames;
    if Opens(longer, i) && longer[i].d.ais.Some? && longer[i].d.ais.value.mmsi != "" {
      assert i < |log| ==> longer[i] == log[i];
      NameStays(s, x, log, a, i, longer[i].d.ais.value.mmsi);
    }
  }

  lemma NothingRebound(w: World, i: nat)
    ensures Logged(Rebuild(w, [], []), []) && Rebound(Rebuild(w, [], []), [], i)
  {
  }

  lemma ReplayRebinds(w: World, s: State, log: seq<Association>, a: Association, order: seq<string>, i: nat)
    requires Enumerates(order, s.tracks.Keys + {a.id}) && Logged(s, log) && Rebound(s, log, i)
    ensures Logged(Replay(w, s, a.id, a.d, order), log + [a]) && Rebound(Replay(w, s, a.id, a.d, order), log + [a], i)
  {
    hide *;
    ReplayedIdentities(w, s, a.id, a.d, order);
    ReboundStep(s, Replay(w, s, a.id, a.d, order), log, a, i);
  }

  /** The rebuilt engine binds it to the MMSI of the AIS payload. */
  lemma {:induction false} OpenerRebinds(w: World, log: seq<Association>, orders: seq<seq<string>>, i: nat)
    requires LegalOrders(w, log, orders)
    ensures Logged(Rebuild(w, log, orders), log) && Rebound(Rebuild(w, log, orders), log, i)
    decreases |log|
  {
    hide *;
    OrdersMatch(w, log, orders);
    if log == [] {
      NothingRebound(w, i);
    } else {
      var n := |log| - 1;
      var front, before, x := log[..n], orders[..n], log[n];
      RebuildUnfolds(w, log, orders);
      OpenerRebinds(w, front, before, i);
      ReplayRebinds(w, Rebuild(w, front, before), front, x, orders[n], i);
      assert log == front + [x];
    }
  }

  /**
    Replaying what a run persisted rebuilds its tracks, points, MMSI bindings, index, last AIS times
    and clocks exactly when the run opened no track with a report whose MMSI fields contradict each
    other. (Contradictions from before the run's own startup were resolved the same way by it.)
   */
  lemma RebuildsExactly(w: World, start: Run, events: seq<Event>, orders: seq<seq<string>>)
    requires Booted(w, start) && Legal(w, start, events) && LegalOrders(w, Exec(w, start, events).log, orders)
    ensures var r := Exec(w, start, events);
            Shadow(r.state, Rebuild(w, r.log, orders)) <==> OpenersAgree(r.log, |start.log|)
    ensures Unlatched(Rebuild(w, Exec(w, start, events).log, orders))
  {
    var r := Exec(w, start, events);
    BootedIsSound(w, start);
    RunAccepted(w, start, events);
    RebuiltIsSound(w, r.log, orders);
    if OpenersAgree(r.log, |start.log|) {
      ReplayRefinesIngest(w, start, events, orders);
    } else {
      var i :| Opens(r.log, i) && i >= |start.log| && !Agrees(r.log[i].d);
      OpenerBinds(w, start, events, i);
      OpenerRebinds(w, r.log, orders, i);
      hide Inv, Unlatched, Logged, Booted, Legal, LegalOrders, AllAccepted;
      NamesDiffer(r.state, Rebuild(w, r.log, orders), r.log, i);
    }
  }

  lemma NamesDiffer(s: State, c: State, log: seq<Association>, i: nat)
    requires Opens(log, i) && Accepted(log[i].d) && !Agrees(log[i].d)
    requires Named(s, log, i, log[i].d.mmsi) && Rebound(c, log, i)
    ensures !Shadow(s, c)
  {
  }

  lemma {:induction false} NewEntriesAgree(w: World, start: Run, events: seq<Event>)
    requires Legal(w, start, events) && OneMmsiEach(events)
    ensures forall i :: |start.log| <= i < |Exec(w, start, events).log| ==> OneMmsi(Exec(w, start, events).log[i].d)
    decreases |events|
  {
    if events != [] {
      NewEntriesAgree(w, start, events[..|events| - 1]);
    }
  }

  lemma ShadowIdentified(r: Run, c: Run)
    requires Identified(r) && Shadow(r.state, c.state) && Inv(c.state) && c.log == r.log
    ensures Identified(c)
  {
    forall id | id in r.state.tracks ensures c.state.tracks[id].mmsi == r.state.tracks[id].mmsi {
      assert Shadows(r.state.tracks[id], c.state.tracks[id]);
    }
  }

  /** Vessels keep their tracks over any number of restarts: the restarted engine agrees on who is who. */
  lemma IdentitiesSurviveRestart(w: World, start: Run, events: seq<Event>, orders: seq<seq<string>>)
    requires Booted(w, start) && Identified(start) && Legal(w, start, events) && OneMmsiEach(events)
    requires LegalOrders(w, Exec(w, start, events).log, orders)
    ensures var r := Exec(w, start, events);
            var c := Run(Rebuild(w, r.log, orders), r.log, []);
            Booted(w, c) && Identified(c)
  {
    RunIdentity(w, start, events);
    NewEntriesAgree(w, start, events);
    RestartedIsBooted(w, start, events, orders);
    ReplayRefinesIngest(w, start, events, orders);
    var r := Exec(w, start, events);
    var c := Run(Rebuild(w, r.log, orders), r.log, []);
    BootedIsSound(w, c);
    hide Identified, Booted, Legal, LegalOrders, Shadow;
    ShadowIdentified(r, c);
  }

  // ---------------------------------------------------------------------------
  // A restart that moves a vessel
  // ---------------------------------------------------------------------------

  // A report that names two vessels, and one of the second vessel.
  const TWO_NAMES := Detection("feed", "1", AIS, Unclassified, 1, true, Geo.Position(0.0, 0.0), "111111111", Some(AisReport("222222222", 0.0, 0.0)), [], true)
  const SECOND_NAME := TWO_NAMES.(sourceEventID := "2", mmsi := "222222222")
  const OPENING := Report(TWO_NAMES, Choice("a", [], ["a"], 1))

  lemma OpenedUnderFirstName()
    ensures Legal(CALM, START, [OPENING])
    ensures var r := Exec(CALM, START, [OPENING]);
            && r.log == [Association("a", TWO_NAMES)] && Inv(r.state) && r.state.tracks.Keys == {"a"}
            && r.state.tracks["a"].mmsi == "111111111" && r.state.byMMSI == map["111111111" := "a"]
  {
    hide PairSymmetric, Accepted;
    FirstReport(TWO_NAMES, OPENING.choice);
    OneMore(CALM, START, [], OPENING);
    assert [] + [OPENING] == [OPENING];
    IngestTurns(CALM, EMPTY, TWO_NAMES, OPENING.choice);
  }

  lemma RebuiltUnderSecondName()
    ensures LegalOrders(CALM, [Association("a", TWO_NAMES)], [["a"]])
    ensures var c := Rebuild(CALM, [Association("a", TWO_NAMES)], [["a"]]);
            c.tracks.Keys == {"a"} && c.byMMSI == map["222222222" := "a"]
  {
    var log, orders := [Association("a", TWO_NAMES)], [["a"]];
    assert log[..0] == [] && orders[..0] == [];
    assert Rebuild(CALM, log[..0], orders[..0]) == EMPTY && LegalOrders(CALM, log[..0], orders[..0]);
    var y := StepZones(CALM, Absorb(Pinned(EMPTY, "a", TWO_NAMES), "a", TWO_NAMES), "a", PointOf(TWO_NAMES));
    assert ["a"][..0] == [];
    assert RestorePairs(CALM, y, "a", PointOf(TWO_NAMES), ["a"]) == y;
  }

  lemma OneEvent(w: World, r: Run, e: Event)
    requires LegalEvent(w, r.state, e)
    ensures Legal(w, r, [e]) && Exec(w, r, [e]) == Step(w, r, e)
  {
    OneMore(w, r, [], e);
    assert [] + [e] == [e];
  }

  lemma SecondIsFresh(s: State, c: Choice)
    requires Inv(s) && s.tracks.Keys == {"a"} && s.tracks["a"].mmsi == "111111111" && s.byMMSI == map["111111111" := "a"]
    requires c == Choice("b", ["a"], ["a", "b"], 1)
    ensures LegalChoice(CALM, s, SECOND_NAME, c) && TargetOf(CALM, s, SECOND_NAME, c) == "b"
  {
    assert !IsSpace("b"[0]);
    AssociateIsNearest(CALM, s, SECOND_NAME, c.associateOrder);
    hide Inv, Associate;
    assert Associate(CALM, s, SECOND_NAME, c.associateOrder) == None;
    assert Placed(CALM, s, SECOND_NAME, c).tracks.Keys == {"a", "b"};
  }

  // The running engine opens track "b" for the second vessel.
  lemma GoesToFresh(r: Run, c: Choice)
    requires Inv(r.state) && r.state.tracks.Keys == {"a"} && r.state.tracks["a"].mmsi == "111111111" && r.state.byMMSI == map["111111111" := "a"]
    requires c == Choice("b", ["a"], ["a", "b"], 1)
    ensures Legal(CALM, r, [Report(SECOND_NAME, c)])
    ensures Exec(CALM, r, [Report(SECOND_NAME, c)]).log == r.log + [Association("b", SECOND_NAME)]
  {
    SecondIsFresh(r.state, c);
    hide LegalChoice, TargetOf;
    OneEvent(CALM, r, Report(SECOND_NAME, c));
  }

  // The restarted one puts it into track "a".
  lemma GoesToBound(r: Run, c: Choice)
    requires r.state.tracks.Keys == {"a"} && r.state.byMMSI == map["222222222" := "a"]
    requires c == Choice("b", ["a"], ["a"], 1)
    ensures Legal(CALM, r, [Report(SECOND_NAME, c)])
    ensures Exec(CALM, r, [Report(SECOND_NAME, c)]).log == r.log + [Association("a", SECOND_NAME)]
  {
    assert !IsSpace("b"[0]);
    assert LegalChoice(CALM, r.state, SECOND_NAME, c) && TargetOf(CALM, r.state, SECOND_NAME, c) == "a";
    assert Indexed(r.state);
    OneEvent(CALM, r, Report(SECOND_NAME, c));
  }

  /** After a restart the same report goes to another track: the contradiction cannot be waived. */
  lemma RestartMovesVessel()
    ensures CALM.config.Validate() && Accepted(TWO_NAMES) && Accepted(SECOND_NAME)
    ensures Legal(CALM, START, [OPENING]) && Exec(CALM, START, [OPENING]).log == [Association("a", TWO_NAMES)]
    ensures var r := Exec(CALM, START, [OPENING]);
            var c := Run(Rebuild(CALM, r.log, [["a"]]), r.log, []);
            var after, others := [Report(SECOND_NAME, Choice("b", ["a"], ["a", "b"], 1))], [Report(SECOND_NAME, Choice("b", ["a"], ["a"], 1))];
            && LegalOrders(CALM, r.log, [["a"]])
            && Legal(CALM, r, after) && Legal(CALM, c, others) && SameInputs(after, others)
            && Exec(CALM, r, after).log == r.log + [Association("b", SECOND_NAME)]
            && Exec(CALM, c, others).log == r.log + [Association("a", SECOND_NAME)]
  {
    OpenedUnderFirstName();
    RebuiltUnderSecondName();
    var r := Exec(CALM, START, [OPENING]);
    var c := Run(Rebuild(CALM, r.log, [["a"]]), r.log, []);
    hide *;
    GoesToFresh(r, Choice("b", ["a"], ["a", "b"], 1));
    GoesToBound(c, Choice("b", ["a"], ["a"], 1));
    SameButPairOrder(SECOND_NAME, Choice("b", ["a"], ["a", "b"], 1), Choice("b", ["a"], ["a"], 1));
    BothAccepted();
  }

  lemma SameButPairOrder(d: Detection, c: Choice, c': Choice)
    requires c' == c.(pairOrder := c'.pairOrder)
    ensures SameInputs([Report(d, c)], [Report(d, c')])
  {
  }

  lemma BothAccepted()
    ensures CALM.config.Validate() && Accepted(TWO_NAMES) && Accepted(SECOND_NAME)
  {
  }
}
