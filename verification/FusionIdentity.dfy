/** Which track a report joins, and what that makes of vessel identities over a whole run. */
module FusionIdentity {
  import opened Base
  import opened Classification
  import opened FusionModel
  import opened FusionRuns
  import opened FusionHistory
  import Geo

  // ---------------------------------------------------------------------------
  // associate
  // ---------------------------------------------------------------------------

  /** Which time gaps pass the correlation window, in nanoseconds: those up to it, and those of 2^63 and more into the past. */
  predicate InTime(window: int, gap: int) {
    if gap >= 0 then gap <= window || window >= 0x7fff_ffff_ffff_ffff
    else if gap > -0x8000_0000_0000_0000 then -gap <= window
    else window >= -0x8000_0000_0000_0000
  }

  /** A track that no MMSI keeps from taking the detection, and that was last seen within the window. */
  predicate Joinable(w: World, s: State, d: Detection, id: string) {
    && id in s.tracks && s.tracks[id].points != []
    && (d.mmsi == "" || s.tracks[id].mmsi == "" || s.tracks[id].mmsi == d.mmsi)
    && InTime(w.config.correlationWindow, d.observedAt - Last(s.tracks[id]).observedAt)
  }

  /** How far from it. */
  function Distance(w: World, s: State, d: Detection, id: string): real
    requires id in s.tracks && s.tracks[id].points != []
  {
    w.distance(s.tracks[id].points[|s.tracks[id].points| - 1].position, d.position)
  }

  predicate InReach(w: World, s: State, d: Detection, id: string) {
    Joinable(w, s, d, id) && Distance(w, s, d, id) <= w.config.correlationRadius
  }

  lemma JoinableExactly(w: World, s: State, d: Detection, id: string)
    requires id in s.tracks
    ensures Joinable(w, s, d, id) <==> Eligible(w, s.tracks[id], d)
    ensures s.tracks[id].points != [] ==> Distance(w, s, d, id) == Gap(w, s.tracks[id], d)
  {
  }

  lemma {:induction false} NearestExact(w: World, s: State, d: Detection, order: seq<string>)
    requires forall id :: id in order ==> id in s.tracks
    ensures var r := Nearest(w, s, d, order);
            match r.id
            case None => r.distance == w.config.correlationRadius && forall id :: id in order ==> !InReach(w, s, d, id)
            case Some(best) =>
              && best in order && InReach(w, s, d, best) && Distance(w, s, d, best) == r.distance
              && forall id :: id in order && Joinable(w, s, d, id) ==> r.distance <= Distance(w, s, d, id)
    decreases |order|
  {
    if order != [] {
      var front, last := order[..|order| - 1], order[|order| - 1];
      NearestExact(w, s, d, front);
      JoinableExactly(w, s, d, last);
      hide Joinable, Eligible, Gap, Distance;
      assert forall id :: id in order <==> id in front || id == last;
    }
  }

  /**
    A report whose MMSI is bound goes to the bound track. Any other goes to a track within reach that
    no eligible track is nearer than, or to a fresh track exactly when no track is within reach.
   */
  lemma AssociateIsNearest(w: World, s: State, d: Detection, order: seq<string>)
    requires Enumerates(order, s.tracks.Keys)
    ensures d.mmsi != "" && d.mmsi in s.byMMSI ==> Associate(w, s, d, order) == Some(s.byMMSI[d.mmsi])
    ensures !(d.mmsi != "" && d.mmsi in s.byMMSI) ==>
              match Associate(w, s, d, order)
              case None => forall id :: !InReach(w, s, d, id)
              case Some(best) =>
                && InReach(w, s, d, best)
                && forall id :: Joinable(w, s, d, id) ==> Distance(w, s, d, best) <= Distance(w, s, d, id)
  {
    NearestExact(w, s, d, order);
    hide Distance, InTime;
  }

  /**
    The time gap is compared after Go's saturating subtraction and wrapping negation, so a report
    more than 2^63 nanoseconds older than the track passes the window as well.
   */
  lemma WindowExact(window: int, a: int, b: int)
    requires 0 < window <= 24 * HOUR
    ensures WithinWindow(window, a, b) <==> -window <= a - b <= window || a - b <= MIN_DURATION
  {
  }

  // The first instant of 1700 against the first of 2000: three centuries apart, inside any window.
  lemma CenturiesApart(window: int)
    requires 0 < window <= 24 * HOUR
    ensures var y1700, y2000 := 620_543 * 24 * HOUR, 730_119 * 24 * HOUR;
            WithinWindow(window, y1700, y2000) && !WithinWindow(window, y2000, y1700)
  {
  }

  // ---------------------------------------------------------------------------
  // Identities over a run
  // ---------------------------------------------------------------------------

  /** The detection's own MMSI and that of its AIS payload are one and the same. */
  predicate OneMmsi(d: Detection) {
    d.ais.Some? ==> d.mmsi == d.ais.value.mmsi
  }

  ghost predicate OneMmsiEach(events: seq<Event>) {
    forall i :: 0 <= i < |events| && events[i].Report? ==> OneMmsi(events[i].d)
  }

  /** Every track with an MMSI is the one the index gives for it. */
  ghost predicate FullyIndexed(s: State) {
    forall id :: id in s.tracks && s.tracks[id].mmsi != "" ==>
      s.tracks[id].mmsi in s.byMMSI && s.byMMSI[s.tracks[id].mmsi] == id
  }

  ghost predicate KeepsIdentities(s: State, x: State) {
    forall id :: id in s.tracks ==> id in x.tracks && (s.tracks[id].mmsi != "" ==> x.tracks[id].mmsi == s.tracks[id].mmsi)
  }

  lemma PlacedIdentity(w: World, s: State, d: Detection, c: Choice)
    requires Inv(s) && FullyIndexed(s) && Accepted(d) && LegalChoice(w, s, d, c)
    ensures var y, id := Placed(w, s, d, c), TargetOf(w, s, d, c);
            && FullyIndexed(y) && KeepsIdentities(s, y) && id in y.tracks
            && (d.mmsi != "" ==> y.tracks[id].mmsi in {"", d.mmsi})
  {
    AssociateIsNearest(w, s, d, c.associateOrder);
  }

  lemma AbsorbIdentity(s: State, id: string, d: Detection)
    requires FullyIndexed(s) && id in s.tracks && OneMmsi(d)
    requires d.mmsi != "" ==> s.tracks[id].mmsi in {"", d.mmsi}
    requires forall m :: m in s.byMMSI ==> s.byMMSI[m] in s.tracks && s.tracks[s.byMMSI[m]].mmsi == m
    requires d.mmsi != "" && s.tracks[id].mmsi == "" ==> d.mmsi !in s.byMMSI
    requires d.ais.Some? ==> d.mmsi != ""
    ensures var x := Absorb(s, id, d);
            && FullyIndexed(x) && KeepsIdentities(s, x)
            && x.tracks[id].mmsi == if d.mmsi != "" then d.mmsi else s.tracks[id].mmsi
  {
    var x := Absorb(s, id, d);
    forall a | a in x.tracks && x.tracks[a].mmsi != ""
      ensures x.tracks[a].mmsi in x.byMMSI && x.byMMSI[x.tracks[a].mmsi] == a
    {
      if a != id {
        assert x.tracks[a] == s.tracks[a];
      }
    }
  }

  lemma PlacedUnbound(w: World, s: State, d: Detection, c: Choice)
    requires Inv(s) && FullyIndexed(s) && Accepted(d) && LegalChoice(w, s, d, c)
    ensures var y, id := Placed(w, s, d, c), TargetOf(w, s, d, c);
            id in y.tracks && (d.mmsi != "" && y.tracks[id].mmsi == "" ==> d.mmsi !in y.byMMSI)
  {
    AssociateIsNearest(w, s, d, c.associateOrder);
  }

  lemma IngestIdentity(w: World, s: State, d: Detection, c: Choice)
    requires Inv(s) && FullyIndexed(s) && Accepted(d) && OneMmsi(d) && LegalChoice(w, s, d, c)
    ensures TargetOf(w, s, d, c) in Placed(w, s, d, c).tracks
    ensures var x, id := Ingest(w, s, d, c).state, TargetOf(w, s, d, c);
            && FullyIndexed(x) && KeepsIdentities(s, x)
            && id in x.tracks && (d.mmsi != "" ==> x.tracks[id].mmsi == d.mmsi)
  {
    var y, id := Placed(w, s, d, c), TargetOf(w, s, d, c);
    PlacedIsOpened(w, s, d, c);
    PlacedIdentity(w, s, d, c);
    PlacedUnbound(w, s, d, c);
    AbsorbIdentity(y, id, d);
    IngestTurns(w, s, d, c);
    SameIdentities(w, Absorb(y, id, d), BeforePairs(w, s, d, c), Ingest(w, s, d, c).state, id, PointOf(d));
    KeepsThrough(s, y, Absorb(y, id, d), Ingest(w, s, d, c).state);
  }

  lemma KeepsThrough(s: State, y: State, z: State, x: State)
    requires KeepsIdentities(s, y) && KeepsIdentities(y, z)
    requires x.tracks.Keys == z.tracks.Keys && forall a :: a in z.tracks ==> x.tracks[a].mmsi == z.tracks[a].mmsi
    ensures KeepsIdentities(s, x)
  {
  }

  // Evaluation changes no identity.
  lemma SameIdentities(w: World, s: State, y: State, x: State, id: string, p: Point)
    requires id in s.tracks && y == s.(tracks := s.tracks[id := StepLoitering(w, s.tracks[id], p)])
    requires Turned(w, y, x, id, p, y.tracks.Keys)
    ensures x.byMMSI == s.byMMSI && x.tracks.Keys == s.tracks.Keys
    ensures forall a :: a in s.tracks ==> x.tracks[a].mmsi == s.tracks[a].mmsi
  {
    forall a | a in s.tracks ensures x.tracks[a].mmsi == s.tracks[a].mmsi {
      if a != id {
        assert x.tracks[a] == OtherAfter(w, y, id, p, a);
      }
    }
  }

  /** Every report with an MMSI went to the track that carries it. */
  ghost predicate Carried(s: State, log: seq<Association>) {
    forall i :: 0 <= i < |log| ==> log[i].id in s.tracks && (log[i].d.mmsi != "" ==> s.tracks[log[i].id].mmsi == log[i].d.mmsi)
  }

  lemma EventIdentity(w: World, r: Run, e: Event)
    requires Inv(r.state) && FullyIndexed(r.state) && Carried(r.state, r.log)
    requires LegalEvent(w, r.state, e) && (e.Report? ==> OneMmsi(e.d))
    ensures FullyIndexed(Step(w, r, e).state) && Carried(Step(w, r, e).state, Step(w, r, e).log)
  {
    match e
    case Report(d, c) =>
      if Accepted(d) {
        IngestIdentity(w, r.state, d, c);
      }
    case Sweep(order, now) =>
      ScanOnlyDark(w, r.state, order, now);
  }

  /** Index, tracks and reports agree on who is who. */
  ghost predicate Identified(r: Run) {
    Inv(r.state) && FullyIndexed(r.state) && Carried(r.state, r.log)
  }

  lemma {:induction false} RunIdentity(w: World, start: Run, events: seq<Event>)
    requires Identified(start) && Legal(w, start, events) && OneMmsiEach(events)
    ensures Identified(Exec(w, start, events))
    decreases |events|
  {
    if events != [] {
      var front := events[..|events| - 1];
      RunIdentity(w, start, front);
      EventIdentity(w, Exec(w, start, front), events[|events| - 1]);
      ReachableStates(w, start, events);
    }
  }

  lemma EmptyIsIdentified()
    ensures Identified(START)
  {
  }

  /**
    When the two MMSI fields of every AIS report are the same, the index is the exact inverse of the
    identities the tracks carry, and two reports that carry an MMSI are in the same track exactly
    when they carry the same one: no track mixes two vessels and no vessel has two tracks.
   */
  lemma IdentitiesNeverMix(w: World, start: Run, events: seq<Event>, i: nat, j: nat)
    requires Identified(start) && Legal(w, start, events) && OneMmsiEach(events)
    ensures var s := Exec(w, start, events).state;
            forall m, id :: m != "" ==> ((m in s.byMMSI && s.byMMSI[m] == id) <==> (id in s.tracks && s.tracks[id].mmsi == m))
    ensures var log := Exec(w, start, events).log;
            i < |log| && j < |log| && log[i].d.mmsi != "" && log[j].d.mmsi != "" ==>
              (log[i].id == log[j].id <==> log[i].d.mmsi == log[j].d.mmsi)
  {
    RunIdentity(w, start, events);
  }

  // ---------------------------------------------------------------------------
  // Without that hypothesis
  // ---------------------------------------------------------------------------

  const CALM := World(Config(600 * SECOND, 2000.0, 500.0, 600 * SECOND, 1800 * SECOND, 1800 * SECOND, 45.0), [], (p, q) => 0.0)

  // An AIS report that leaves the MMSI to its payload.
  function PayloadOnly(mmsi: string): Detection {
    Detection("feed", "event", AIS, Unclassified, 1, true, Geo.Position(0.0, 0.0), "", Some(AisReport(mmsi, 0.0, 0.0)), [], true)
  }

  lemma OneMore(w: World, r: Run, events: seq<Event>, e: Event)
    requires Legal(w, r, events) && LegalEvent(w, Exec(w, r, events).state, e)
    ensures Legal(w, r, events + [e]) && Exec(w, r, events + [e]) == Step(w, Exec(w, r, events), e)
  {
    assert (events + [e])[..|events|] == events;
  }

  lemma FirstChoice(first: Detection, c: Choice)
    requires c == Choice("a", [], ["a"], 1)
    ensures LegalChoice(CALM, EMPTY, first, c) && TargetOf(CALM, EMPTY, first, c) == "a"
  {
    assert !IsSpace("a"[0]);
    assert Placed(CALM, EMPTY, first, c).tracks.Keys == {"a"};
  }

  // The first report opens track "a".
  lemma FirstReport(first: Detection, c: Choice)
    requires Accepted(first) && c == Choice("a", [], ["a"], 1)
    ensures LegalEvent(CALM, EMPTY, Report(first, c))
    ensures var r := Step(CALM, START, Report(first, c));
            r.log == [Association("a", first)] && Inv(r.state) && r.state.tracks.Keys == {"a"}
            && r.state.tracks["a"].points == [PointOf(first)]
            && r.state.tracks["a"].mmsi == (if first.mmsi != "" then first.mmsi else if first.ais.Some? then first.ais.value.mmsi else "")
  {
    FirstChoice(first, c);
    IngestReported(CALM, EMPTY, first, c);
    IngestKeepsInv(CALM, EMPTY, first, c);
  }

  // The second one, within the window, joins it.
  lemma SecondReport(r: Run, second: Detection, c: Choice)
    requires Accepted(second) && second.mmsi == "" && c == Choice("b", ["a"], ["a"], 1)
    requires Inv(r.state) && r.state.tracks.Keys == {"a"}
    requires |r.state.tracks["a"].points| == 1
    requires WithinWindow(600 * SECOND, second.observedAt, r.state.tracks["a"].points[0].observedAt)
    ensures LegalEvent(CALM, r.state, Report(second, c))
    ensures Step(CALM, r, Report(second, c)).log == r.log + [Association("a", second)]
    ensures var x := Step(CALM, r, Report(second, c)).state;
            "a" in x.tracks && (r.state.tracks["a"].mmsi != "" ==> x.tracks["a"].mmsi == r.state.tracks["a"].mmsi)
  {
    assert !IsSpace("b"[0]);
    assert InReach(CALM, r.state, second, "a");
    AssociateIsNearest(CALM, r.state, second, c.associateOrder);
    assert LegalChoice(CALM, r.state, second, c);
    IngestReported(CALM, r.state, second, c);
  }

  lemma TwoReports(first: Detection, second: Detection)
    requires Accepted(first) && Accepted(second) && second.mmsi == ""
    requires WithinWindow(600 * SECOND, second.observedAt, first.observedAt)
    ensures var events := [Report(first, Choice("a", [], ["a"], 1)), Report(second, Choice("b", ["a"], ["a"], 1))];
            && Legal(CALM, START, events)
            && Exec(CALM, START, events).log == [Association("a", first), Association("a", second)]
            && "a" in Exec(CALM, START, events).state.tracks
            && (first.mmsi != "" ==> Exec(CALM, START, events).state.tracks["a"].mmsi == first.mmsi)
  {
    var e1, e2 := Report(first, Choice("a", [], ["a"], 1)), Report(second, Choice("b", ["a"], ["a"], 1));
    hide LegalEvent, Step, Accepted, Inv, WithinWindow;
    FirstReport(first, e1.choice);
    OneMore(CALM, START, [], e1);
    assert [] + [e1] == [e1];
    SecondReport(Exec(CALM, START, [e1]), second, e2.choice);
    OneMore(CALM, START, [e1], e2);
    assert [e1] + [e2] == [e1, e2];
  }

  /**
    Reports that carry their MMSI only in the AIS payload are placed by position alone, so a track
    may absorb two vessels.
   */
  lemma PayloadOnlyMmsiMixes()
    ensures var first, second := PayloadOnly("111111111"), PayloadOnly("222222222");
            var events := [Report(first, Choice("a", [], ["a"], 1)), Report(second, Choice("b", ["a"], ["a"], 1))];
            && CALM.config.Validate() && Accepted(first) && Accepted(second)
            && Legal(CALM, START, events)
            && Exec(CALM, START, events).log == [Association("a", first), Association("a", second)]
  {
    TwoReports(PayloadOnly("111111111"), PayloadOnly("222222222"));
  }

  /** After a run of agreeing reports the detection joins a track that carries another MMSI than its AIS payload. */
  ghost predicate Misplaces(w: World, events: seq<Event>, d: Detection, c: Choice)
    requires d.ais.Some?
  {
    && w.config.Validate() && OneMmsiEach(events) && Legal(w, START, events + [Report(d, c)])
    && var r := Exec(w, START, events + [Report(d, c)]);
       && r.log != [] && r.log[|r.log| - 1].d == d
       && var id := r.log[|r.log| - 1].id;
          id in r.state.tracks && r.state.tracks[id].mmsi != d.ais.value.mmsi
  }

  /** A contradicting MMSI opens a track under the detection's own field. */
  lemma ContradictionMisplaces(d: Detection)
    requires Accepted(d) && d.ais.Some? && d.mmsi != "" && d.mmsi != d.ais.value.mmsi
    ensures Misplaces(CALM, [], d, Choice("a", [], ["a"], 1))
  {
    var e := Report(d, Choice("a", [], ["a"], 1));
    FirstReport(d, e.choice);
    OneMore(CALM, START, [], e);
  }

  lemma OtherVessel(d: Detection) returns (first: Detection)
    requires Accepted(d) && d.ais.Some?
    ensures Accepted(first) && OneMmsi(first) && first.mmsi != "" && first.mmsi != d.ais.value.mmsi
    ensures WithinWindow(600 * SECOND, d.observedAt, first.observedAt)
  {
    var other := if d.ais.value.mmsi == "111111111" then "222222222" else "111111111";
    assert "111111111"[0] != "222222222"[0];
    first := d.(mmsi := other, ais := Some(AisReport(other, 0.0, 0.0)));
  }

  /** An empty one joins a track of another vessel. */
  lemma OmissionMisplaces(d: Detection) returns (first: Detection)
    requires Accepted(d) && d.ais.Some? && d.mmsi == ""
    ensures Misplaces(CALM, [Report(first, Choice("a", [], ["a"], 1))], d, Choice("b", ["a"], ["a"], 1))
  {
    hide Accepted, Legal, Exec, WithinWindow;
    first := OtherVessel(d);
    TwoReports(first, d);
    assert [Report(first, Choice("a", [], ["a"], 1))] + [Report(d, Choice("b", ["a"], ["a"], 1))]
        == [Report(first, Choice("a", [], ["a"], 1)), Report(d, Choice("b", ["a"], ["a"], 1))];
  }

  lemma AgreeingIsPlaced(w: World, events: seq<Event>, d: Detection, c: Choice)
    requires Accepted(d) && d.ais.Some? && OneMmsi(d)
    ensures !Misplaces(w, events, d, c)
  {
    var longer := events + [Report(d, c)];
    if OneMmsiEach(events) && Legal(w, START, longer) {
      RunIdentity(w, START, longer);
    }
  }

  /**
    The condition is exact: the two fields of an AIS detection agree exactly when no run of agreeing
    reports before it makes it join a track that carries another MMSI than its payload.
   */
  lemma OneMmsiExactly(d: Detection)
    requires Accepted(d) && d.ais.Some?
    ensures OneMmsi(d) <==> !exists w: World, events: seq<Event>, c: Choice :: Misplaces(w, events, d, c)
  {
    if OneMmsi(d) {
      forall w: World, events: seq<Event>, c: Choice ensures !Misplaces(w, events, d, c) {
        AgreeingIsPlaced(w, events, d, c);
      }
    } else if d.mmsi != "" {
      ContradictionMisplaces(d);
    } else {
      var first := OmissionMisplaces(d);
    }
  }
}
