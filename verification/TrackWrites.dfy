/**
  The tables beside the running engine when requests overlap: a handler calls the engine, then reads
  the track, then writes (internal/server/isr_handlers.go), and other requests come in between.
 */
module TrackWrites {
  import opened Base
  import opened Classification
  import opened FusionModel
  import opened FusionRuns
  import opened FusionReplay
  import opened FusionHistory
  import opened FusionMeaning
  import opened FusionIdentity
  import opened FusionRebuild
  import opened FusionAlerts
  import opened TrackStore

  // ---------------------------------------------------------------------------
  // Steps
  // ---------------------------------------------------------------------------

  /** Where a request is: after event k of the engine, and with the track as it was after n events. */
  datatype Local =
    | Idle
    | Ingested(k: nat, id: string, d: Detection, alerts: seq<Anomaly>)
    | Looked(k: nat, id: string, d: Detection, alerts: seq<Anomaly>, track: TrackState, n: nat)
    | Scanned(k: nat, alerts: seq<Anomaly>)

  /**
    The engine by its events so far, the requests under way, the tables, and a record of which events
    were written and after how many events each snapshot written for a track was taken.
   */
  datatype System = System(
    events: seq<FusionRuns.Event>, callers: map<nat, Local>, t: Tables, written: set<nat>, taken: map<string, seq<nat>>)

  const NOTHING := System([], map[], NO_ROWS, {}, map[])

  datatype Action =
    | Serve(c: nat, e: FusionRuns.Event)
    | Look(c: nat)
    | Record(c: nat, now: int)
    | Drop(c: nat)

  /** The snapshots written for the track, in the order of the writes. */
  function Snapshots(s: System, id: string): seq<nat> {
    if id in s.t.tracks && id in s.taken then s.taken[id] else []
  }

  function At(s: System, c: nat): Local {
    if c in s.callers then s.callers[c] else Idle
  }

  ghost predicate Enabled(w: World, s: System, a: Action) {
    match a
    case Serve(c, e) => At(s, c).Idle? && LegalEvent(w, Exec(w, START, s.events).state, e)
    case Look(c) => At(s, c).Ingested? && At(s, c).id in Exec(w, START, s.events).state.tracks
    case Record(c, _) => (At(s, c).Looked? && At(s, c).track.points != []) || At(s, c).Scanned?
    case Drop(c) => true
  }

  /** What a request has to write after its event. */
  ghost function Served(w: World, s: System, e: FusionRuns.Event): Local {
    var f := EffectOf(w, Exec(w, START, s.events).state, e);
    if e.Sweep? then Scanned(|s.events|, f.out.alerts)
    else if f.log == [] then Idle
    else Ingested(|s.events|, f.log[0].id, f.log[0].d, f.out.alerts)
  }

  /** A request whose write fails, or that is cancelled, drops what it had to write. */
  ghost function After(w: World, s: System, a: Action): System
    requires Enabled(w, s, a)
  {
    match a
    case Serve(c, e) => s.(events := s.events + [e], callers := s.callers[c := Served(w, s, e)])
    case Look(c) =>
      var x := At(s, c);
      s.(callers := s.callers[c := Looked(x.k, x.id, x.d, x.alerts, Exec(w, START, s.events).state.tracks[x.id], |s.events|)])
    case Record(c, now) =>
      var x := At(s, c);
      if x.Looked? then
        s.(callers := s.callers[c := Idle], t := Fused(s.t, x.id, x.track, x.d, x.alerts, now), written := s.written + {x.k},
           taken := s.taken[x.id := Snapshots(s, x.id) + [x.n]])
      else
        s.(callers := s.callers[c := Idle], t := Persisted(s.t, x.alerts), written := s.written + {x.k})
    case Drop(c) => s.(callers := s.callers[c := Idle])
  }

  ghost predicate Runs(w: World, s: System, actions: seq<Action>) {
    actions == [] || (Runs(w, s, actions[..|actions| - 1]) && Enabled(w, Reached(w, s, actions[..|actions| - 1]), actions[|actions| - 1]))
  }

  ghost function Reached(w: World, s: System, actions: seq<Action>): System {
    if actions == [] then s
    else
      var before := Reached(w, s, actions[..|actions| - 1]);
      if Enabled(w, before, actions[|actions| - 1]) then After(w, before, actions[|actions| - 1]) else before
  }

  // ---------------------------------------------------------------------------
  // The engine as it was
  // ---------------------------------------------------------------------------

  ghost function RunAt(w: World, events: seq<FusionRuns.Event>, n: nat): Run
    requires n <= |events|
  {
    Exec(w, START, events[..n])
  }

  /** What event k does to the engine. */
  ghost function EffectAt(w: World, events: seq<FusionRuns.Event>, k: nat): Effect
    requires k < |events|
  {
    EffectOf(w, RunAt(w, events, k).state, events[k])
  }

  lemma SameBefore(w: World, events: seq<FusionRuns.Event>, e: FusionRuns.Event)
    ensures forall n :: 0 <= n <= |events| ==> RunAt(w, events + [e], n) == RunAt(w, events, n)
    ensures forall k :: 0 <= k < |events| ==> EffectAt(w, events + [e], k) == EffectAt(w, events, k)
    ensures RunAt(w, events, |events|) == Exec(w, START, events)
    ensures EffectAt(w, events + [e], |events|) == EffectOf(w, Exec(w, START, events).state, e)
  {
    var longer := events + [e];
    assert events[..|events|] == events;
    forall n | 0 <= n <= |events| ensures longer[..n] == events[..n] {
    }
    forall k | 0 <= k < |events| ensures EffectAt(w, longer, k) == EffectAt(w, events, k) {
      assert longer[k] == events[k] && RunAt(w, longer, k) == RunAt(w, events, k);
    }
    assert longer[|events|] == e;
  }

  /** A later state of a track: its MMSI stays, its label does not fall. */
  predicate Follows(a: TrackState, b: TrackState) {
    (a.mmsi != "" ==> b.mmsi == a.mmsi) && Rank(a.level) <= Rank(b.level)
  }

  predicate SameFacts(a: TrackState, b: TrackState) {
    a.mmsi == b.mmsi && a.level == b.level && a.points == b.points
  }

  /** From run r to run x: the track is still there, and as it was unless it got a report. */
  ghost predicate Develops(r: Run, x: Run, id: string)
    requires id in r.state.tracks
  {
    && id in x.state.tracks && Follows(r.state.tracks[id], x.state.tracks[id])
    && History(r.log, id) <= History(x.log, id)
    && (History(x.log, id) == History(r.log, id) ==> SameFacts(r.state.tracks[id], x.state.tracks[id]))
  }

  lemma DevelopsOn(r: Run, x: Run, y: Run, id: string)
    requires id in r.state.tracks && Develops(r, x, id) && Develops(x, y, id)
    ensures Develops(r, y, id)
  {
    if History(y.log, id) == History(r.log, id) {
      assert |History(x.log, id)| == |History(r.log, id)|;
    }
  }

  lemma AbsorbFollows(t: TrackState, d: Detection)
    requires Known(t.level) && Known(d.level)
    ensures Follows(t, AbsorbTrack(t, d))
  {
  }

  lemma EventDevelops(w: World, r: Run, e: FusionRuns.Event, id: string)
    requires Inv(r.state) && LegalEvent(w, r.state, e) && id in r.state.tracks
    ensures Develops(r, Step(w, r, e), id)
  {
    var x := Step(w, r, e);
    match e
    case Report(d, c) =>
      if Accepted(d) {
        var target := TargetOf(w, r.state, d, c);
        IngestReported(w, r.state, d, c);
        HistoryGrows(r.log, Association(target, d), id);
        AbsorbFollows(r.state.tracks[id], d);
      } else {
        assert r.log + [] == r.log;
      }
    case Sweep(order, now) =>
      assert r.log + [] == r.log;
      ScanOnlyDark(w, r.state, order, now);
  }

  lemma OneMoreEvent(w: World, events: seq<FusionRuns.Event>, k: nat)
    requires Legal(w, START, events) && k < |events|
    ensures Inv(RunAt(w, events, k).state) && LegalEvent(w, RunAt(w, events, k).state, events[k])
    ensures RunAt(w, events, k + 1) == Step(w, RunAt(w, events, k), events[k])
  {
    EmptyIsBooted(w);
    LegalPrefix(w, START, events, k);
    hide Inv, LegalEvent, Step, Legal;
    assert events[..k + 1][..k] == events[..k];
  }

  lemma DevelopsNow(r: Run, id: string)
    requires id in r.state.tracks
    ensures Develops(r, r, id)
  {
  }

  lemma {:induction false} RunDevelops(w: World, events: seq<FusionRuns.Event>, n: nat, m: nat, id: string)
    requires Legal(w, START, events) && n <= m <= |events| && id in RunAt(w, events, n).state.tracks
    ensures Develops(RunAt(w, events, n), RunAt(w, events, m), id)
    decreases m
  {
    hide *;
    if n < m {
      RunDevelops(w, events, n, m - 1, id);
      OneMoreEvent(w, events, m - 1);
      assert id in RunAt(w, events, m - 1).state.tracks by {
        DevelopsKeeps(RunAt(w, events, n), RunAt(w, events, m - 1), id);
      }
      EventDevelops(w, RunAt(w, events, m - 1), events[m - 1], id);
      DevelopsOn(RunAt(w, events, n), RunAt(w, events, m - 1), RunAt(w, events, m), id);
    } else {
      DevelopsNow(RunAt(w, events, n), id);
    }
  }

  lemma DevelopsKeeps(r: Run, x: Run, id: string)
    requires id in r.state.tracks && Develops(r, x, id)
    ensures id in x.state.tracks
  {
  }

  // ---------------------------------------------------------------------------
  // The invariant
  // ---------------------------------------------------------------------------

  /** Event k of the engine put the detection into track id and raised these alerts. */
  ghost predicate Did(w: World, s: System, k: nat, id: string, d: Detection, alerts: seq<Anomaly>) {
    k < |s.events| && EffectAt(w, s.events, k).log == [Association(id, d)] && EffectAt(w, s.events, k).out.alerts == alerts
  }

  /** What a request holds is what its event did, and a snapshot of the track from some time after it. */
  ghost predicate CallerRight(w: World, s: System, c: nat) {
    match At(s, c)
    case Idle => true
    case Ingested(k, id, d, alerts) => Did(w, s, k, id, d, alerts)
    case Looked(k, id, d, alerts, track, n) =>
      && Did(w, s, k, id, d, alerts) && n <= |s.events|
      && id in RunAt(w, s.events, n).state.tracks && RunAt(w, s.events, n).state.tracks[id] == track
    case Scanned(k, alerts) => k < |s.events| && EffectAt(w, s.events, k).log == [] && EffectAt(w, s.events, k).out.alerts == alerts
  }

  /** After n events there is such a track. */
  ghost predicate Taken(w: World, events: seq<FusionRuns.Event>, id: string, n: nat) {
    n <= |events| && id in RunAt(w, events, n).state.tracks && RunAt(w, events, n).state.tracks[id].points != []
  }

  ghost function TrackAt(w: World, events: seq<FusionRuns.Event>, id: string, n: nat): (t: TrackState)
    requires Taken(w, events, id, n)
    ensures t.points != []
  {
    RunAt(w, events, n).state.tracks[id]
  }

  ghost predicate AllTaken(w: World, events: seq<FusionRuns.Event>, id: string, ns: seq<nat>) {
    ns != [] && forall i :: 0 <= i < |ns| ==> Taken(w, events, id, ns[i])
  }

  /** The row shows label and point count of the track as it was when the last snapshot written for it was taken. */
  ghost predicate RowShows(w: World, events: seq<FusionRuns.Event>, id: string, row: TrackRow, ns: seq<nat>)
    requires AllTaken(w, events, id, ns)
  {
    var last := TrackAt(w, events, id, ns[|ns| - 1]);
    row.level == last.level && row.pointCount == |last.points|
  }

  /** Its MMSI is the track's, or not yet known; it is there once a snapshot with one was written last. */
  ghost predicate NameShows(w: World, events: seq<FusionRuns.Event>, id: string, row: TrackRow, ns: seq<nat>)
    requires AllTaken(w, events, id, ns)
  {
    && id in RunAt(w, events, |events|).state.tracks
    && row.mmsi in {"", RunAt(w, events, |events|).state.tracks[id].mmsi}
    && (TrackAt(w, events, id, ns[|ns| - 1]).mmsi != "" ==> row.mmsi != "")
  }

  ghost function LastAt(w: World, events: seq<FusionRuns.Event>, id: string, n: nat): int {
    if Taken(w, events, id, n) then Last(TrackAt(w, events, id, n)).observedAt else 0
  }

  /** Its first time is from the first snapshot written, its last time the latest of them all. */
  ghost predicate TimesShow(w: World, events: seq<FusionRuns.Event>, id: string, row: TrackRow, ns: seq<nat>)
    requires AllTaken(w, events, id, ns)
  {
    && row.firstAt == TrackAt(w, events, id, ns[0]).points[0].observedAt
    && (forall i :: 0 <= i < |ns| ==> LastAt(w, events, id, ns[i]) <= row.lastAt)
    && (exists i :: 0 <= i < |ns| && LastAt(w, events, id, ns[i]) == row.lastAt)
  }

  ghost predicate Facts(w: World, events: seq<FusionRuns.Event>, id: string, row: TrackRow, ns: seq<nat>) {
    && AllTaken(w, events, id, ns)
    && RowShows(w, events, id, row, ns) && NameShows(w, events, id, row, ns) && TimesShow(w, events, id, row, ns)
  }

  /** A track row against the engine as it was at the snapshots written for it. */
  ghost predicate Shows(w: World, s: System, id: string)
    requires id in s.t.tracks
  {
    Facts(w, s.events, id, s.t.tracks[id], Snapshots(s, id))
  }

  /** What is stored for an association or an alert was written for an event that was recorded. */
  ghost predicate Associates(w: World, s: System, k: nat, key: Key) {
    k in s.written && k < |s.events| && EffectAt(w, s.events, k).log != [] && KeyOf(EffectAt(w, s.events, k).log[0].d) == key
  }

  ghost predicate Raises(w: World, s: System, k: nat, i: int, key: AnomalyID) {
    && k in s.written && k < |s.events|
    && 0 <= i < |EffectAt(w, s.events, k).out.alerts| && IDOf(EffectAt(w, s.events, k).out.alerts[i]) == key
  }

  ghost predicate StoredFor(w: World, s: System, k: nat, i: int, key: AnomalyID)
    requires key in s.t.anomalies
  {
    && Raises(w, s, k, i, key) && FirstOfItsID(EffectAt(w, s.events, k).out.alerts, i)
    && s.t.anomalies[key] == EffectAt(w, s.events, k).out.alerts[i]
  }

  ghost predicate AnomaliesRight(w: World, s: System) {
    && (forall key :: key in s.t.anomalies ==> exists k: nat, i: int :: StoredFor(w, s, k, i, key))
    && (forall k: nat, i: int, key :: Raises(w, s, k, i, key) ==> key in s.t.anomalies)
  }

  ghost predicate AssociationsRight(w: World, s: System) {
    && RowsFromLog(s.t.associations, Exec(w, START, s.events).log)
    && (forall key :: key in s.t.associations <==> exists k: nat :: Associates(w, s, k, key))
  }

  /** Every stored alert was announced once. */
  ghost predicate OutboxRight(t: Tables) {
    && (forall i, j :: 0 <= i < j < |t.outbox| ==> t.outbox[i] != t.outbox[j])
    && (forall key :: key in t.anomalies <==> key in t.outbox)
  }

  ghost predicate Sound(w: World, s: System) {
    && Legal(w, START, s.events)
    && (forall c :: CallerRight(w, s, c))
    && (forall id :: id in s.t.tracks ==> Shows(w, s, id))
    && AnomaliesRight(w, s) && AssociationsRight(w, s) && OutboxRight(s.t)
    && (forall k :: k in s.written ==> k < |s.events|)
  }

  // ---------------------------------------------------------------------------
  // One write
  // ---------------------------------------------------------------------------

  ghost predicate FromList(t: Tables, alerts: seq<Anomaly>, key: AnomalyID, a: Anomaly, i: int) {
    key !in t.anomalies && FirstOfItsID(alerts, i) && IDOf(alerts[i]) == key && a == alerts[i]
  }

  /** What persisting a list of alerts leaves: everything that was there, and the first alert of each new identity. */
  lemma {:induction false} PersistsOnly(t: Tables, alerts: seq<Anomaly>)
    ensures forall key :: key in t.anomalies ==> key in Persisted(t, alerts).anomalies && Persisted(t, alerts).anomalies[key] == t.anomalies[key]
    ensures forall i :: 0 <= i < |alerts| ==> IDOf(alerts[i]) in Persisted(t, alerts).anomalies
    ensures forall key :: key in Persisted(t, alerts).anomalies && key !in t.anomalies ==>
              exists i :: FromList(t, alerts, key, Persisted(t, alerts).anomalies[key], i)
    ensures OutboxRight(t) ==> OutboxRight(Persisted(t, alerts))
    decreases |alerts|
  {
    if alerts != [] {
      var n := |alerts| - 1;
      var front, x, y := alerts[..n], Persisted(t, alerts[..n]), Persisted(t, alerts);
      PersistsOnly(t, front);
      forall key | key in y.anomalies && key !in t.anomalies ensures exists i :: FromList(t, alerts, key, y.anomalies[key], i) {
        if key in x.anomalies {
          var i :| FromList(t, front, key, x.anomalies[key], i);
          assert FromList(t, alerts, key, y.anomalies[key], i);
        } else {
          forall j | 0 <= j < n ensures IDOf(alerts[j]) != key {
            assert IDOf(front[j]) in x.anomalies;
          }
          assert FromList(t, alerts, key, y.anomalies[key], n);
        }
      }
      if OutboxRight(t) {
        OutboxGrows(x, y, IDOf(alerts[n]));
      }
    }
  }

  lemma OutboxGrows(x: Tables, y: Tables, key: AnomalyID)
    requires OutboxRight(x)
    requires if key in x.anomalies then y == x else y.anomalies.Keys == x.anomalies.Keys + {key} && y.outbox == x.outbox + [key]
    ensures OutboxRight(y)
  {
    if key !in x.anomalies {
      assert y.outbox[|x.outbox|] == key;
      forall k ensures k in y.anomalies <==> k in y.outbox {
        assert k in y.outbox <==> k in x.outbox || k == key;
      }
    }
  }

  lemma AnomaliesRecorded(w: World, s: System, x: System, t: Tables, k: nat, alerts: seq<Anomaly>)
    requires AnomaliesRight(w, s) && k < |s.events| && EffectAt(w, s.events, k).out.alerts == alerts
    requires x.events == s.events && x.written == s.written + {k}
    requires t.anomalies == s.t.anomalies && x.t.anomalies == Persisted(t, alerts).anomalies
    ensures AnomaliesRight(w, x)
  {
    PersistsOnly(t, alerts);
    forall key | key in x.t.anomalies ensures exists k': nat, i: int :: StoredFor(w, x, k', i, key) {
      if key in s.t.anomalies {
        var k': nat, i: int :| StoredFor(w, s, k', i, key);
        assert Raises(w, s, k', i, key);
        assert Raises(w, x, k', i, key);
        assert StoredFor(w, x, k', i, key);
      } else {
        var i :| FromList(t, alerts, key, x.t.anomalies[key], i);
        assert Raises(w, x, k, i, key);
        assert StoredFor(w, x, k, i, key);
      }
    }
    forall k': nat, i: int, key | Raises(w, x, k', i, key) ensures key in x.t.anomalies {
      if k' in s.written {
        assert Raises(w, s, k', i, key);
      }
    }
  }

  lemma AssociationRecorded(w: World, s: System, x: System, k: nat, id: string, d: Detection, now: int)
    requires AssociationsRight(w, s) && k < |s.events| && EffectAt(w, s.events, k).log == [Association(id, d)]
    requires x.events == s.events && x.written == s.written + {k}
    requires x.t.associations == Associated(s.t.associations, Association(id, d), now)
    requires exists i :: 0 <= i < |Exec(w, START, s.events).log| && Exec(w, START, s.events).log[i] == Association(id, d)
    ensures AssociationsRight(w, x)
  {
    var log := Exec(w, START, s.events).log;
    forall key | key in x.t.associations ensures FromLog(x.t.associations, log, key) {
      if key in s.t.associations {
        assert FromLog(s.t.associations, log, key);
      }
    }
    forall key ensures key in x.t.associations <==> exists k': nat :: Associates(w, x, k', key) {
      if key in s.t.associations {
        var k': nat :| Associates(w, s, k', key);
        assert Associates(w, x, k', key);
      } else if key == KeyOf(d) {
        assert Associates(w, x, k, key);
      } else if exists k': nat :: Associates(w, x, k', key) {
        var k': nat :| Associates(w, x, k', key);
        assert Associates(w, s, k', key);
      }
    }
  }

  // The log of the engine holds what each event logged.
  lemma LogAt(w: World, events: seq<FusionRuns.Event>)
    requires events != []
    ensures var n := |events| - 1;
            && Exec(w, START, events).log == Exec(w, START, events[..n]).log + EffectAt(w, events, n).log
            && forall k :: 0 <= k < n ==> EffectAt(w, events, k) == EffectAt(w, events[..n], k)
  {
    var n := |events| - 1;
    assert events == events[..n] + [events[n]];
    SameBefore(w, events[..n], events[n]);
  }

  lemma {:induction false} EventIsLogged(w: World, events: seq<FusionRuns.Event>, k: nat)
    requires k < |events| && EffectAt(w, events, k).log != []
    ensures EffectAt(w, events, k).log[0] in Exec(w, START, events).log
    decreases |events|
  {
    hide *;
    LogAt(w, events);
    if k < |events| - 1 {
      EventIsLogged(w, events[..|events| - 1], k);
    }
  }

  lemma ScanAssociatesNothing(w: World, s: System, x: System, k: nat)
    requires AssociationsRight(w, s) && k < |s.events| && EffectAt(w, s.events, k).log == []
    requires x.events == s.events && x.written == s.written + {k} && x.t.associations == s.t.associations
    ensures AssociationsRight(w, x)
  {
    forall key ensures key in x.t.associations <==> exists k': nat :: Associates(w, x, k', key) {
      if key in s.t.associations {
        var k': nat :| Associates(w, s, k', key);
        assert Associates(w, x, k', key);
      } else if exists k': nat :: Associates(w, x, k', key) {
        var k': nat :| Associates(w, x, k', key);
        assert Associates(w, s, k', key);
      }
    }
  }

  // ---------------------------------------------------------------------------
  // Every step
  // ---------------------------------------------------------------------------

  /** What the tables and the record of writes keep when only requests move. */
  ghost predicate TablesSound(w: World, s: System) {
    && (forall id :: id in s.t.tracks ==> Shows(w, s, id))
    && AnomaliesRight(w, s) && AssociationsRight(w, s) && OutboxRight(s.t)
    && (forall k :: k in s.written ==> k < |s.events|)
  }

  lemma RequestMoves(w: World, s: System, c: nat, local: Local)
    requires Sound(w, s) && CallerRight(w, s.(callers := s.callers[c := local]), c)
    ensures Sound(w, s.(callers := s.callers[c := local]))
  {
    var x := s.(callers := s.callers[c := local]);
    assert TablesSound(w, x) by {
      SameTables(w, s, x);
    }
    forall c' ensures CallerRight(w, x, c') {
      assert CallerRight(w, s, c');
    }
  }

  lemma SameTables(w: World, s: System, x: System)
    requires TablesSound(w, s) && x == s.(callers := x.callers)
    ensures TablesSound(w, x)
  {
    hide Facts;
    forall id | id in x.t.tracks ensures Shows(w, x, id) {
      assert Shows(w, s, id);
    }
    AnomaliesSame(w, s, x);
    AssociationsSame(w, s, x);
  }

  lemma AnomaliesSame(w: World, s: System, x: System)
    requires AnomaliesRight(w, s) && x.t == s.t && x.written == s.written && s.events <= x.events
    requires forall k :: k in s.written ==> k < |s.events|
    requires forall k :: 0 <= k < |s.events| ==> EffectAt(w, x.events, k) == EffectAt(w, s.events, k)
    ensures AnomaliesRight(w, x)
  {
    forall key | key in x.t.anomalies ensures exists k: nat, i: int :: StoredFor(w, x, k, i, key) {
      var k: nat, i: int :| StoredFor(w, s, k, i, key);
      assert StoredFor(w, x, k, i, key);
    }
    forall k: nat, i: int, key | Raises(w, x, k, i, key) ensures key in x.t.anomalies {
      assert Raises(w, s, k, i, key);
    }
  }

  lemma AssociatesSame(w: World, s: System, x: System, key: Key)
    requires x.written == s.written && s.events <= x.events
    requires forall k :: k in s.written ==> k < |s.events|
    requires forall k :: 0 <= k < |s.events| ==> EffectAt(w, x.events, k) == EffectAt(w, s.events, k)
    ensures (exists k: nat :: Associates(w, x, k, key)) <==> (exists k: nat :: Associates(w, s, k, key))
  {
    hide EffectAt;
    forall k: nat ensures Associates(w, x, k, key) == Associates(w, s, k, key) {
    }
  }

  lemma RowsFromLonger(rows: map<Key, AssociationRow>, log: seq<Association>, longer: seq<Association>)
    requires RowsFromLog(rows, log) && log <= longer
    ensures RowsFromLog(rows, longer)
  {
    forall key | key in rows ensures FromLog(rows, longer, key) {
      assert FromLog(rows, log, key);
      var i :| 0 <= i < |log| && KeyOf(log[i].d) == key && rows[key].trackID == log[i].id && rows[key].observedAt == log[i].d.observedAt;
      assert longer[i] == log[i];
    }
  }

  lemma AssociationsSame(w: World, s: System, x: System)
    requires AssociationsRight(w, s) && x.t == s.t && x.written == s.written && s.events <= x.events
    requires forall k :: k in s.written ==> k < |s.events|
    requires forall k :: 0 <= k < |s.events| ==> EffectAt(w, x.events, k) == EffectAt(w, s.events, k)
    requires Exec(w, START, s.events).log <= Exec(w, START, x.events).log
    ensures AssociationsRight(w, x)
  {
    RowsFromLonger(s.t.associations, Exec(w, START, s.events).log, Exec(w, START, x.events).log);
    forall key ensures key in x.t.associations <==> exists k: nat :: Associates(w, x, k, key) {
      AssociatesSame(w, s, x, key);
    }
  }

  lemma SnapshotStays(w: World, events: seq<FusionRuns.Event>, e: FusionRuns.Event, id: string, n: nat)
    requires Taken(w, events, id, n)
    ensures Taken(w, events + [e], id, n) && TrackAt(w, events + [e], id, n) == TrackAt(w, events, id, n)
    ensures LastAt(w, events + [e], id, n) == LastAt(w, events, id, n)
  {
    SameBefore(w, events, e);
    hide RunAt;
  }

  lemma SnapshotsStay(w: World, events: seq<FusionRuns.Event>, e: FusionRuns.Event, id: string, row: TrackRow, ns: seq<nat>)
    requires AllTaken(w, events, id, ns) && RowShows(w, events, id, row, ns) && TimesShow(w, events, id, row, ns)
    ensures AllTaken(w, events + [e], id, ns) && RowShows(w, events + [e], id, row, ns) && TimesShow(w, events + [e], id, row, ns)
  {
    hide Taken, TrackAt, LastAt;
    forall i | 0 <= i < |ns|
      ensures Taken(w, events + [e], id, ns[i]) && LastAt(w, events + [e], id, ns[i]) == LastAt(w, events, id, ns[i])
    {
      SnapshotStays(w, events, e, id, ns[i]);
    }
    SnapshotStays(w, events, e, id, ns[0]);
    SnapshotStays(w, events, e, id, ns[|ns| - 1]);
    var i :| 0 <= i < |ns| && LastAt(w, events, id, ns[i]) == row.lastAt;
    assert LastAt(w, events + [e], id, ns[i]) == row.lastAt;
  }

  lemma AllEvents(w: World, events: seq<FusionRuns.Event>)
    ensures RunAt(w, events, |events|) == Exec(w, START, events)
  {
    assert events[..|events|] == events;
  }

  lemma NextRun(w: World, events: seq<FusionRuns.Event>, e: FusionRuns.Event, id: string)
    requires Legal(w, START, events) && LegalEvent(w, Exec(w, START, events).state, e)
    requires id in RunAt(w, events, |events|).state.tracks
    ensures Develops(RunAt(w, events, |events|), RunAt(w, events + [e], |events + [e]|), id)
  {
    AllEvents(w, events);
    AllEvents(w, events + [e]);
    ReachableStates(w, START, events);
    assert (events + [e])[..|events|] == events;
    assert Exec(w, START, events + [e]) == Step(w, Exec(w, START, events), e);
    hide Develops, Exec, Step, Legal, LegalEvent, Inv;
    EventDevelops(w, RunAt(w, events, |events|), e, id);
  }

  lemma NameKept(r: Run, x: Run, id: string, mmsi: string)
    requires id in r.state.tracks && Develops(r, x, id) && mmsi in {"", r.state.tracks[id].mmsi}
    ensures id in x.state.tracks && mmsi in {"", x.state.tracks[id].mmsi}
  {
  }

  lemma NameStaysShown(w: World, events: seq<FusionRuns.Event>, e: FusionRuns.Event, id: string, row: TrackRow, ns: seq<nat>)
    requires Legal(w, START, events) && LegalEvent(w, Exec(w, START, events).state, e)
    requires AllTaken(w, events, id, ns) && NameShows(w, events, id, row, ns) && AllTaken(w, events + [e], id, ns)
    ensures NameShows(w, events + [e], id, row, ns)
  {
    hide Legal, LegalEvent, Exec, RunAt, TrackAt, Develops;
    assert Taken(w, events, id, ns[|ns| - 1]);
    hide Taken;
    SnapshotStays(w, events, e, id, ns[|ns| - 1]);
    NextRun(w, events, e, id);
    NameKept(RunAt(w, events, |events|), RunAt(w, events + [e], |events + [e]|), id, row.mmsi);
  }

  lemma FactsStay(w: World, events: seq<FusionRuns.Event>, e: FusionRuns.Event, id: string, row: TrackRow, ns: seq<nat>)
    requires Legal(w, START, events) && LegalEvent(w, Exec(w, START, events).state, e) && Facts(w, events, id, row, ns)
    ensures Facts(w, events + [e], id, row, ns)
  {
    hide Legal, LegalEvent, AllTaken, RowShows, NameShows, TimesShow;
    SnapshotsStay(w, events, e, id, row, ns);
    NameStaysShown(w, events, e, id, row, ns);
  }

  lemma ServedTables(w: World, s: System, x: System, e: FusionRuns.Event)
    requires Legal(w, START, s.events) && LegalEvent(w, Exec(w, START, s.events).state, e)
    requires TablesSound(w, s) && x.t == s.t && x.written == s.written && x.taken == s.taken && x.events == s.events + [e]
    ensures TablesSound(w, x)
  {
    hide Facts;
    SameBefore(w, s.events, e);
    forall id | id in x.t.tracks ensures Shows(w, x, id) {
      FactsStay(w, s.events, e, id, s.t.tracks[id], Snapshots(s, id));
    }
    assert x.events[..|s.events|] == s.events;
    assert Exec(w, START, x.events) == Step(w, Exec(w, START, s.events), e);
    AnomaliesSame(w, s, x);
    AssociationsSame(w, s, x);
  }

  lemma OneLogEntry(w: World, s: State, e: FusionRuns.Event)
    ensures |EffectOf(w, s, e).log| <= 1 && (e.Sweep? ==> EffectOf(w, s, e).log == [])
  {
  }

  lemma ServedCaller(w: World, s: System, x: System, c: nat, e: FusionRuns.Event)
    requires x.events == s.events + [e] && At(x, c) == Served(w, s, e)
    ensures CallerRight(w, x, c)
  {
    SameBefore(w, s.events, e);
    OneLogEntry(w, Exec(w, START, s.events).state, e);
    hide EffectOf, Exec, EffectAt;
  }

  lemma OtherCaller(w: World, s: System, x: System, c: nat, e: FusionRuns.Event)
    requires CallerRight(w, s, c) && x.events == s.events + [e] && At(x, c) == At(s, c)
    ensures CallerRight(w, x, c)
  {
    SameBefore(w, s.events, e);
    hide EffectAt, RunAt;
  }

  lemma ServedCallers(w: World, s: System, x: System, c: nat, e: FusionRuns.Event)
    requires forall c' :: CallerRight(w, s, c')
    requires x.events == s.events + [e] && x.callers == s.callers[c := Served(w, s, e)]
    ensures forall c' :: CallerRight(w, x, c')
  {
    hide CallerRight, Served;
    forall c' ensures CallerRight(w, x, c') {
      if c' == c {
        ServedCaller(w, s, x, c, e);
      } else {
        OtherCaller(w, s, x, c', e);
      }
    }
  }

  lemma ServeIsSound(w: World, s: System, a: Action)
    requires Sound(w, s) && Enabled(w, s, a) && a.Serve?
    ensures Sound(w, After(w, s, a))
  {
    var x := After(w, s, a);
    assert x.events[..|s.events|] == s.events && x.events[|s.events|] == a.e;
    ServedTables(w, s, x, a.e);
    ServedCallers(w, s, x, a.c, a.e);
  }

  // The row of the track that is written.
  lemma WrittenName(
      w: World, events: seq<FusionRuns.Event>, id: string, prior: Option<TrackRow>, row: TrackRow, ns: seq<nat>, n: nat)
    requires Legal(w, START, events) && Taken(w, events, id, n) && (prior.Some? ==> Facts(w, events, id, prior.value, ns))
    requires AllTaken(w, events, id, ns + [n])
    requires row.mmsi == if prior.Some? && prior.value.mmsi != "" then prior.value.mmsi else TrackAt(w, events, id, n).mmsi
    ensures NameShows(w, events, id, row, ns + [n])
  {
    RunDevelops(w, events, n, |events|, id);
    hide RunAt, Legal, History, RowShows, TimesShow, AllTaken;
  }

  lemma WrittenTimes(w: World, events: seq<FusionRuns.Event>, id: string, prior: Option<TrackRow>, row: TrackRow, ns: seq<nat>, n: nat)
    requires Taken(w, events, id, n) && (prior.Some? ==> AllTaken(w, events, id, ns) && TimesShow(w, events, id, prior.value, ns))
    requires (prior.None? ==> ns == []) && AllTaken(w, events, id, ns + [n])
    requires row.firstAt == if prior.Some? then prior.value.firstAt else TrackAt(w, events, id, n).points[0].observedAt
    requires row.lastAt == if prior.Some? then Later(prior.value.lastAt, LastAt(w, events, id, n)) else LastAt(w, events, id, n)
    ensures TimesShow(w, events, id, row, ns + [n])
  {
    hide Taken, TrackAt, LastAt;
    var more := ns + [n];
    assert more[|ns|] == n;
    if prior.Some? {
      var j :| 0 <= j < |ns| && LastAt(w, events, id, ns[j]) == prior.value.lastAt;
      assert more[j] == ns[j] && more[0] == ns[0];
    }
  }

  lemma WrittenRow(
      w: World, events: seq<FusionRuns.Event>, id: string, prior: Option<TrackRow>, row: TrackRow, ns: seq<nat>, track: TrackState, n: nat)
    requires Legal(w, START, events) && Taken(w, events, id, n) && TrackAt(w, events, id, n) == track
    requires if prior.Some? then Facts(w, events, id, prior.value, ns) else ns == []
    requires row == (if prior.None? then Snapshot(track)
                     else TrackRow(if prior.value.mmsi != "" then prior.value.mmsi else track.mmsi, track.level, prior.value.firstAt,
                                   Later(prior.value.lastAt, Last(track).observedAt), |track.points|))
    ensures Facts(w, events, id, row, ns + [n])
  {
    var more := ns + [n];
    assert AllTaken(w, events, id, more) by {
      forall i | 0 <= i < |more| ensures Taken(w, events, id, more[i]) {
        assert i < |ns| ==> more[i] == ns[i];
      }
    }
    assert LastAt(w, events, id, n) == Last(track).observedAt;
    assert more[|more| - 1] == n;
    hide Taken, TrackAt, LastAt, AllTaken, NameShows, TimesShow, Legal;
    WrittenName(w, events, id, prior, row, ns, n);
    WrittenTimes(w, events, id, prior, row, ns, n);
  }

  lemma UpsertedRow(tracks: map<string, TrackRow>, id: string, track: TrackState)
    requires track.points != []
    ensures var prior := if id in tracks then Some(tracks[id]) else None;
            Upserted(tracks, id, track) == tracks[id :=
              if prior.None? then Snapshot(track)
              else TrackRow(if prior.value.mmsi != "" then prior.value.mmsi else track.mmsi, track.level, prior.value.firstAt,
                            Later(prior.value.lastAt, Last(track).observedAt), |track.points|)]
  {
  }

  lemma WrittenShows(w: World, s: System, x: System, id: string, track: TrackState, n: nat)
    requires Legal(w, START, s.events) && Taken(w, s.events, id, n) && TrackAt(w, s.events, id, n) == track
    requires id in s.t.tracks ==> Shows(w, s, id)
    requires x.events == s.events && x.t.tracks == Upserted(s.t.tracks, id, track) && x.taken == s.taken[id := Snapshots(s, id) + [n]]
    ensures Shows(w, x, id)
  {
    UpsertedRow(s.t.tracks, id, track);
    hide Upserted, Facts, Taken, TrackAt, Legal, Snapshot;
    WrittenRow(w, s.events, id, if id in s.t.tracks then Some(s.t.tracks[id]) else None, x.t.tracks[id], Snapshots(s, id), track, n);
  }

  lemma OtherRows(w: World, s: System, x: System, id: string)
    requires forall a :: a in s.t.tracks ==> Shows(w, s, a)
    requires x.events == s.events && forall a :: a in x.t.tracks && a != id ==> a in s.t.tracks && x.t.tracks[a] == s.t.tracks[a]
    requires forall a :: a != id ==> (a in x.taken <==> a in s.taken) && (a in s.taken ==> x.taken[a] == s.taken[a])
    requires id in x.t.tracks ==> Shows(w, x, id)
    ensures forall a :: a in x.t.tracks ==> Shows(w, x, a)
  {
    hide Facts;
    forall a | a in x.t.tracks ensures Shows(w, x, a) {
      if a != id {
        assert Shows(w, s, a);
      }
    }
  }

  lemma RecordTables(w: World, s: System, x: System, k: nat, id: string, d: Detection, alerts: seq<Anomaly>, track: TrackState, n: nat, now: int)
    requires Legal(w, START, s.events) && TablesSound(w, s) && Did(w, s, k, id, d, alerts)
    requires n <= |s.events| && track.points != []
    requires id in RunAt(w, s.events, n).state.tracks && RunAt(w, s.events, n).state.tracks[id] == track
    requires x.events == s.events && x.t == Fused(s.t, id, track, d, alerts, now) && x.written == s.written + {k}
             && x.taken == s.taken[id := Snapshots(s, id) + [n]]
    ensures TablesSound(w, x)
  {
    hide EffectAt, RunAt, Exec, Legal, Facts, AnomaliesRight, AssociationsRight, OutboxRight, Persisted;
    var t := s.t.(tracks := Upserted(s.t.tracks, id, track), associations := Associated(s.t.associations, Association(id, d), now));
    PersistedKeepsTracks(t, alerts);
    assert Taken(w, s.events, id, n) && TrackAt(w, s.events, id, n) == track;
    WrittenShows(w, s, x, id, track, n);
    OtherRows(w, s, x, id);
    assert OutboxRight(t) by {
      SameOutbox(s.t, t);
    }
    PersistsOnly(t, alerts);
    AnomaliesRecorded(w, s, x, t, k, alerts);
    EventIsLogged(w, s.events, k);
    AssociationRecorded(w, s, x, k, id, d, now);
  }

  lemma SameOutbox(s: Tables, t: Tables)
    requires OutboxRight(s) && t.outbox == s.outbox && t.anomalies == s.anomalies
    ensures OutboxRight(t)
  {
  }

  lemma ScanTables(w: World, s: System, x: System, k: nat, alerts: seq<Anomaly>)
    requires TablesSound(w, s) && k < |s.events| && EffectAt(w, s.events, k).log == [] && EffectAt(w, s.events, k).out.alerts == alerts
    requires x.events == s.events && x.t == Persisted(s.t, alerts) && x.written == s.written + {k} && x.taken == s.taken
    ensures TablesSound(w, x)
  {
    hide Facts;
    PersistedKeepsTracks(s.t, alerts);
    forall id | id in x.t.tracks ensures Shows(w, x, id) {
      assert Shows(w, s, id);
    }
    PersistsOnly(s.t, alerts);
    AnomaliesRecorded(w, s, x, s.t, k, alerts);
    ScanAssociatesNothing(w, s, x, k);
  }

  lemma RecordedTables(w: World, s: System, a: Action)
    requires Legal(w, START, s.events) && TablesSound(w, s) && CallerRight(w, s, a.c)
    requires Enabled(w, s, a) && a.Record?
    ensures TablesSound(w, After(w, s, a))
  {
    hide TablesSound, Legal, Exec, EffectAt, RunAt, Fused, Persisted;
    var x, local := After(w, s, a), At(s, a.c);
    if local.Looked? {
      RecordTables(w, s, x, local.k, local.id, local.d, local.alerts, local.track, local.n, a.now);
    } else {
      ScanTables(w, s, x, local.k, local.alerts);
    }
  }

  lemma RecordedCallers(w: World, s: System, x: System, c: nat)
    requires forall b :: CallerRight(w, s, b)
    requires x.events == s.events && x.callers == s.callers[c := Idle]
    ensures forall b :: CallerRight(w, x, b)
  {
    hide EffectAt, RunAt;
    forall b ensures CallerRight(w, x, b) {
      assert CallerRight(w, s, b);
    }
  }

  lemma RecordIsSound(w: World, s: System, a: Action)
    requires Sound(w, s) && Enabled(w, s, a) && a.Record?
    ensures Sound(w, After(w, s, a))
  {
    assert CallerRight(w, s, a.c);
    RecordedTables(w, s, a);
    RecordedCallers(w, s, After(w, s, a), a.c);
    hide CallerRight, Shows, AnomaliesRight, AssociationsRight, OutboxRight, Legal, EffectAt, RunAt, Exec, Fused, Persisted;
  }

  lemma StepIsSound(w: World, s: System, a: Action)
    requires Sound(w, s) && Enabled(w, s, a)
    ensures Sound(w, After(w, s, a))
  {
    match a
    case Serve(_, _) => ServeIsSound(w, s, a);
    case Record(_, _) => RecordIsSound(w, s, a);
    case Look(c) =>
      assert CallerRight(w, s, c);
      assert s.events[..|s.events|] == s.events;
      RequestMoves(w, s, c, After(w, s, a).callers[c]);
    case Drop(c) => RequestMoves(w, s, c, Idle);
  }

  lemma {:induction false} ReachableTables(w: World, actions: seq<Action>)
    requires Runs(w, NOTHING, actions)
    ensures Sound(w, Reached(w, NOTHING, actions))
    decreases |actions|
  {
    if actions != [] {
      ReachableTables(w, actions[..|actions| - 1]);
      StepIsSound(w, Reached(w, NOTHING, actions[..|actions| - 1]), actions[|actions| - 1]);
    }
  }

  // ---------------------------------------------------------------------------
  // Main results
  // ---------------------------------------------------------------------------

  /** No report went to the track since snapshot n was taken. */
  ghost predicate UpToDate(w: World, s: System, id: string, n: nat)
    requires n <= |s.events|
  {
    History(RunAt(w, s.events, n).log, id) == History(Exec(w, START, s.events).log, id)
  }

  lemma TrackedAt(w: World, events: seq<FusionRuns.Event>, n: nat, id: string)
    requires Legal(w, START, events) && n <= |events|
    ensures Tracked(w, RunAt(w, events, n).state, RunAt(w, events, n).log, id)
  {
    hide Legal, Exec, Tracked, Booted, PairsMean, Inv;
    PrefixIsLegal(w, START, events, n);
    EmptyIsBooted(w);
    StateMeansHistory(w, START, events[..n]);
  }

  // Count and times of the points a track holds, by its history.
  lemma PointsOfHistory(w: World, r: Run, id: string)
    requires Tracked(w, r.state, r.log, id) && id in r.state.tracks
    ensures var h, t := History(r.log, id), r.state.tracks[id];
            && h != [] && t.points != [] && Last(t).observedAt == h[|h| - 1].observedAt
            && |t.points| == (if |h| > MAX_POINTS then MAX_POINTS else |h|)
            && (|h| <= MAX_POINTS ==> t.points[0].observedAt == h[0].observedAt)
  {
    LastKept(PointsOf(History(r.log, id)));
    hide History, ClockMeans;
  }

  /**
    After any interleaving a track row shows the label and the point count the track had when the last
    snapshot written for it was taken. So it never shows a higher label than the track has, it agrees
    with the track when no report has come since, and otherwise its count is too small while the track
    has not reached its limit of points.
   */
  lemma RowAgreesExactly(w: World, actions: seq<Action>, id: string)
    requires Runs(w, NOTHING, actions) && id in Reached(w, NOTHING, actions).t.tracks
    ensures var s := Reached(w, NOTHING, actions);
            && Shows(w, s, id) && id in Exec(w, START, s.events).state.tracks
            && var row, now, ns := s.t.tracks[id], Exec(w, START, s.events).state.tracks[id], Snapshots(s, id);
               && ns != [] && ns[|ns| - 1] <= |s.events|
               && var current := UpToDate(w, s, id, ns[|ns| - 1]);
                  && Rank(row.level) <= Rank(now.level) && row.mmsi in {"", now.mmsi}
                  && (current ==> row.level == now.level && row.mmsi == now.mmsi && row.pointCount == |now.points|)
                  && (!current && |History(Exec(w, START, s.events).log, id)| <= MAX_POINTS ==> row.pointCount < |now.points|)
  {
    hide *;
    ReachableTables(w, actions);
    var s := Reached(w, NOTHING, actions);
    SoundRow(w, s, id);
    RowAgreesNow(w, s, id);
  }

  lemma SoundRow(w: World, s: System, id: string)
    requires Sound(w, s) && id in s.t.tracks
    ensures Shows(w, s, id) && Legal(w, START, s.events)
  {
  }

  lemma RowAgreesNow(w: World, s: System, id: string)
    requires Legal(w, START, s.events) && id in s.t.tracks && Shows(w, s, id)
    ensures id in Exec(w, START, s.events).state.tracks
    ensures var row, now, ns := s.t.tracks[id], Exec(w, START, s.events).state.tracks[id], Snapshots(s, id);
            && ns != [] && ns[|ns| - 1] <= |s.events|
            && var current := UpToDate(w, s, id, ns[|ns| - 1]);
               && Rank(row.level) <= Rank(now.level) && row.mmsi in {"", now.mmsi}
               && (current ==> row.level == now.level && row.mmsi == now.mmsi && row.pointCount == |now.points|)
               && (!current && |History(Exec(w, START, s.events).log, id)| <= MAX_POINTS ==> row.pointCount < |now.points|)
  {
    hide *;
    LastSnapshot(w, s, id);
    RowAgrees(w, s, id, Snapshots(s, id)[|Snapshots(s, id)| - 1]);
  }

  lemma LastSnapshot(w: World, s: System, id: string)
    requires id in s.t.tracks && Shows(w, s, id)
    ensures var ns := Snapshots(s, id);
            && ns != [] && ns[|ns| - 1] <= |s.events|
            && var row, r, now := s.t.tracks[id], RunAt(w, s.events, ns[|ns| - 1]), RunAt(w, s.events, |s.events|);
               && id in r.state.tracks && id in now.state.tracks
               && row.level == r.state.tracks[id].level && row.pointCount == |r.state.tracks[id].points|
               && row.mmsi in {"", now.state.tracks[id].mmsi} && (r.state.tracks[id].mmsi != "" ==> row.mmsi != "")
  {
    var ns := Snapshots(s, id);
    assert Taken(w, s.events, id, ns[|ns| - 1]);
    hide RunAt, TimesShow;
  }

  lemma RowAgrees(w: World, s: System, id: string, n: nat)
    requires Legal(w, START, s.events) && id in s.t.tracks && n <= |s.events|
    requires var row, r, now := s.t.tracks[id], RunAt(w, s.events, n), RunAt(w, s.events, |s.events|);
             && id in r.state.tracks && id in now.state.tracks
             && row.level == r.state.tracks[id].level && row.pointCount == |r.state.tracks[id].points|
             && row.mmsi in {"", now.state.tracks[id].mmsi} && (r.state.tracks[id].mmsi != "" ==> row.mmsi != "")
    ensures id in Exec(w, START, s.events).state.tracks
    ensures var row, now := s.t.tracks[id], Exec(w, START, s.events).state.tracks[id];
            && Rank(row.level) <= Rank(now.level) && row.mmsi in {"", now.mmsi}
            && (UpToDate(w, s, id, n) ==> row.level == now.level && row.mmsi == now.mmsi && row.pointCount == |now.points|)
            && (!UpToDate(w, s, id, n) && |History(Exec(w, START, s.events).log, id)| <= MAX_POINTS ==> row.pointCount < |now.points|)
  {
    hide Legal, Exec, RunAt, Tracked, History, Rank;
    AllEvents(w, s.events);
    RunDevelops(w, s.events, n, |s.events|, id);
    TrackedAt(w, s.events, n, id);
    TrackedAt(w, s.events, |s.events|, id);
    PointsOfHistory(w, RunAt(w, s.events, n), id);
    PointsOfHistory(w, RunAt(w, s.events, |s.events|), id);
    LongerUnlessSame(History(RunAt(w, s.events, n).log, id), History(RunAt(w, s.events, |s.events|).log, id));
  }

  lemma LongerUnlessSame(h: seq<Detection>, more: seq<Detection>)
    requires h <= more
    ensures h == more || |h| < |more|
  {
  }

  lemma PointTimes(w: World, s: System, id: string, n: nat)
    requires Legal(w, START, s.events) && Taken(w, s.events, id, n)
    ensures var h := History(RunAt(w, s.events, n).log, id);
            && h != [] && LastAt(w, s.events, id, n) == h[|h| - 1].observedAt
            && (|h| <= MAX_POINTS ==> TrackAt(w, s.events, id, n).points[0].observedAt == h[0].observedAt)
            && h <= History(Exec(w, START, s.events).log, id)
  {
    hide Legal, Exec, RunAt, Tracked, History;
    AllEvents(w, s.events);
    TrackedAt(w, s.events, n, id);
    PointsOfHistory(w, RunAt(w, s.events, n), id);
    RunDevelops(w, s.events, n, |s.events|, id);
  }

  lemma {:induction false} NewestBounds(h: seq<Detection>, k: int)
    requires 0 <= k < |h|
    ensures h[k].observedAt <= Newest(h)
    decreases |h|
  {
    if k < |h| - 1 {
      NewestBounds(h[..|h| - 1], k);
    }
  }

  /**
    Its two observation times: the last one is the newest of the whole history exactly when a snapshot
    was written that ends with the newest, and the first one is the oldest when the first snapshot
    written was taken before the track dropped points.
   */
  lemma RowTimesExactly(w: World, actions: seq<Action>, id: string)
    requires Runs(w, NOTHING, actions) && id in Reached(w, NOTHING, actions).t.tracks
    ensures var s := Reached(w, NOTHING, actions);
            var row, h, ns := s.t.tracks[id], History(Exec(w, START, s.events).log, id), Snapshots(s, id);
            && ns != [] && ns[0] <= |s.events| && h != [] && row.lastAt <= Newest(h)
            && (row.lastAt == Newest(h) <==> exists i :: 0 <= i < |ns| && LastAt(w, s.events, id, ns[i]) == Newest(h))
            && (|History(RunAt(w, s.events, ns[0]).log, id)| <= MAX_POINTS ==> row.firstAt == h[0].observedAt)
  {
    hide *;
    ReachableTables(w, actions);
    var s := Reached(w, NOTHING, actions);
    SoundRow(w, s, id);
    RowTimes(w, s, id);
  }

  lemma RowTimes(w: World, s: System, id: string)
    requires Legal(w, START, s.events) && id in s.t.tracks && Shows(w, s, id)
    ensures var row, h, ns := s.t.tracks[id], History(Exec(w, START, s.events).log, id), Snapshots(s, id);
            && ns != [] && ns[0] <= |s.events| && h != [] && row.lastAt <= Newest(h)
            && (row.lastAt == Newest(h) <==> exists i :: 0 <= i < |ns| && LastAt(w, s.events, id, ns[i]) == Newest(h))
            && (|History(RunAt(w, s.events, ns[0]).log, id)| <= MAX_POINTS ==> row.firstAt == h[0].observedAt)
  {
    var row, h, ns := s.t.tracks[id], History(Exec(w, START, s.events).log, id), Snapshots(s, id);
    assert Taken(w, s.events, id, ns[0]);
    PointTimes(w, s, id, ns[0]);
    hide Exec, Legal, Newest, RowShows, NameShows, TrackAt, LastAt, Taken, History, RunAt;
    forall i | 0 <= i < |ns| ensures LastAt(w, s.events, id, ns[i]) <= Newest(h) {
      SnapshotIsOlder(w, s, id, ns[i]);
    }
  }

  lemma TakenBefore(w: World, events: seq<FusionRuns.Event>, id: string, n: nat)
    requires Taken(w, events, id, n)
    ensures n <= |events|
  {
  }

  lemma SnapshotIsOlder(w: World, s: System, id: string, n: nat)
    requires Legal(w, START, s.events) && Taken(w, s.events, id, n)
    ensures var h := History(Exec(w, START, s.events).log, id); h != [] && LastAt(w, s.events, id, n) <= Newest(h)
  {
    hide *;
    TakenBefore(w, s.events, id, n);
    PointTimes(w, s, id, n);
    PrefixIsOlder(History(RunAt(w, s.events, n).log, id), History(Exec(w, START, s.events).log, id));
  }

  lemma PrefixIsOlder(front: seq<Detection>, h: seq<Detection>)
    requires front != [] && front <= h
    ensures front[|front| - 1].observedAt <= Newest(h)
  {
    NewestBounds(h, |front| - 1);
    hide Newest;
  }

  /** After any interleaving the stored alerts are, for each identity that was written, the first alert with it in some written event, and each was announced once. */
  lemma AnomaliesExactly(w: World, actions: seq<Action>)
    requires Runs(w, NOTHING, actions)
    ensures var s := Reached(w, NOTHING, actions); AnomaliesRight(w, s) && OutboxRight(s.t)
  {
    ReachableTables(w, actions);
  }

  /** And the associations are those of the events that were written, as the engine made them. */
  lemma AssociationsExactly(w: World, actions: seq<Action>)
    requires Runs(w, NOTHING, actions)
    ensures AssociationsRight(w, Reached(w, NOTHING, actions))
  {
    ReachableTables(w, actions);
  }

  /**
    So a startup after any interleaving replays exactly the engine's log, exactly when every report was
    written, its detection is retained, and reports were fused in the order of the listing.
   */
  lemma RestartAfterOverlap(
      w: World, actions: seq<Action>, less: (string, string) -> bool, detections: map<Key, Detection>, answer: seq<Key>,
      orders: seq<seq<string>>)
    requires Runs(w, NOTHING, actions) && StrictOrder(less) && Keyed(detections)
    requires Lists(less, Reached(w, NOTHING, actions).t.associations, detections, answer)
    ensures var s := Reached(w, NOTHING, actions);
            var log := Exec(w, START, s.events).log;
            var replayed := Replays(s.t.associations, detections, answer);
            && (replayed == log <==> InListingOrder(less, s.t.associations, detections, log))
            && (replayed == log && LegalOrders(w, log, orders) ==>
                  (Shadow(Exec(w, START, s.events).state, Rebuild(w, log, orders)) <==> OpenersAgree(log, 0)))
  {
    ReachableTables(w, actions);
    var s := Reached(w, NOTHING, actions);
    var log := Exec(w, START, s.events).log;
    ReplaysTheLog(less, s.t.associations, detections, log, answer);
    if LegalOrders(w, log, orders) {
      EmptyIsBooted(w);
      RebuildsExactly(w, START, s.events, orders);
    }
  }

  // ---------------------------------------------------------------------------
  // A row that falls behind
  // ---------------------------------------------------------------------------

  lemma Snoc(w: World, s: System, actions: seq<Action>, a: Action)
    requires Runs(w, s, actions) && Enabled(w, Reached(w, s, actions), a)
    ensures Runs(w, s, actions + [a]) && Reached(w, s, actions + [a]) == After(w, Reached(w, s, actions), a)
  {
    assert (actions + [a])[..|actions|] == actions;
  }

  // Two reports of one vessel, the second classified higher.
  function Sighting(event: string, level: Label): Detection {
    Contact(event, 1).(level := level)
  }

  const FIRST_REPORT := FusionRuns.Report(Sighting("1", Unclassified), Choice("a", [], ["a"], 1))
  const SECOND_REPORT := FusionRuns.Report(Sighting("2", Secret), Choice("b", ["a"], ["a"], 1))

  // The first request is overtaken between its look at the track and its write.
  const OVERTAKEN := [Serve(0, FIRST_REPORT), Look(0), Serve(1, SECOND_REPORT), Look(1), Record(1, 1), Record(0, 2)]

  // A pair loop over the reporting track alone does nothing.
  lemma LonePairLoop(w: World, x: FusionModel.Outcome, id: string, p: Point, now: int, d: Detection)
    requires id in x.state.tracks
    ensures EvaluatePairs(w, x, id, p, [id], now, d) == x
  {
    assert [id][..0] == [];
    assert EvaluatePairs(w, x, id, p, [], now, d) == x;
  }

  lemma LoneTrackLevel(w: World, s: State, d: Detection, c: Choice)
    requires LegalChoice(w, s, d, c) && TargetOf(w, s, d, c) in Placed(w, s, d, c).tracks && c.pairOrder == [TargetOf(w, s, d, c)]
    ensures var id := TargetOf(w, s, d, c); Ingest(w, s, d, c).state.tracks[id].level == Max(Placed(w, s, d, c).tracks[id].level, d.level)
  {
    var id := TargetOf(w, s, d, c);
    LonePairLoop(w, EvaluateAlone(w, Absorb(Placed(w, s, d, c), id, d), id, PointOf(d), c.now, d), id, PointOf(d), c.now, d);
    hide EvaluatePairs;
  }

  lemma AfterFirst()
    ensures LegalEvent(CALM, EMPTY, FIRST_REPORT)
    ensures var r := Step(CALM, START, FIRST_REPORT);
            && r.log == [Association("a", FIRST_REPORT.d)] && Inv(r.state) && r.state.tracks.Keys == {"a"}
            && r.state.tracks["a"].points == [PointOf(FIRST_REPORT.d)] && r.state.tracks["a"].level == Unclassified
  {
    FirstReport(FIRST_REPORT.d, FIRST_REPORT.choice);
    FirstChoice(FIRST_REPORT.d, FIRST_REPORT.choice);
    LoneTrackLevel(CALM, EMPTY, FIRST_REPORT.d, FIRST_REPORT.choice);
  }

  lemma SecondIsPlaced(r: Run)
    requires Inv(r.state) && r.state.tracks.Keys == {"a"} && r.state.tracks["a"].points == [PointOf(FIRST_REPORT.d)]
    ensures LegalEvent(CALM, r.state, SECOND_REPORT)
    ensures TargetOf(CALM, r.state, SECOND_REPORT.d, SECOND_REPORT.choice) == "a"
  {
    SecondReport(r, SECOND_REPORT.d, SECOND_REPORT.choice);
    var x, id := Step(CALM, r, SECOND_REPORT), TargetOf(CALM, r.state, SECOND_REPORT.d, SECOND_REPORT.choice);
    assert x.log[|r.log|] == Association(id, SECOND_REPORT.d);
  }

  lemma AfterSecond(r: Run)
    requires Inv(r.state) && r.state.tracks.Keys == {"a"} && r.state.tracks["a"].points == [PointOf(FIRST_REPORT.d)]
    ensures LegalEvent(CALM, r.state, SECOND_REPORT)
    ensures var x := Step(CALM, r, SECOND_REPORT);
            && x.log == r.log + [Association("a", SECOND_REPORT.d)] && "a" in x.state.tracks
            && |x.state.tracks["a"].points| == 2 && x.state.tracks["a"].level == Secret
  {
    SecondIsPlaced(r);
    IngestReported(CALM, r.state, SECOND_REPORT.d, SECOND_REPORT.choice);
    IngestKeepsInv(CALM, r.state, SECOND_REPORT.d, SECOND_REPORT.choice);
    RankIsInjective(Step(CALM, r, SECOND_REPORT).state.tracks["a"].level, Secret);
    hide LegalChoice, TargetOf, Ingest, Rank;
  }

  // ---------------------------------------------------------------------------
  // The overtaken request, step by step
  // ---------------------------------------------------------------------------

  lemma ServeReport(w: World, s: System, c: nat, e: FusionRuns.Event, id: string)
    requires At(s, c).Idle? && e.Report? && LegalEvent(w, Exec(w, START, s.events).state, e)
    requires Step(w, Exec(w, START, s.events), e).log == Exec(w, START, s.events).log + [Association(id, e.d)]
    ensures Enabled(w, s, Serve(c, e))
    ensures var x := After(w, s, Serve(c, e));
            && x == s.(events := s.events + [e], callers := x.callers) && x.callers.Keys == s.callers.Keys + {c}
            && (forall b :: b != c ==> At(x, b) == At(s, b))
            && At(x, c).Ingested? && At(x, c).id == id && At(x, c).d == e.d
  {
    var r := Exec(w, START, s.events);
    OneLogEntry(w, r.state, e);
    var f := EffectOf(w, r.state, e);
    assert Step(w, r, e).log == r.log + f.log;
    assert (r.log + f.log)[|r.log|] == Association(id, e.d);
    assert f.log == [Association(id, e.d)];
    hide EffectOf, Exec, Step;
  }

  lemma LookReport(w: World, s: System, c: nat, id: string, track: TrackState)
    requires At(s, c).Ingested? && At(s, c).id == id
    requires id in Exec(w, START, s.events).state.tracks && Exec(w, START, s.events).state.tracks[id] == track
    ensures Enabled(w, s, Look(c))
    ensures var x := After(w, s, Look(c));
            && x == s.(callers := x.callers) && (forall b :: b != c ==> At(x, b) == At(s, b))
            && At(x, c).Looked? && At(x, c).id == id && At(x, c).d == At(s, c).d && At(x, c).track == track && At(x, c).n == |s.events|
  {
  }

  lemma RecordReport(w: World, s: System, c: nat, now: int)
    requires At(s, c).Looked? && At(s, c).track.points != []
    ensures Enabled(w, s, Record(c, now))
    ensures var x := After(w, s, Record(c, now));
            && x.events == s.events && (forall b :: b != c ==> At(x, b) == At(s, b))
            && x.t.tracks == Upserted(s.t.tracks, At(s, c).id, At(s, c).track)
  {
    var local := At(s, c);
    PersistedKeepsTracks(
      s.t.(tracks := Upserted(s.t.tracks, local.id, local.track), associations := Associated(s.t.associations, Association(local.id, local.d), now)),
      local.alerts);
  }

  /** The engine after both reports. */
  ghost predicate BothIn(x: Run) {
    "a" in x.state.tracks && |x.state.tracks["a"].points| == 2 && x.state.tracks["a"].level == Secret
  }

  /** The first request holds the track as it was after the first report. */
  predicate HoldsFirst(s: System) {
    && At(s, 0).Looked? && At(s, 0).id == "a" && |At(s, 0).track.points| == 1 && At(s, 0).track.level == Unclassified
    && s.t == NO_ROWS
  }

  lemma EngineAfterBoth()
    ensures LegalEvent(CALM, EMPTY, FIRST_REPORT)
    ensures var r := Exec(CALM, START, [FIRST_REPORT]);
            && r == Step(CALM, START, FIRST_REPORT) && r.log == [Association("a", FIRST_REPORT.d)]
            && r.state.tracks.Keys == {"a"} && |r.state.tracks["a"].points| == 1 && r.state.tracks["a"].level == Unclassified
            && LegalEvent(CALM, r.state, SECOND_REPORT)
            && Step(CALM, r, SECOND_REPORT).log == r.log + [Association("a", SECOND_REPORT.d)]
    ensures Exec(CALM, START, [FIRST_REPORT, SECOND_REPORT]) == Step(CALM, Exec(CALM, START, [FIRST_REPORT]), SECOND_REPORT)
    ensures BothIn(Exec(CALM, START, [FIRST_REPORT, SECOND_REPORT]))
  {
    AfterFirst();
    hide Step, Ingest, LegalEvent;
    assert [FIRST_REPORT][..0] == [] && [FIRST_REPORT, SECOND_REPORT][..1] == [FIRST_REPORT];
    assert Exec(CALM, START, []) == START;
    assert Exec(CALM, START, [FIRST_REPORT]) == Step(CALM, START, FIRST_REPORT);
    AfterSecond(Exec(CALM, START, [FIRST_REPORT]));
  }

  lemma FirstLooks()
    ensures Runs(CALM, NOTHING, OVERTAKEN[..2])
    ensures var s := Reached(CALM, NOTHING, OVERTAKEN[..2]); s.events == [FIRST_REPORT] && HoldsFirst(s) && At(s, 1).Idle?
  {
    EngineAfterBoth();
    hide Step, Exec, After, Enabled;
    assert Exec(CALM, START, []) == START by { NoEvents(); }
    ServeReport(CALM, NOTHING, 0, FIRST_REPORT, "a");
    var x := After(CALM, NOTHING, Serve(0, FIRST_REPORT));
    assert x.events == [FIRST_REPORT];
    LookReport(CALM, x, 0, "a", Exec(CALM, START, [FIRST_REPORT]).state.tracks["a"]);
    Snoc(CALM, NOTHING, [], Serve(0, FIRST_REPORT));
    Snoc(CALM, NOTHING, [Serve(0, FIRST_REPORT)], Look(0));
    assert [] + [Serve(0, FIRST_REPORT)] == [Serve(0, FIRST_REPORT)];
    assert OVERTAKEN[..2] == [Serve(0, FIRST_REPORT)] + [Look(0)];
  }

  lemma NoEvents()
    ensures Exec(CALM, START, []) == START
  {
  }

  lemma SecondLooks()
    ensures Runs(CALM, NOTHING, OVERTAKEN[..4])
    ensures var s := Reached(CALM, NOTHING, OVERTAKEN[..4]);
            && s.events == [FIRST_REPORT, SECOND_REPORT] && HoldsFirst(s)
            && At(s, 1).Looked? && At(s, 1).id == "a" && |At(s, 1).track.points| == 2
  {
    EngineAfterBoth();
    FirstLooks();
    hide Step, Exec, After, Enabled, Runs, Reached;
    var s := Reached(CALM, NOTHING, OVERTAKEN[..2]);
    ServeReport(CALM, s, 1, SECOND_REPORT, "a");
    var x := After(CALM, s, Serve(1, SECOND_REPORT));
    assert x.events == [FIRST_REPORT, SECOND_REPORT];
    LookReport(CALM, x, 1, "a", Exec(CALM, START, [FIRST_REPORT, SECOND_REPORT]).state.tracks["a"]);
    Snoc(CALM, NOTHING, OVERTAKEN[..2], Serve(1, SECOND_REPORT));
    Snoc(CALM, NOTHING, OVERTAKEN[..2] + [Serve(1, SECOND_REPORT)], Look(1));
    assert OVERTAKEN[..4] == OVERTAKEN[..2] + [Serve(1, SECOND_REPORT)] + [Look(1)];
  }

  /** After the overtaken request wrote its older snapshot, the row shows one point and a label below the track's. */
  lemma OvertakenRow()
    ensures Accepted(FIRST_REPORT.d) && Accepted(SECOND_REPORT.d)
    ensures Runs(CALM, NOTHING, OVERTAKEN)
    ensures var s := Reached(CALM, NOTHING, OVERTAKEN);
            && s.events == [FIRST_REPORT, SECOND_REPORT] && "a" in s.t.tracks && "a" in Exec(CALM, START, s.events).state.tracks
            && var row, now := s.t.tracks["a"], Exec(CALM, START, s.events).state.tracks["a"];
               && row.level == Unclassified && now.level == Secret
               && row.pointCount == 1 && |now.points| == 2
  {
    EngineAfterBoth();
    SecondLooks();
    hide Step, Exec, After, Enabled, Runs, Reached;
    var s := Reached(CALM, NOTHING, OVERTAKEN[..4]);
    RecordReport(CALM, s, 1, 1);
    var x := After(CALM, s, Record(1, 1));
    RecordReport(CALM, x, 0, 2);
    Snoc(CALM, NOTHING, OVERTAKEN[..4], Record(1, 1));
    Snoc(CALM, NOTHING, OVERTAKEN[..4] + [Record(1, 1)], Record(0, 2));
    assert OVERTAKEN == OVERTAKEN[..4] + [Record(1, 1)] + [Record(0, 2)];
  }
}
