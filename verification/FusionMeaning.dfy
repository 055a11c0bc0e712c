/**
  The incremental bookkeeping of the fusion engine against the full history of a run: what the
  stored points, labels, zone clocks and rendezvous clocks mean.
 */
module FusionMeaning {
  import opened Base
  import opened Classification
  import opened FusionModel
  import opened FusionRuns
  import opened FusionReplay
  import opened FusionHistory
  import Geo

  // ---------------------------------------------------------------------------
  // The history of one track
  // ---------------------------------------------------------------------------

  /** Every detection the log puts into the track, in order, without any limit. */
  function History(log: seq<Association>, id: string): seq<Detection> {
    if log == [] then []
    else
      History(log[..|log| - 1], id)
      + if log[|log| - 1].id == id then [log[|log| - 1].d] else []
  }

  lemma HistoryGrows(log: seq<Association>, last: Association, id: string)
    ensures History(log + [last], id) == History(log, id) + if last.id == id then [last.d] else []
  {
    assert (log + [last])[..|log|] == log;
  }

  function PointsOf(ds: seq<Detection>): seq<Point> {
    seq(|ds|, i requires 0 <= i < |ds| => PointOf(ds[i]))
  }

  lemma KeepGrows(points: seq<Point>, p: Point)
    ensures Keep(Keep(points) + [p]) == Keep(points + [p])
  {
  }

  // ---------------------------------------------------------------------------
  // Zone clocks
  // ---------------------------------------------------------------------------

  /** The detection lies in a restricted zone of that identifier. */
  ghost predicate InZone(w: World, d: Detection, z: string) {
    exists k :: 0 <= k < |w.zones| && w.zones[k].id == z && w.zones[k].kind == Geo.RestrictedArea && Geo.Inside(d.position, w.zones[k].vertices)
  }

  lemma InZoneByClock(w: World, enter: map<string, int>, d: Detection, z: string)
    ensures z in ZoneClock(w, enter, PointOf(d)) <==> InZone(w, d, z)
  {
    hide Geo.Inside;
  }

  /** The current stay in restricted zone z began with report k: inside ever since, and not just before. */
  ghost predicate StayBegan(w: World, h: seq<Detection>, z: string, k: int) {
    && 0 <= k < |h|
    && (forall j :: k <= j < |h| ==> InZone(w, h[j], z))
    && (k > 0 ==> !InZone(w, h[k - 1], z))
  }

  /** The clock of zone z runs exactly during a stay, and shows the time of its first report. */
  ghost predicate ClockMeans(w: World, h: seq<Detection>, enter: map<string, int>, z: string) {
    && (z in enter <==> h != [] && InZone(w, h[|h| - 1], z))
    && (z in enter <==> exists k :: StayBegan(w, h, z, k))
    && (forall k :: StayBegan(w, h, z, k) ==> z in enter && enter[z] == h[k].observedAt)
  }

  lemma ClockStep(w: World, h: seq<Detection>, enter: map<string, int>, z: string, d: Detection)
    requires ClockMeans(w, h, enter, z)
    ensures ClockMeans(w, h + [d], ZoneClock(w, enter, PointOf(d)), z)
  {
    var h', enter' := h + [d], ZoneClock(w, enter, PointOf(d));
    InZoneByClock(w, enter, d, z);
    hide InZone;
    if InZone(w, d, z) {
      if z in enter {
        var k :| StayBegan(w, h, z, k);
        assert StayBegan(w, h', z, k);
        forall k' | StayBegan(w, h', z, k') ensures StayBegan(w, h, z, k') {
          assert h'[|h| - 1] == h[|h| - 1];
          if k' < |h| {
            assert forall j :: k' <= j < |h| ==> h'[j] == h[j];
            assert k' > 0 ==> h'[k' - 1] == h[k' - 1];
          }
        }
      } else {
        assert StayBegan(w, h', z, |h|);
        assert |h| > 0 ==> !InZone(w, h'[|h| - 1], z);
        forall k' | StayBegan(w, h', z, k') ensures k' == |h| {
        }
      }
    } else {
      assert h'[|h|] == d;
    }
  }

  // ---------------------------------------------------------------------------
  // Rendezvous clocks
  // ---------------------------------------------------------------------------

  /** The position in the log of the latest report of a track, or -1. */
  function Latest(log: seq<Association>, id: string): (k: int)
    ensures -1 <= k < |log|
    ensures k >= 0 ==> log[k].id == id
    ensures forall j :: k < j < |log| ==> log[j].id != id
  {
    if log == [] then -1
    else if log[|log| - 1].id == id then |log| - 1
    else Latest(log[..|log| - 1], id)
  }

  predicate Involves(x: Association, a: string, b: string) {
    x.id == a || x.id == b
  }

  function Partner(x: Association, a: string, b: string): string {
    if x.id == a then b else a
  }

  /**
    Report j of the pair was within the rendezvous radius of the other track's latest report, and within
    the rendezvous minimum of it in time. (A minimum of 2^63 - 1 ns or more, which no validated
    configuration has, would let every time pass.)
   */
  predicate InContact(w: World, log: seq<Association>, a: string, b: string, j: int)
    requires 0 <= j < |log|
  {
    var k := Latest(log[..j], Partner(log[j], a, b));
    k >= 0 &&
    var gap, limit := log[j].d.observedAt - log[k].d.observedAt, w.config.rendezvousMin;
    && (-limit <= gap <= limit || limit >= 0x7fff_ffff_ffff_ffff)
    && w.distance(log[k].d.position, log[j].d.position) <= w.config.rendezvousRadius
  }

  lemma NearExactly(w: World, a: Detection, b: Detection)
    ensures var gap, limit := b.observedAt - a.observedAt, w.config.rendezvousMin;
            Near(w, PointOf(a), PointOf(b)) <==>
              && (-limit <= gap <= limit || limit >= 0x7fff_ffff_ffff_ffff)
              && w.distance(a.position, b.position) <= w.config.rendezvousRadius
  {
  }

  /** The last report of the pair before position n, or -1. */
  function LatestOfPair(log: seq<Association>, a: string, b: string): (k: int)
    ensures -1 <= k < |log|
    ensures k >= 0 ==> Involves(log[k], a, b)
    ensures forall j :: k < j < |log| ==> !Involves(log[j], a, b)
  {
    if log == [] then -1
    else if Involves(log[|log| - 1], a, b) then |log| - 1
    else LatestOfPair(log[..|log| - 1], a, b)
  }

  /** The current contact of the pair began with report k: every report of the pair since was in contact, the one before was not. */
  ghost predicate ContactBegan(w: World, log: seq<Association>, a: string, b: string, k: int) {
    && 0 <= k < |log| && Involves(log[k], a, b)
    && (forall j :: k <= j < |log| && Involves(log[j], a, b) ==> InContact(w, log, a, b, j))
    && var before := LatestOfPair(log[..k], a, b);
       before >= 0 ==> !InContact(w, log, a, b, before)
  }

  /** First contact: the earlier of the two observation times. */
  function ContactTime(log: seq<Association>, a: string, b: string, k: int): int
    requires 0 <= k < |log|
  {
    var j := Latest(log[..k], Partner(log[k], a, b));
    if j >= 0 then Earlier(log[j].d.observedAt, log[k].d.observedAt) else log[k].d.observedAt
  }

  /** The record of a pair is there exactly during a contact, and is the time of its first report. */
  ghost predicate RecordMeans(w: World, log: seq<Association>, record: Option<int>, a: string, b: string) {
    && (record.Some? <==> exists k :: ContactBegan(w, log, a, b, k))
    && (forall k :: ContactBegan(w, log, a, b, k) ==> record == Some(ContactTime(log, a, b, k)))
  }

  lemma PrefixStable(w: World, log: seq<Association>, x: Association, a: string, b: string, j: int)
    requires 0 <= j < |log|
    ensures (log + [x])[j] == log[j] && (log + [x])[..j] == log[..j]
    ensures InContact(w, log + [x], a, b, j) == InContact(w, log, a, b, j)
    ensures ContactTime(log + [x], a, b, j) == ContactTime(log, a, b, j)
  {
    assert (log + [x])[..j] == log[..j];
  }

  // A report of some other track, or one more report in contact, keeps the start of a contact.
  lemma ContactContinues(w: World, log: seq<Association>, x: Association, a: string, b: string, k: int)
    requires 0 <= k < |log|
    requires Involves(x, a, b) ==> InContact(w, log + [x], a, b, |log|)
    ensures ContactBegan(w, log + [x], a, b, k) <==> ContactBegan(w, log, a, b, k)
    ensures ContactTime(log + [x], a, b, k) == ContactTime(log, a, b, k)
  {
    var longer := log + [x];
    PrefixStable(w, log, x, a, b, k);
    forall j | 0 <= j < |log|
      ensures longer[j] == log[j] && InContact(w, longer, a, b, j) == InContact(w, log, a, b, j)
    {
      PrefixStable(w, log, x, a, b, j);
    }
    assert longer[|log|] == x;
  }

  lemma RecordUntouched(w: World, log: seq<Association>, record: Option<int>, x: Association, a: string, b: string)
    requires RecordMeans(w, log, record, a, b) && !Involves(x, a, b)
    ensures RecordMeans(w, log + [x], record, a, b)
  {
    hide InContact, ContactTime;
    var longer := log + [x];
    assert longer[|log|] == x;
    forall k | 0 <= k < |log|
      ensures ContactBegan(w, longer, a, b, k) <==> ContactBegan(w, log, a, b, k)
      ensures ContactTime(longer, a, b, k) == ContactTime(log, a, b, k)
    {
      ContactContinues(w, log, x, a, b, k);
    }
    if record.Some? {
      var k :| ContactBegan(w, log, a, b, k);
      assert ContactBegan(w, longer, a, b, k);
    }
  }

  lemma RecordBroken(w: World, log: seq<Association>, x: Association, a: string, b: string)
    requires Involves(x, a, b) && !InContact(w, log + [x], a, b, |log|)
    ensures RecordMeans(w, log + [x], None, a, b)
  {
    var longer := log + [x];
    assert longer[|log|] == x;
    assert forall k :: !ContactBegan(w, longer, a, b, k);
  }

  // During a contact the next report of the pair is not a first contact.
  lemma NotAFirstContact(w: World, log: seq<Association>, x: Association, a: string, b: string, k: int)
    requires ContactBegan(w, log, a, b, k)
    ensures !ContactBegan(w, log + [x], a, b, |log|)
  {
    var longer := log + [x];
    assert longer[..|log|] == log;
    var before := LatestOfPair(log, a, b);
    assert before >= k;
    PrefixStable(w, log, x, a, b, before);
  }

  lemma RecordKept(w: World, log: seq<Association>, since: int, x: Association, a: string, b: string)
    requires RecordMeans(w, log, Some(since), a, b)
    requires Involves(x, a, b) && InContact(w, log + [x], a, b, |log|)
    ensures RecordMeans(w, log + [x], Some(since), a, b)
  {
    var longer := log + [x];
    var first :| ContactBegan(w, log, a, b, first);
    ContactContinues(w, log, x, a, b, first);
    NotAFirstContact(w, log, x, a, b, first);
    forall k | ContactBegan(w, longer, a, b, k) ensures since == ContactTime(longer, a, b, k) {
      assert k < |log|;
      ContactContinues(w, log, x, a, b, k);
    }
  }

  lemma RecordStarted(w: World, log: seq<Association>, x: Association, a: string, b: string)
    requires RecordMeans(w, log, None, a, b)
    requires Involves(x, a, b) && InContact(w, log + [x], a, b, |log|)
    ensures RecordMeans(w, log + [x], Some(ContactTime(log + [x], a, b, |log|)), a, b)
  {
    hide InContact, ContactTime;
    var longer, n := log + [x], |log|;
    assert longer[..n] == log && longer[n] == x;
    forall k | 0 <= k < n ensures !ContactBegan(w, longer, a, b, k) {
      ContactContinues(w, log, x, a, b, k);
    }
    var before := LatestOfPair(log, a, b);
    if before >= 0 && InContact(w, longer, a, b, before) {
      PrefixStable(w, log, x, a, b, before);
      ContactHasAStart(w, log, a, b, before);
      assert false;
    }
    assert ContactBegan(w, longer, a, b, n);
  }

  // Walking back from the latest report of the pair, which is in contact, reaches a first contact.
  lemma {:induction false} ContactHasAStart(w: World, log: seq<Association>, a: string, b: string, j: int)
    requires 0 <= j < |log| && Involves(log[j], a, b)
    requires forall i :: j <= i < |log| && Involves(log[i], a, b) ==> InContact(w, log, a, b, i)
    ensures exists k :: ContactBegan(w, log, a, b, k)
    decreases j
  {
    var before := LatestOfPair(log[..j], a, b);
    if before >= 0 && InContact(w, log, a, b, before) {
      assert log[..j][before] == log[before];
      forall i | before < i < j ensures !Involves(log[i], a, b) {
        assert log[..j][i] == log[i];
      }
      ContactHasAStart(w, log, a, b, before);
    } else {
      assert ContactBegan(w, log, a, b, j);
    }
  }

  // ---------------------------------------------------------------------------
  // Every state of every run
  // ---------------------------------------------------------------------------

  lemma {:induction false} HistoryEnds(log: seq<Association>, id: string)
    ensures History(log, id) != [] <==> Latest(log, id) >= 0
    ensures Latest(log, id) >= 0 ==> History(log, id)[|History(log, id)| - 1] == log[Latest(log, id)].d
    decreases |log|
  {
    if log != [] {
      HistoryEnds(log[..|log| - 1], id);
    }
  }

  lemma LatestGrows(log: seq<Association>, x: Association, id: string)
    ensures Latest(log + [x], id) == if x.id == id then |log| else Latest(log, id)
  {
    assert (log + [x])[..|log|] == log;
  }

  function LastAisTime(h: seq<Detection>): int {
    if h == [] then 0
    else if h[|h| - 1].ais.Some? then h[|h| - 1].observedAt
    else LastAisTime(h[..|h| - 1])
  }

  /** One track against its history. */
  ghost predicate TrackMeans(w: World, h: seq<Detection>, t: TrackState) {
    && h != []
    && t.points == Keep(PointsOf(h))
    && t.lastAIS == LastAisTime(h)
    && (forall i :: 0 <= i < |h| ==> Known(h[i].level) && Rank(h[i].level) <= Rank(t.level))
    && (forall z :: ClockMeans(w, h, t.zoneEnter, z))
  }

  ghost predicate Tracked(w: World, s: State, log: seq<Association>, id: string) {
    && (id in s.tracks <==> Latest(log, id) >= 0)
    && (id in s.tracks ==> TrackMeans(w, History(log, id), s.tracks[id]))
  }

  ghost predicate TracksMean(w: World, s: State, log: seq<Association>) {
    forall id :: Tracked(w, s, log, id)
  }

  ghost predicate PairsMean(w: World, s: State, log: seq<Association>) {
    forall a, b :: a != b ==> RecordMeans(w, log, Recorded(s, a, b), a, b)
  }

  lemma NewTrackMeans(w: World, d: Detection, t: TrackState)
    requires Known(d.level) && Rank(t.level) >= Rank(d.level)
    requires t.points == [PointOf(d)] && t.lastAIS == (if d.ais.Some? then d.observedAt else 0)
    requires t.zoneEnter == ZoneClock(w, map[], PointOf(d))
    ensures TrackMeans(w, [d], t)
  {
    assert [d][..0] == [];
    assert PointsOf([d]) == [PointOf(d)];
    forall z ensures ClockMeans(w, [d], t.zoneEnter, z) {
      assert [] + [d] == [d];
      ClockStep(w, [], map[], z, d);
    }
  }

  lemma TrackMeansStep(w: World, h: seq<Detection>, t: TrackState, d: Detection, t': TrackState)
    requires TrackMeans(w, h, t) && Known(d.level)
    requires t'.points == Keep(t.points + [PointOf(d)]) && t'.lastAIS == (if d.ais.Some? then d.observedAt else t.lastAIS)
    requires t'.zoneEnter == ZoneClock(w, t.zoneEnter, PointOf(d))
    requires Rank(t'.level) >= Rank(Max(t.level, d.level))
    ensures TrackMeans(w, h + [d], t')
  {
    KeepGrows(PointsOf(h), PointOf(d));
    assert PointsOf(h + [d]) == PointsOf(h) + [PointOf(d)];
    assert (h + [d])[..|h|] == h;
    forall z ensures ClockMeans(w, h + [d], t'.zoneEnter, z) {
      ClockStep(w, h, t.zoneEnter, z, d);
    }
  }

  lemma SameMeaning(w: World, h: seq<Detection>, t: TrackState, t': TrackState)
    requires TrackMeans(w, h, t)
    requires t' == t.(nearSince := t'.nearSince, rendezAlerted := t'.rendezAlerted, dark := t'.dark)
    ensures TrackMeans(w, h, t')
  {
    forall z ensures ClockMeans(w, h, t'.zoneEnter, z) {
      assert ClockMeans(w, h, t.zoneEnter, z);
    }
  }

  // The track that gets the detection.
  lemma OwnTrack(w: World, s: State, log: seq<Association>, x: State, id: string, d: Detection)
    requires Tracked(w, s, log, id) && Known(d.level) && id in x.tracks
    requires var t, t' := if id in s.tracks then s.tracks[id] else NewTrack(d.level), x.tracks[id];
             && t'.points == Keep(t.points + [PointOf(d)]) && t'.lastAIS == (if d.ais.Some? then d.observedAt else t.lastAIS)
             && t'.zoneEnter == ZoneClock(w, t.zoneEnter, PointOf(d)) && Rank(t'.level) >= Rank(Max(t.level, d.level))
    ensures Tracked(w, x, log + [Association(id, d)], id)
  {
    HistoryGrows(log, Association(id, d), id);
    LatestGrows(log, Association(id, d), id);
    HistoryEnds(log, id);
    if id in s.tracks {
      TrackMeansStep(w, History(log, id), s.tracks[id], d, x.tracks[id]);
    } else {
      assert History(log, id) + [d] == [d];
      assert Keep([] + [PointOf(d)]) == [PointOf(d)];
      NewTrackMeans(w, d, x.tracks[id]);
    }
  }

  lemma AbsorbedFields(t: TrackState, d: Detection)
    ensures var t' := AbsorbTrack(t, d);
            && t'.points == Keep(t.points + [PointOf(d)]) && t'.lastAIS == (if d.ais.Some? then d.observedAt else t.lastAIS)
            && t'.zoneEnter == t.zoneEnter && t'.level == Max(t.level, d.level)
  {
  }

  lemma ReportedTrack(w: World, s: State, log: seq<Association>, x: State, id: string, d: Detection)
    requires Tracked(w, s, log, id) && Reported(w, s, x, id, d) && Known(d.level)
    ensures Tracked(w, x, log + [Association(id, d)], id)
  {
    AbsorbedFields(Before(s, id, d), d);
    hide AbsorbTrack, Tracked, ZoneClock;
    OwnTrack(w, s, log, x, id, d);
  }

  // Any other track.
  lemma OtherTrack(w: World, s: State, log: seq<Association>, x: State, id: string, d: Detection, a: string)
    requires Tracked(w, s, log, a) && a != id && (a in x.tracks <==> a in s.tracks)
    requires a in s.tracks ==>
               x.tracks[a] == s.tracks[a].(nearSince := x.tracks[a].nearSince, rendezAlerted := x.tracks[a].rendezAlerted)
    ensures Tracked(w, x, log + [Association(id, d)], a)
  {
    HistoryGrows(log, Association(id, d), a);
    LatestGrows(log, Association(id, d), a);
    assert History(log, a) + [] == History(log, a);
    if a in s.tracks {
      SameMeaning(w, History(log, a), s.tracks[a], x.tracks[a]);
    }
  }

  lemma ReportedTracks(w: World, s: State, log: seq<Association>, x: State, id: string, d: Detection)
    requires TracksMean(w, s, log) && Reported(w, s, x, id, d) && Known(d.level)
    ensures TracksMean(w, x, log + [Association(id, d)])
  {
    forall a ensures Tracked(w, x, log + [Association(id, d)], a) {
      assert Tracked(w, s, log, a);
      if a == id {
        ReportedTrack(w, s, log, x, id, d);
      } else {
        OtherTrack(w, s, log, x, id, d, a);
      }
    }
  }

  lemma LastKept(points: seq<Point>)
    requires points != []
    ensures Keep(points) != [] && Keep(points)[|Keep(points)| - 1] == points[|points| - 1]
  {
  }

  // What the code compares a report with is the other track's latest report.
  lemma LatestPoint(w: World, s: State, log: seq<Association>, o: string)
    requires TracksMean(w, s, log) && o in s.tracks
    ensures Latest(log, o) >= 0 && s.tracks[o].points != [] && Last(s.tracks[o]) == PointOf(log[Latest(log, o)].d)
  {
    assert Tracked(w, s, log, o);
    var h := History(log, o);
    HistoryEnds(log, o);
    LastKept(PointsOf(h));
  }

  lemma RecordStep(w: World, s: State, log: seq<Association>, id: string, d: Detection, o: string, a: string, b: string)
    requires TracksMean(w, s, log) && (id, o) in {(a, b), (b, a)} && a != b
    requires RecordMeans(w, log, Recorded(s, id, o), a, b)
    ensures RecordMeans(w, log + [Association(id, d)], RecordAfter(w, s, id, PointOf(d), o), a, b)
  {
    var x := Association(id, d);
    var longer, n := log + [x], |log|;
    assert longer[..n] == log && longer[n] == x;
    assert Tracked(w, s, log, o);
    if o in s.tracks {
      LatestPoint(w, s, log, o);
      NearExactly(w, log[Latest(log, o)].d, d);
    }
    hide Near;
    if !InContact(w, longer, a, b, n) {
      RecordBroken(w, log, x, a, b);
    } else if Recorded(s, id, o).Some? {
      RecordKept(w, log, Recorded(s, id, o).value, x, a, b);
    } else {
      RecordStarted(w, log, x, a, b);
    }
  }

  lemma ReportedPairs(w: World, s: State, log: seq<Association>, x: State, id: string, d: Detection)
    requires Inv(s) && TracksMean(w, s, log) && PairsMean(w, s, log)
    requires Rerecorded(w, s, x, id, PointOf(d))
    ensures PairsMean(w, x, log + [Association(id, d)])
  {
    forall a, b | a != b ensures RecordMeans(w, log + [Association(id, d)], Recorded(x, a, b), a, b) {
      if a == id {
        RecordStep(w, s, log, id, d, b, a, b);
      } else if b == id {
        RecordedIsSymmetric(s, a, b);
        RecordStep(w, s, log, id, d, a, a, b);
      } else {
        RecordUntouched(w, log, Recorded(s, a, b), Association(id, d), a, b);
      }
    }
  }

  lemma DarkKeepsMeaning(w: World, s: State, log: seq<Association>, x: State)
    requires TracksMean(w, s, log) && PairsMean(w, s, log) && OnlyDark(s, x)
    ensures TracksMean(w, x, log) && PairsMean(w, x, log)
  {
    forall id ensures Tracked(w, x, log, id) {
      assert Tracked(w, s, log, id);
      if id in s.tracks {
        SameMeaning(w, History(log, id), s.tracks[id], x.tracks[id]);
      }
    }
    forall a, b | a != b ensures RecordMeans(w, log, Recorded(x, a, b), a, b) {
      assert Recorded(x, a, b) == Recorded(s, a, b);
    }
  }

  lemma EventKeepsMeaning(w: World, s: State, log: seq<Association>, e: Event)
    requires Inv(s) && TracksMean(w, s, log) && PairsMean(w, s, log) && LegalEvent(w, s, e)
    ensures TracksMean(w, EffectOf(w, s, e).out.state, log + EffectOf(w, s, e).log)
    ensures PairsMean(w, EffectOf(w, s, e).out.state, log + EffectOf(w, s, e).log)
  {
    match e
    case Report(d, c) =>
      if Accepted(d) {
        var id, x := TargetOf(w, s, d, c), EffectOf(w, s, e).out.state;
        IngestReported(w, s, d, c);
        IngestRerecords(w, s, d, c);
        ReportedTracks(w, s, log, x, id, d);
        ReportedPairs(w, s, log, x, id, d);
      } else {
        assert log + [] == log;
      }
    case Sweep(order, now) =>
      assert log + [] == log;
      ScanOnlyDark(w, s, order, now);
      DarkKeepsMeaning(w, s, log, EffectOf(w, s, e).out.state);
  }

  // ---------------------------------------------------------------------------
  // After a startup
  // ---------------------------------------------------------------------------

  /** The state means what the log says. */
  ghost predicate Means(w: World, s: State, log: seq<Association>) {
    Inv(s) && TracksMean(w, s, log) && PairsMean(w, s, log)
  }

  lemma ReplayedTracks(w: World, s: State, log: seq<Association>, x: State, id: string, d: Detection)
    requires TracksMean(w, s, log) && Replayed(w, s, x, id, d) && Known(d.level)
    ensures TracksMean(w, x, log + [Association(id, d)])
  {
    AbsorbedFields(if id in s.tracks then s.tracks[id] else NewTrack(d.level), d);
    hide AbsorbTrack, ZoneClock;
    forall a ensures Tracked(w, x, log + [Association(id, d)], a) {
      assert Tracked(w, s, log, a);
      if a == id {
        OwnTrack(w, s, log, x, id, d);
      } else {
        OtherTrack(w, s, log, x, id, d, a);
      }
    }
  }

  lemma ReplayKeepsMeaning(w: World, s: State, log: seq<Association>, x: Association, order: seq<string>)
    requires Means(w, s, log) && Unlatched(s) && Accepted(x.d) && Enumerates(order, s.tracks.Keys + {x.id})
    ensures Means(w, Replay(w, s, x.id, x.d, order), log + [x])
  {
    assert Known(x.d.level);
    hide Replay, TracksMean, PairsMean, Inv, Replayed, Rerecorded, Accepted;
    var c := Replay(w, s, x.id, x.d, order);
    ReplayKeepsInv(w, s, x, order);
    ReplayReplayed(w, s, x.id, x.d, order);
    ReplayedTracks(w, s, log, c, x.id, x.d);
    ReplayRerecords(w, s, x, order);
    ReportedPairs(w, s, log, c, x.id, x.d);
    assert Association(x.id, x.d) == x;
  }

  lemma NothingMeans(w: World)
    ensures Means(w, EMPTY, [])
  {
  }

  /** Whatever a startup replays, the state it leaves means what was replayed. */
  lemma {:induction false} RebuiltMeans(w: World, log: seq<Association>, orders: seq<seq<string>>)
    requires LegalOrders(w, log, orders) && AllAccepted(log)
    ensures Means(w, Rebuild(w, log, orders), log)
    decreases |log|
  {
    hide *;
    OrdersMatch(w, log, orders);
    if log == [] {
      NothingRebuilt(w);
      NothingMeans(w);
    } else {
      var n := |log| - 1;
      var front, before, x := log[..n], orders[..n], log[n];
      RebuildUnfolds(w, log, orders);
      AcceptedFront(log);
      RebuiltMeans(w, front, before);
      RebuiltIsSound(w, front, before);
      ReplayKeepsMeaning(w, Rebuild(w, front, before), front, x, orders[n]);
      assert log == front + [x];
    }
  }

  lemma BootedMeans(w: World, start: Run)
    requires Booted(w, start)
    ensures Means(w, start.state, start.log)
  {
    hide Means, LegalOrders, Rebuild, AllAccepted;
    var orders :| RebuiltBy(w, start, orders);
    RebuiltMeans(w, start.log, orders);
  }

  lemma EventKeepsMeans(w: World, r: Run, e: Event)
    requires Means(w, r.state, r.log) && LegalEvent(w, r.state, e)
    ensures Means(w, Step(w, r, e).state, Step(w, r, e).log)
  {
    hide Inv, TracksMean, PairsMean, LegalEvent, EffectOf;
    StepKeepsInv(w, r, e);
    EventKeepsMeaning(w, r.state, r.log, e);
  }

  /**
    In every run of an engine, however its startup left it, the state means what the whole log says:
    what was replayed and what came in since.
   */
  lemma {:induction false} StateMeansHistory(w: World, start: Run, events: seq<Event>)
    requires Booted(w, start) && Legal(w, start, events)
    ensures var r := Exec(w, start, events); Inv(r.state) && TracksMean(w, r.state, r.log) && PairsMean(w, r.state, r.log)
    decreases |events|
  {
    if events == [] {
      BootedMeans(w, start);
    } else {
      hide Booted, LegalEvent, Inv, TracksMean, PairsMean, Step;
      StateMeansHistory(w, start, events[..|events| - 1]);
      EventKeepsMeans(w, Exec(w, start, events[..|events| - 1]), events[|events| - 1]);
    }
  }

  // ---------------------------------------------------------------------------
  // The main results, one by one
  // ---------------------------------------------------------------------------

  /**
    Loitering clock: it runs exactly while the latest report is inside the restricted zone, and shows
    the time of the first report of the unbroken stay, however many points have been dropped since.
   */
  lemma LoiteringClock(w: World, start: Run, events: seq<Event>, id: string, z: string)
    requires Booted(w, start) && Legal(w, start, events) && id in Exec(w, start, events).state.tracks
    ensures var r := Exec(w, start, events);
            var h, t := History(r.log, id), r.state.tracks[id];
            && h != [] && t.points == Keep(PointsOf(h))
            && (z in t.zoneEnter <==> InZone(w, h[|h| - 1], z))
            && (forall k :: StayBegan(w, h, z, k) ==> z in t.zoneEnter && t.zoneEnter[z] == h[k].observedAt)
            && (z in t.zoneEnter ==> exists k :: StayBegan(w, h, z, k))
  {
    StateMeansHistory(w, start, events);
    var r := Exec(w, start, events);
    assert Tracked(w, r.state, r.log, id);
    LoiteringClockOf(w, History(r.log, id), r.state.tracks[id], z);
  }

  lemma LoiteringClockOf(w: World, h: seq<Detection>, t: TrackState, z: string)
    requires TrackMeans(w, h, t)
    ensures h != [] && t.points == Keep(PointsOf(h))
    ensures z in t.zoneEnter <==> InZone(w, h[|h| - 1], z)
    ensures forall k :: StayBegan(w, h, z, k) ==> z in t.zoneEnter && t.zoneEnter[z] == h[k].observedAt
    ensures z in t.zoneEnter ==> exists k :: StayBegan(w, h, z, k)
  {
    assert ClockMeans(w, h, t.zoneEnter, z);
  }

  /**
    Rendezvous clock: nearSince is symmetric, and present exactly during a contact, with the time of
    the first contact; during a contact every report of the pair was near the other's latest report.
   */
  lemma RendezvousClock(w: World, start: Run, events: seq<Event>, a: string, b: string)
    requires Booted(w, start) && Legal(w, start, events) && a != b
    ensures var r := Exec(w, start, events);
            && Recorded(r.state, a, b) == Recorded(r.state, b, a)
            && (Recorded(r.state, a, b).Some? <==> exists k :: ContactBegan(w, r.log, a, b, k))
            && forall k :: ContactBegan(w, r.log, a, b, k) ==> Recorded(r.state, a, b) == Some(ContactTime(r.log, a, b, k))
  {
    StateMeansHistory(w, start, events);
    RecordedIsSymmetric(Exec(w, start, events).state, a, b);
  }
}
