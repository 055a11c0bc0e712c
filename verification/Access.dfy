/** internal/isr/access.go: who may read which detections. */
module Access {
  import opened Base
  import opened Classification
  import opened Feed
  import FeedLaws

  const TRACK_READERS := {
    "nimasa-officer", "defence-hq-observer", "nn-officer", "onsa-observer", "marine-police", "fleet-operator", "auditor"}
  const INSURER := "insurer-aggregator"

  datatype Principal = Principal(roles: set<string>, clearance: Label)

  datatype Filter = Filter(modality: string, mmsi: string, since: int, limit: int)

  type Rows = map<(string, string), DetectionRow>

  /** CanReadTracks returns no error. */
  predicate CanReadTracks(p: Principal, level: Label) {
    p.roles * TRACK_READERS != {} && !(INSURER in p.roles && |p.roles| == 1) && Covers(p.clearance, level)
  }

  /** The insurer is kept out of tracks by not being a reader; the code's own test for it never decides. */
  lemma InsurerTestIsRedundant(p: Principal, level: Label)
    ensures CanReadTracks(p, level) <==> p.roles * TRACK_READERS != {} && Covers(p.clearance, level)
  {
    if INSURER in p.roles && |p.roles| == 1 {
      assert |p.roles - {INSURER}| == 0;
      assert p.roles == (p.roles - {INSURER}) + {INSURER};
      assert p.roles * TRACK_READERS == {};
    }
  }

  /** A track is readable exactly with one of seven roles and an approved clearance not below its approved label. */
  lemma ReadersExactly(p: Principal, level: Label)
    ensures CanReadTracks(p, level) <==>
              && (|| "nimasa-officer" in p.roles || "defence-hq-observer" in p.roles || "nn-officer" in p.roles || "onsa-observer" in p.roles
                  || "marine-police" in p.roles || "fleet-operator" in p.roles || "auditor" in p.roles)
              && match level
                 case Unclassified => !p.clearance.Unknown?
                 case Restricted => p.clearance in {Restricted, Confidential, Secret}
                 case Confidential => p.clearance in {Confidential, Secret}
                 case Secret => p.clearance == Secret
                 case Unknown(_) => false
  {
    InsurerTestIsRedundant(p, level);
    assert p.roles * TRACK_READERS != {} <==> exists role :: role in p.roles && role in TRACK_READERS by {
      if role :| role in p.roles && role in TRACK_READERS {
        assert role in p.roles * TRACK_READERS;
      }
    }
  }

  /** coveredLabels: every approved label the clearance covers. */
  method CoveredLabels(ceiling: Label) returns (labels: seq<Label>)
    ensures forall level :: level in labels <==> Covers(ceiling, level)
    ensures forall i, j :: 0 <= i < j < |labels| ==> Rank(labels[i]) < Rank(labels[j])
  {
    labels := [];
    var all := [Unclassified, Restricted, Confidential, Secret];
    for i := 0 to |all|
      invariant forall level :: level in labels <==> level in all[..i] && Covers(ceiling, level)
      invariant forall j :: 0 <= j < |labels| ==> Rank(labels[j]) < i
      invariant forall j, k :: 0 <= j < k < |labels| ==> Rank(labels[j]) < Rank(labels[k])
    {
      assert all[..i + 1] == all[..i] + [all[i]];
      if Covers(ceiling, all[i]) {
        labels := labels + [all[i]];
      }
    }
    assert all[..|all|] == all;
    forall level | Known(level) ensures level in all {
      match level
      case Unclassified => assert all[0] == level;
      case Restricted => assert all[1] == level;
      case Confidential => assert all[2] == level;
      case Secret => assert all[3] == level;
    }
  }

  // ---------------------------------------------------------------------------
  // ListDetections
  // ---------------------------------------------------------------------------

  function Limit(filter: Filter): int {
    if filter.limit <= 0 || filter.limit > 500 then 500 else filter.limit
  }

  /** The WHERE clause. */
  predicate Matches(row: DetectionRow, labels: seq<Label>, filter: Filter) {
    && row.column in labels
    && (filter.modality != "" ==> row.payload.modality == filter.modality)
    && (filter.mmsi != "" ==> row.mmsi == Some(filter.mmsi))
    && (filter.since != 0 ==> row.payload.observedAt >= filter.since)
  }

  /** An answer to the query: the newest matching rows, newest first, up to the limit. */
  ghost predicate Answers(rows: Rows, labels: seq<Label>, filter: Filter, answer: seq<(string, string)>) {
    && |answer| <= Limit(filter)
    && (forall i :: 0 <= i < |answer| ==> answer[i] in rows && Matches(rows[answer[i]], labels, filter))
    && (forall i, j :: 0 <= i < j < |answer| ==>
          answer[i] != answer[j] && rows[answer[i]].payload.observedAt >= rows[answer[j]].payload.observedAt)
    && (forall id :: id in rows && Matches(rows[id], labels, filter) && id !in answer ==>
          |answer| == Limit(filter) && rows[answer[|answer| - 1]].payload.observedAt >= rows[id].payload.observedAt)
  }

  // What decoding a retained document yields. The table keeps it as JSONB, so this need not be what admission decoded.
  type Decoder = ((string, string)) -> Option<Payload>

  predicate Readable(p: Principal, decode: Decoder, id: (string, string)) {
    decode(id).Some? && CanReadTracks(p, decode(id).value.level)
  }

  /** The detections that come back, in order, unless one of them cannot be decoded or fails the second check. */
  function Checked(p: Principal, decode: Decoder, answer: seq<(string, string)>): Option<seq<Payload>> {
    if answer == [] then Some([])
    else
      match Checked(p, decode, answer[..|answer| - 1])
      case None => None
      case Some(front) =>
        var id := answer[|answer| - 1];
        if Readable(p, decode, id) then Some(front + [decode(id).value]) else None
  }

  // The loop over the rows.
  method Recheck(p: Principal, decode: Decoder, answer: seq<(string, string)>) returns (detections: Option<seq<Payload>>)
    ensures detections == Checked(p, decode, answer)
    ensures detections.Some? ==> forall i :: 0 <= i < |detections.value| ==> Covers(p.clearance, detections.value[i].level)
  {
    var list: seq<Payload> := [];
    for i := 0 to |answer|
      invariant Checked(p, decode, answer[..i]) == Some(list)
      invariant forall j :: 0 <= j < |list| ==> Covers(p.clearance, list[j].level)
    {
      assert answer[..i + 1][..i] == answer[..i];
      var d := decode(answer[i]);
      if d.None? || !CanReadTracks(p, d.value.level) {
        CheckStops(p, decode, answer, i + 1);
        return None;
      }
      list := list + [d.value];
    }
    assert answer[..|answer|] == answer;
    return Some(list);
  }

  /** ListDetections; query is the database's answer to the statement with those labels. */
  method ListDetections(p: Principal, rows: Rows, decode: Decoder, filter: Filter, query: seq<Label> -> seq<(string, string)>)
    returns (detections: Option<seq<Payload>>, ghost labels: seq<Label>)
    requires forall asked :: Answers(rows, asked, filter, query(asked))
    ensures (forall level :: level in labels <==> Covers(p.clearance, level)) && Answers(rows, labels, filter, query(labels))
    ensures detections == if CanReadTracks(p, Unclassified) then Checked(p, decode, query(labels)) else None
    ensures detections.Some? ==> forall i :: 0 <= i < |detections.value| ==> Covers(p.clearance, detections.value[i].level)
  {
    var asked := CoveredLabels(p.clearance);
    labels := asked;
    assert Answers(rows, asked, filter, query(asked));
    if !CanReadTracks(p, Unclassified) {
      return None, labels;
    }
    detections := Recheck(p, decode, query(asked));
  }

  lemma {:induction false} CheckStops(p: Principal, decode: Decoder, answer: seq<(string, string)>, i: nat)
    requires i <= |answer| && Checked(p, decode, answer[..i]).None?
    ensures Checked(p, decode, answer).None?
    decreases |answer|
  {
    if i < |answer| {
      assert answer[..|answer| - 1][..i] == answer[..i];
      CheckStops(p, decode, answer[..|answer| - 1], i);
    } else {
      assert answer[..i] == answer;
    }
  }

  function Decoded(decode: Decoder, answer: seq<(string, string)>): seq<Payload>
    requires forall i :: 0 <= i < |answer| ==> decode(answer[i]).Some?
  {
    seq(|answer|, i requires 0 <= i < |answer| => decode(answer[i]).value)
  }

  /** The second check passes a list exactly when it passes every row of it, and then all rows come back as decoded. */
  lemma {:induction false} CheckedExactly(p: Principal, decode: Decoder, answer: seq<(string, string)>)
    ensures Checked(p, decode, answer).Some? <==> forall i :: 0 <= i < |answer| ==> Readable(p, decode, answer[i])
    ensures (forall i :: 0 <= i < |answer| ==> Readable(p, decode, answer[i])) ==> Checked(p, decode, answer) == Some(Decoded(decode, answer))
    decreases |answer|
  {
    if answer == [] {
      assert Decoded(decode, answer) == [];
    } else {
      var front := answer[..|answer| - 1];
      CheckedExactly(p, decode, front);
      assert answer == front + [answer[|answer| - 1]];
      if forall i :: 0 <= i < |answer| ==> Readable(p, decode, answer[i]) {
        assert forall i :: 0 <= i < |front| ==> front[i] == answer[i];
        assert Checked(p, decode, front) == Some(Decoded(decode, front));
        assert Readable(p, decode, answer[|answer| - 1]);
        assert Decoded(decode, answer) == Decoded(decode, front) + [decode(answer[|answer| - 1]).value];
      }
    }
  }

  /** The retained document decodes to an approved label that is not above the one admission decoded. */
  predicate NotRaised(row: DetectionRow, decoded: Option<Payload>) {
    decoded.Some? && Known(decoded.value.level) && Rank(decoded.value.level) <= Rank(row.payload.level)
  }

  /**
    In every reachable state the second check passes all rows a query answers, when their retained
    documents decode to labels not above those admission decoded: admission writes the label it decoded
    to the column the query filters on.
   */
  lemma RecheckNeverFires(
      c: Crypto, actions: seq<FeedLaws.Action>, p: Principal, filter: Filter, labels: seq<Label>, answer: seq<(string, string)>, decode: Decoder)
    requires FeedLaws.Injective(c) && FeedLaws.Legal(c, actions)
    requires forall level :: level in labels <==> Covers(p.clearance, level)
    requires Answers(FeedLaws.Exec(c, actions).state.detections, labels, filter, answer) && CanReadTracks(p, Unclassified)
    requires forall i :: 0 <= i < |answer| ==> NotRaised(FeedLaws.Exec(c, actions).state.detections[answer[i]], decode(answer[i]))
    ensures (forall i :: 0 <= i < |answer| ==> decode(answer[i]).Some?) && Checked(p, decode, answer) == Some(Decoded(decode, answer))
  {
    FeedLaws.ReachableStates(c, actions);
    var rows := FeedLaws.Exec(c, actions).state.detections;
    forall i | 0 <= i < |answer| ensures Readable(p, decode, answer[i]) {
      assert FeedLaws.RowRight(rows[answer[i]]) && NotRaised(rows[answer[i]], decode(answer[i]));
    }
    CheckedExactly(p, decode, answer);
  }

  /**
    That condition is exact: in every reachable state a row passes the second check for every reader
    the query may answer it to exactly when its retained document decodes to no higher label.
   */
  lemma PassesAllReadersExactly(c: Crypto, actions: seq<FeedLaws.Action>, id: (string, string), decode: Decoder)
    requires FeedLaws.Injective(c) && FeedLaws.Legal(c, actions) && id in FeedLaws.Exec(c, actions).state.detections
    ensures var row := FeedLaws.Exec(c, actions).state.detections[id];
            (forall p :: CanReadTracks(p, row.column) ==> Readable(p, decode, id)) <==> NotRaised(row, decode(id))
  {
    FeedLaws.ReachableStates(c, actions);
    var row := FeedLaws.Exec(c, actions).state.detections[id];
    assert FeedLaws.RowRight(row);
    var reader := Principal({"auditor"}, row.column);
    InsurerTestIsRedundant(reader, row.column);
    assert "auditor" in reader.roles * TRACK_READERS;
    assert CanReadTracks(reader, row.column);
    if NotRaised(row, decode(id)) {
      forall p | CanReadTracks(p, row.column) ensures Readable(p, decode, id) {
        InsurerTestIsRedundant(p, row.column);
      }
    }
  }

  /** The row is asked for, in terms of the detection that was admitted. */
  predicate Asked(p: Principal, filter: Filter, row: DetectionRow) {
    && Covers(p.clearance, row.payload.level)
    && filter.modality in {"", row.payload.modality}
    && filter.mmsi in {"", row.payload.mmsi}
    && (filter.since == 0 || filter.since <= row.payload.observedAt)
  }

  /**
    What the listing query answers in every reachable state: of the admitted detections that are asked
    for the newest, newest first, at most as many as the filter says and never more than 500.
   */
  lemma ListsExactly(
      c: Crypto, actions: seq<FeedLaws.Action>, p: Principal, filter: Filter, labels: seq<Label>, answer: seq<(string, string)>)
    requires FeedLaws.Injective(c) && FeedLaws.Legal(c, actions)
    requires forall level :: level in labels <==> Covers(p.clearance, level)
    requires Answers(FeedLaws.Exec(c, actions).state.detections, labels, filter, answer)
    ensures var rows := FeedLaws.Exec(c, actions).state.detections;
            var most := if 1 <= filter.limit <= 500 then filter.limit else 500;
            && |answer| <= most
            && (forall i :: 0 <= i < |answer| ==> answer[i] in rows && Asked(p, filter, rows[answer[i]]))
            && (forall i, j :: 0 <= i < j < |answer| ==> answer[i] != answer[j])
            && (forall i, j :: 0 <= i < j < |answer| ==> rows[answer[j]].payload.observedAt <= rows[answer[i]].payload.observedAt)
            && (forall id :: id in rows && Asked(p, filter, rows[id]) && id !in answer ==>
                  |answer| == most && rows[id].payload.observedAt <= rows[answer[most - 1]].payload.observedAt)
  {
    FeedLaws.ReachableStates(c, actions);
    var rows := FeedLaws.Exec(c, actions).state.detections;
    forall id | id in rows ensures Matches(rows[id], labels, filter) <==> Asked(p, filter, rows[id]) {
      assert FeedLaws.RowRight(rows[id]);
    }
    hide FeedLaws.Exec, FeedLaws.Inv, Matches, Asked;
  }

  /** A row whose document is above the clearance is stopped by the second check, whatever its column says. */
  lemma RecheckStopsMislabelled(p: Principal, decode: Decoder, answer: seq<(string, string)>, i: nat)
    requires i < |answer| && (decode(answer[i]).Some? ==> !Covers(p.clearance, decode(answer[i]).value.level))
    ensures Checked(p, decode, answer) == None
  {
    CheckedExactly(p, decode, answer);
    assert !Readable(p, decode, answer[i]);
  }
}
