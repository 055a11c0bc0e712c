/** What every run of registrations, rotations, revocations and admissions keeps. */
module FeedLaws {
  import opened Base
  import opened Classification
  import opened Feed

  // ---------------------------------------------------------------------------
  // Runs
  // ---------------------------------------------------------------------------

  datatype Action =
    | Register(registration: Registration)
    | Rotate(rotation: RotationRequest, now: int)
    | Revoke(revocation: RevocationRequest, now: int)
    | Admit(r: Admission, clock: Clock, pick: Option<(string, string)>)
    | Detect(r: Admission, decoded: Option<Payload>, clock: Clock, pick: Option<(string, string)>)

  /** The database picks the grace key by its query. */
  ghost predicate Enabled(s: State, a: Action) {
    a.Admit? || a.Detect? ==> GracePick(s, a.r.sourceID, a.clock.grace, a.pick)
  }

  ghost function After(c: Crypto, s: State, a: Action): State
    requires Enabled(s, a)
  {
    match a
    case Register(r) => Registered(c, s, r).1
    case Rotate(r, now) => Rotated(c, s, r, now).1
    case Revoke(r, now) => Revoked(s, r, now).1
    case Admit(r, clock, pick) => Admitted(c, s, r, clock, pick).1
    case Detect(r, decoded, clock, pick) => Detected(c, s, r, decoded, clock, pick).1
  }

  /** The receipt of a successful admission of either kind. */
  ghost function ReceiptOf(c: Crypto, s: State, a: Action): Option<Receipt>
    requires Enabled(s, a)
  {
    match a
    case Admit(r, clock, pick) => (match Admitted(c, s, r, clock, pick).0 case Ok(receipt) => Some(receipt) case Err(_) => None)
    case Detect(r, decoded, clock, pick) =>
      (match Detected(c, s, r, decoded, clock, pick).0 case Ok(receipt) => Some(receipt) case Err(_) => None)
    case _ => None
  }

  /** A key that was active until a rotation at that instant. */
  datatype Retired = Retired(sourceID: string, key: Bytes, at: int)

  datatype Run = Run(state: State, retired: seq<Retired>)

  const START := Run(EMPTY, [])

  ghost predicate ChangesKey(s: State, x: State, sourceID: string) {
    sourceID in s.sources && (sourceID in x.sources ==> x.sources[sourceID].key != s.sources[sourceID].key)
  }

  ghost function Step(c: Crypto, run: Run, a: Action): Run
    requires Enabled(run.state, a)
  {
    var x := After(c, run.state, a);
    Run(x,
        if a.Rotate? && ChangesKey(run.state, x, a.rotation.sourceID)
        then run.retired + [Retired(a.rotation.sourceID, run.state.sources[a.rotation.sourceID].key, a.now)]
        else run.retired)
  }

  ghost function Exec(c: Crypto, actions: seq<Action>): Run {
    if actions == [] then START
    else
      var before, last := Exec(c, actions[..|actions| - 1]), actions[|actions| - 1];
      if Enabled(before.state, last) then Step(c, before, last) else before
  }

  ghost predicate Legal(c: Crypto, actions: seq<Action>) {
    actions == [] || (
      && Legal(c, actions[..|actions| - 1])
      && Enabled(Exec(c, actions[..|actions| - 1]).state, actions[|actions| - 1]))
  }

  // ---------------------------------------------------------------------------
  // The invariant
  // ---------------------------------------------------------------------------

  /** No two keys or payloads have the same digest. */
  ghost predicate Injective(c: Crypto) {
    forall a, b :: c.digest(a) == c.digest(b) ==> a == b
  }

  ghost predicate RotationRight(c: Crypto, run: Run, at: (string, string))
    requires at in run.state.rotations
  {
    var row := run.state.rotations[at];
    && c.digest(row.key) == at.1 && at.0 in run.state.sources
    && row.rotatedAt < row.graceUntil <= row.rotatedAt + MAX_GRACE
    && Retired(at.0, row.key, row.rotatedAt) in run.retired
  }

  /** The label column is the label of the payload, and the MMSI column its MMSI. */
  predicate RowRight(row: DetectionRow) {
    && row.column == row.payload.level && Known(row.column)
    && row.mmsi == if row.payload.mmsi == "" then None else Some(row.payload.mmsi)
  }

  ghost predicate UniqueEventIDs(s: State) {
    forall id, id' :: id in s.detections && id' in s.detections ==>
      (s.detections[id].payload.eventID == s.detections[id'].payload.eventID ==> id == id')
  }

  ghost predicate Inv(c: Crypto, run: Run) {
    var s := run.state;
    && (forall id :: id in s.sources ==> s.sources[id].fingerprint == c.digest(s.sources[id].key))
    && (forall at :: at in s.rotations ==> RotationRight(c, run, at))
    && (forall id :: id in s.detections ==> RowRight(s.detections[id]))
    && UniqueEventIDs(s)
    && |s.outbox| == |s.detections|
  }

  lemma RegistrationRecorded(c: Crypto, s: State, a: Action)
    requires a.Register?
    ensures var x, r := After(c, s, a), a.registration;
            || x == s
            || (&& r.sourceID in x.sources && x == s.(sources := s.sources[r.sourceID := x.sources[r.sourceID]])
                && var source := x.sources[r.sourceID];
                   && source.key == r.key && source.active == r.active
                   && if r.sourceID in s.sources then source.key == s.sources[r.sourceID].key && source.fingerprint == s.sources[r.sourceID].fingerprint
                      else source.fingerprint == c.digest(r.key))
  {
    hide Identifier;
  }

  lemma RevocationRecorded(c: Crypto, s: State, a: Action)
    requires a.Revoke?
    ensures var x, id := After(c, s, a), a.revocation.sourceID;
            || x == s
            || (id in s.sources && x == s.(sources := s.sources[id := s.sources[id].(active := false)], revocations := x.revocations))
  {
    hide Identifier;
  }

  lemma EventRecorded(c: Crypto, s: State, a: Action)
    requires a.Admit? && Enabled(s, a)
    ensures var x := After(c, s, a);
            x == s.(events := x.events) && forall id :: id in s.events ==> id in x.events && x.events[id] == s.events[id]
  {
    hide Authorize, Identifier, GracePick;
  }

  lemma RegisterKeepsInv(c: Crypto, run: Run, a: Action)
    requires Inv(c, run) && a.Register?
    ensures Inv(c, Step(c, run, a))
  {
    RegistrationRecorded(c, run.state, a);
    hide After;
    var x := Step(c, run, a);
    forall at | at in x.state.rotations ensures RotationRight(c, x, at) {
      assert RotationRight(c, run, at);
    }
  }

  lemma RotationRecorded(c: Crypto, s: State, a: Action)
    requires a.Rotate?
    ensures var x, id := After(c, s, a), a.rotation.sourceID;
            || x == s
            || (&& id in s.sources && s.sources[id].key != a.rotation.newKey && a.rotation.Validate(a.now)
                && var at := (id, s.sources[id].fingerprint);
                   x == s.(
                     rotations := s.rotations[at := Rotation(if at in s.rotations then s.rotations[at].key else s.sources[id].key,
                                                             a.rotation.graceUntil, a.rotation.rotatedBy, a.now)],
                     sources := s.sources[id := s.sources[id].(key := a.rotation.newKey, fingerprint := c.digest(a.rotation.newKey))]))
  {
  }

  lemma RotateKeepsInv(c: Crypto, run: Run, a: Action)
    requires Injective(c) && Inv(c, run) && a.Rotate?
    ensures Inv(c, Step(c, run, a))
  {
    RotationRecorded(c, run.state, a);
    hide After;
    var s, x := run.state, Step(c, run, a);
    if x.state != s {
      var id := a.rotation.sourceID;
      var at := (id, s.sources[id].fingerprint);
      assert at in s.rotations ==> RotationRight(c, run, at);
      assert x.retired == run.retired + [Retired(id, s.sources[id].key, a.now)];
      assert x.retired[|run.retired|] == Retired(id, s.sources[id].key, a.now);
      assert x.state.rotations[at].key == s.sources[id].key;
      forall other | other in x.state.rotations ensures RotationRight(c, x, other) {
        if other != at {
          assert RotationRight(c, run, other);
        }
      }
    }
  }

  lemma RevokeKeepsInv(c: Crypto, run: Run, a: Action)
    requires Inv(c, run) && a.Revoke?
    ensures Inv(c, Step(c, run, a))
  {
    RevocationRecorded(c, run.state, a);
    hide After;
    var x := Step(c, run, a);
    forall at | at in x.state.rotations ensures RotationRight(c, x, at) {
      assert RotationRight(c, run, at);
    }
  }

  lemma AdmitKeepsInv(c: Crypto, run: Run, a: Action)
    requires Inv(c, run) && a.Admit? && Enabled(run.state, a)
    ensures Inv(c, Step(c, run, a))
  {
    EventRecorded(c, run.state, a);
    hide After, Enabled;
    var x := Step(c, run, a);
    forall at | at in x.state.rotations ensures RotationRight(c, x, at) {
      assert RotationRight(c, run, at);
    }
  }

  // A detection is recorded, if at all, as a new row with an identity of its own and one notice.
  lemma DetectionRecorded(c: Crypto, s: State, a: Action)
    requires a.Detect? && Enabled(s, a)
    ensures var x, id := After(c, s, a), (a.r.sourceID, a.r.sourceEventID);
            && x == s.(detections := x.detections, outbox := x.outbox)
            && (x == s || (
                  && id !in s.detections && id in x.detections && x.detections == s.detections[id := x.detections[id]]
                  && RowRight(x.detections[id]) && !EventIDTaken(s, x.detections[id].payload.eventID)
                  && |x.outbox| == |s.outbox| + 1 && s.outbox <= x.outbox))
  {
    hide Authorize, Identifier, GracePick;
  }

  lemma UniqueGrows(s: State, x: State, id: (string, string), row: DetectionRow)
    requires UniqueEventIDs(s) && id !in s.detections && x.detections == s.detections[id := row]
    requires !EventIDTaken(s, row.payload.eventID)
    ensures UniqueEventIDs(x) && |x.detections| == |s.detections| + 1
  {
    OneKeyMore(s.detections, x.detections, id, row);
    forall a, b | a in x.detections && b in x.detections && x.detections[a].payload.eventID == x.detections[b].payload.eventID ensures a == b {
    }
  }

  lemma OneKeyMore<K, V>(m: map<K, V>, n: map<K, V>, k: K, v: V)
    requires k !in m && n == m[k := v]
    ensures |n| == |m| + 1
  {
    assert n.Keys == m.Keys + {k};
  }

  lemma DetectKeepsInv(c: Crypto, run: Run, a: Action)
    requires Inv(c, run) && a.Detect? && Enabled(run.state, a)
    ensures Inv(c, Step(c, run, a))
  {
    var s, x, id := run.state, Step(c, run, a), (a.r.sourceID, a.r.sourceEventID);
    DetectionRecorded(c, s, a);
    if x.state != s {
      UniqueGrows(s, x.state, id, x.state.detections[id]);
    }
    hide After, UniqueEventIDs, EventIDTaken, Enabled;
    forall at | at in x.state.rotations ensures RotationRight(c, x, at) {
      assert RotationRight(c, run, at);
    }
  }

  lemma StepKeepsInv(c: Crypto, run: Run, a: Action)
    requires Injective(c) && Inv(c, run) && Enabled(run.state, a)
    ensures Inv(c, Step(c, run, a))
  {
    match a
    case Register(_) => RegisterKeepsInv(c, run, a);
    case Rotate(_, _) => RotateKeepsInv(c, run, a);
    case Revoke(_, _) => RevokeKeepsInv(c, run, a);
    case Admit(_, _, _) => AdmitKeepsInv(c, run, a);
    case Detect(_, _, _, _) => DetectKeepsInv(c, run, a);
  }

  lemma {:induction false} ReachableStates(c: Crypto, actions: seq<Action>)
    requires Injective(c) && Legal(c, actions)
    ensures Inv(c, Exec(c, actions))
    decreases |actions|
  {
    if actions != [] {
      ReachableStates(c, actions[..|actions| - 1]);
      StepKeepsInv(c, Exec(c, actions[..|actions| - 1]), actions[|actions| - 1]);
    }
  }

  // ---------------------------------------------------------------------------
  // Which requests are admitted
  // ---------------------------------------------------------------------------

  /** Claimed at most 24 hours ago, and at most 5 minutes ahead, in nanoseconds. */
  predicate InTime(claimedAt: int, now: int) {
    now - 86_400_000_000_000 <= claimedAt <= now + 300_000_000_000
  }

  /** What a request must be like: two identifiers, a payload of at most so many bytes, an Ed25519 signature, a time. */
  predicate WellFormed(r: Admission, limit: nat) {
    && Identifier(r.sourceID) && Identifier(r.sourceEventID)
    && r.payload != [] && |r.payload| <= limit && |r.signature| == 64 && r.claimedAt != 0
  }

  /** The active key verifies the request, or the rotated-out key the database picked. */
  predicate KeyVerifies(c: Crypto, s: State, r: Admission, pick: Option<(string, string)>)
    requires r.sourceID in s.sources && (pick.Some? ==> pick.value in s.rotations)
  {
    || c.verify(s.sources[r.sourceID].key, Preimage(c, r), r.signature)
    || (pick.Some? && c.verify(s.rotations[pick.value].key, Preimage(c, r), r.signature))
  }

  /** The error of a well-formed request that is not authorized; None when it is. */
  ghost predicate Answers(c: Crypto, s: State, r: Admission, now: int, pick: Option<(string, string)>, error: Option<Fault>)
    requires pick.Some? ==> pick.value in s.rotations
  {
    && (error == Some(NotFound) <==> r.sourceID !in s.sources)
    && (error == Some(Inactive) <==> r.sourceID in s.sources && !s.sources[r.sourceID].active)
    && (error == Some(Stale) <==> r.sourceID in s.sources && s.sources[r.sourceID].active && !InTime(r.claimedAt, now))
    && (error == Some(BadSignature) <==>
          r.sourceID in s.sources && s.sources[r.sourceID].active && InTime(r.claimedAt, now) && !KeyVerifies(c, s, r, pick))
    && (error == None <==>
          r.sourceID in s.sources && s.sources[r.sourceID].active && InTime(r.claimedAt, now) && KeyVerifies(c, s, r, pick))
  }

  function AuthorizationError<T>(done: Result<T, Fault>): Option<Fault> {
    if done.Err? && done.error in {NotFound, Inactive, Stale, BadSignature} then Some(done.error) else None
  }

  /**
    An event is refused as invalid exactly when it is not well-formed, with at most 8 MiB of payload;
    otherwise it gets past authorization exactly when its source is registered and active, its time is
    within the window, and one of the two keys verifies it, and each other answer says which of these
    failed first. Then it conflicts exactly with a retained event of other content.
   */
  lemma EventAdmittedExactly(c: Crypto, s: State, r: Admission, clock: Clock, pick: Option<(string, string)>)
    requires GracePick(s, r.sourceID, clock.grace, pick)
    ensures var (done, x) := Admitted(c, s, r, clock, pick);
            && (done == Err(Invalid) <==> !WellFormed(r, 8_388_608))
            && (WellFormed(r, 8_388_608) ==> Answers(c, s, r, clock.checked, pick, AuthorizationError(done)))
            && (WellFormed(r, 8_388_608) && AuthorizationError(done).None? ==>
                  var id, digest := (r.sourceID, r.sourceEventID), "sha256:" + c.digest(r.payload);
                  var same := id in s.events ==> s.events[id].digest == digest && s.events[id].signature == r.signature;
                  && (if same then done.Ok? else done == Err(IdempotencyConflict))
                  && (done.Ok? ==>
                        && done.value.digest == digest && done.value.fingerprint == s.sources[r.sourceID].fingerprint
                        && (done.value.replayed <==> id in s.events)
                        && id in x.events && x.events[id] == Retained(digest, r.signature, done.value.receivedAt)
                        && done.value.receivedAt == (if id in s.events then s.events[id].receivedAt else clock.received)))
            && (done.Err? ==> x == s)
  {
    hide Identifier, Preimage, GracePick;
  }

  /** The same for a detection of at most 1 MiB, which must also decode to the detection it names. */
  lemma DetectionAdmittedExactly(c: Crypto, s: State, r: Admission, decoded: Option<Payload>, clock: Clock, pick: Option<(string, string)>)
    requires GracePick(s, r.sourceID, clock.grace, pick)
    ensures var (done, x) := Detected(c, s, r, decoded, clock, pick);
            var valid := WellFormed(r, 1_048_576) && Names(r, decoded);
            && (done == Err(Invalid) <==> !valid)
            && (valid ==> Answers(c, s, r, clock.checked, pick, AuthorizationError(done)))
            && (valid && AuthorizationError(done).None? ==>
                  var id, digest := (r.sourceID, r.sourceEventID), "sha256:" + c.digest(r.payload);
                  && (id in s.detections ==>
                        (done.Ok? <==>
                           && s.detections[id].retained.digest == digest && s.detections[id].retained.signature == r.signature
                           && s.detections[id].payload.eventID == decoded.value.eventID))
                  && (id !in s.detections ==> (done.Ok? <==> !EventIDTaken(s, decoded.value.eventID)))
                  && (done.Ok? ==>
                        && done.value.digest == digest && done.value.fingerprint == s.sources[r.sourceID].fingerprint
                        && (done.value.replayed <==> id in s.detections) && id in x.detections
                        && done.value.receivedAt == (if id in s.detections then s.detections[id].retained.receivedAt else clock.received))
                  && (done.Ok? && id !in s.detections ==>
                        && x.detections[id].payload == decoded.value && x.detections[id].column == decoded.value.level
                        && x.detections[id].mmsi == (if decoded.value.mmsi == "" then None else Some(decoded.value.mmsi))
                        && x.detections[id].retained == Retained(digest, r.signature, clock.received)
                        && x.outbox == s.outbox + [Notice(decoded.value.eventID, decoded.value.level, clock.received)]))
            && (done.Err? ==> x == s)
  {
    hide Identifier, Preimage, GracePick, EventIDTaken;
  }

  /** The payload decodes to a valid detection with an approved label and the source and event of the request. */
  predicate Names(r: Admission, decoded: Option<Payload>) {
    match decoded
    case None => false
    case Some(d) => d.fieldsValid && !d.level.Unknown? && d.sourceID == r.sourceID && d.sourceEventID == r.sourceEventID
  }

  /** When a rotation takes effect, and what it leaves: the new key, and the old one until its grace of at most 30 days ends. */
  lemma RotatesExactly(c: Crypto, s: State, r: RotationRequest, now: int)
    requires forall id :: id in s.sources ==> s.sources[id].fingerprint == c.digest(s.sources[id].key)
    ensures var (done, x) := Rotated(c, s, r, now);
            && (done.Ok? <==>
                  && Identifier(r.sourceID) && Identifier(r.rotatedBy) && |r.newKey| == 32
                  && now < r.graceUntil <= now + 2_592_000_000_000_000
                  && r.sourceID in s.sources && s.sources[r.sourceID].active && s.sources[r.sourceID].key != r.newKey)
            && (done.Err? ==> x == s)
            && (done.Ok? ==>
                  var at := (r.sourceID, c.digest(s.sources[r.sourceID].key));
                  && x.sources.Keys == s.sources.Keys && (forall id :: id in s.sources && id != r.sourceID ==> x.sources[id] == s.sources[id])
                  && x.sources[r.sourceID] == s.sources[r.sourceID].(key := r.newKey, fingerprint := c.digest(r.newKey))
                  && at in x.rotations && x.rotations[at].graceUntil == r.graceUntil && x.rotations[at].rotatedAt == now
                  && x.rotations[at].rotatedBy == r.rotatedBy
                  && x.rotations[at].key == (if at in s.rotations then s.rotations[at].key else s.sources[r.sourceID].key)
                  && (forall b :: b != at ==> (b in x.rotations <==> b in s.rotations))
                  && (forall b :: b != at && b in s.rotations ==> x.rotations[b] == s.rotations[b])
                  && x.events == s.events && x.detections == s.detections && x.revocations == s.revocations && x.outbox == s.outbox)
  {
    hide Identifier;
  }

  /** A source is registered under its key once; registering it again under that key refreshes the rest of it, under another key nothing. */
  lemma RegistersExactly(c: Crypto, s: State, r: Registration)
    ensures var (done, x) := Registered(c, s, r);
            var known := r.sourceID in s.sources;
            && (done.Ok? <==>
                  && Identifier(r.sourceID) && Identifier(r.authority) && |r.key| == 32
                  && r.kind in ["AIS", "VTS", "RADAR", "PORT", "AGENCY", "SAR", "RF", "ACOUSTIC", "OPTICAL"]
                  && (known ==> s.sources[r.sourceID].key == r.key))
            && (done == Err(KeyConflict) ==> known && s.sources[r.sourceID].key != r.key)
            && (done.Err? ==> x == s)
            && (done.Ok? ==>
                  && r.sourceID in x.sources && x == s.(sources := s.sources[r.sourceID := x.sources[r.sourceID]])
                  && var source := x.sources[r.sourceID];
                     && source.kind == r.kind && source.authority == r.authority && source.key == r.key && source.active == r.active
                     && source.fingerprint == if known then s.sources[r.sourceID].fingerprint else c.digest(r.key))
  {
    hide Identifier;
    Kinds(r.kind);
  }

  lemma Kinds(kind: string)
    ensures kind in ["AIS", "VTS", "RADAR", "PORT", "AGENCY", "SAR", "RF", "ACOUSTIC", "OPTICAL"] <==>
              kind in {"AIS", "VTS", "RADAR", "PORT", "AGENCY", "SAR", "RF", "ACOUSTIC", "OPTICAL"}
  {
  }

  /** Which revocations succeed: the first of an active source, with a reason of at most 512 characters, and any exact repetition of the one on record. */
  lemma RevokesExactly(s: State, r: RevocationRequest, now: int)
    ensures var (done, x) := Revoked(s, r, now);
            var valid := Identifier(r.sourceID) && Identifier(r.revokedBy) && !Blank(r.reason) && |r.reason| <= 512;
            var known, recorded := r.sourceID in s.sources, r.sourceID in s.revocations;
            && (done == Err(Invalid) <==> !valid)
            && (done == Err(NotFound) <==> valid && !known)
            && (done == Err(NoRevocationEvidence) <==> valid && known && !recorded && !s.sources[r.sourceID].active)
            && (done == Err(IdempotencyConflict) <==>
                  valid && known && recorded && (s.revocations[r.sourceID].reason, s.revocations[r.sourceID].revokedBy) != (r.reason, r.revokedBy))
            && (done.Ok? <==>
                  valid && known
                  && if recorded then s.revocations[r.sourceID].reason == r.reason && s.revocations[r.sourceID].revokedBy == r.revokedBy
                     else s.sources[r.sourceID].active)
            && (done.Err? || recorded ==> x == s)
            && (done.Ok? && !recorded ==>
                  && x.sources == s.sources[r.sourceID := s.sources[r.sourceID].(active := false)]
                  && x.revocations == s.revocations[r.sourceID := Revocation(r.reason, r.revokedBy, now)]
                  && x.rotations == s.rotations && x.events == s.events && x.detections == s.detections && x.outbox == s.outbox)
  {
    hide Identifier, Blank;
  }

  // ---------------------------------------------------------------------------
  // Keys
  // ---------------------------------------------------------------------------

  /** What the action does to the tables. */
  lemma Recorded(c: Crypto, s: State, a: Action)
    requires Enabled(s, a)
    ensures var x := After(c, s, a);
            match a
            case Register(r) =>
              || x == s
              || (&& r.sourceID in x.sources && x == s.(sources := s.sources[r.sourceID := x.sources[r.sourceID]])
                  && x.sources[r.sourceID].key == r.key && x.sources[r.sourceID].active == r.active
                  && if r.sourceID in s.sources then r.key == s.sources[r.sourceID].key && x.sources[r.sourceID].fingerprint == s.sources[r.sourceID].fingerprint
                     else x.sources[r.sourceID].fingerprint == c.digest(r.key))
            case Rotate(r, _) =>
              || x == s
              || (&& r.sourceID in s.sources && s.sources[r.sourceID].active
                  && x == s.(rotations := x.rotations, sources := s.sources[r.sourceID := s.sources[r.sourceID].(key := r.newKey, fingerprint := c.digest(r.newKey))]))
            case Revoke(r, _) =>
              || x == s
              || (&& r.sourceID in s.sources
                  && x == s.(sources := s.sources[r.sourceID := s.sources[r.sourceID].(active := false)], revocations := x.revocations))
            case Admit(_, _, _) => x == s.(events := x.events) && forall id :: id in s.events ==> id in x.events && x.events[id] == s.events[id]
            case Detect(_, _, _, _) =>
              && x == s.(detections := x.detections, outbox := x.outbox) && s.outbox <= x.outbox
              && forall id :: id in s.detections ==> id in x.detections && x.detections[id] == s.detections[id]
  {
    match a
    case Register(_) => RegistrationRecorded(c, s, a);
    case Rotate(_, _) => hide Identifier;
    case Revoke(_, _) => RevocationRecorded(c, s, a);
    case Admit(_, _, _) => EventRecorded(c, s, a);
    case Detect(_, _, _, _) => DetectionRecorded(c, s, a);
  }

  /** A source is never forgotten, and its key changes only by a rotation to the new key. */
  lemma KeyChangesByRotationOnly(c: Crypto, s: State, a: Action, id: string)
    requires Enabled(s, a) && id in s.sources
    ensures id in After(c, s, a).sources
    ensures After(c, s, a).sources[id].key != s.sources[id].key ==>
              a.Rotate? && a.rotation.sourceID == id && After(c, s, a).sources[id].key == a.rotation.newKey && s.sources[id].active
  {
    Recorded(c, s, a);
    hide After, Enabled;
  }

  /** A key under which an admission could succeed at that instant. */
  ghost predicate Acceptable(s: State, id: string, now: int, key: Bytes) {
    id in s.sources && s.sources[id].active && (
      || key == s.sources[id].key
      || exists at :: IsGrace(s, id, now, at) && s.rotations[at].key == key)
  }

  /** No two rotations of one source that took effect carry the same instant. */
  ghost predicate InstantsApart(run: Run) {
    forall i, j :: 0 <= i < j < |run.retired| && run.retired[i].sourceID == run.retired[j].sourceID ==> run.retired[i].at != run.retired[j].at
  }

  /** Every rotation row has the source, the fingerprint and the instant of a key that was rotated out. */
  ghost predicate RowRecorded(c: Crypto, run: Run, at: (string, string))
    requires at in run.state.rotations
  {
    exists i :: 0 <= i < |run.retired| && RecordedBy(c, run.retired[i], at, run.state.rotations[at].rotatedAt)
  }

  ghost predicate RecordedBy(c: Crypto, gone: Retired, at: (string, string), rotatedAt: int) {
    gone.sourceID == at.0 && c.digest(gone.key) == at.1 && gone.at == rotatedAt
  }

  ghost predicate RowsRecorded(c: Crypto, run: Run) {
    && (forall id :: id in run.state.sources ==> run.state.sources[id].fingerprint == c.digest(run.state.sources[id].key))
    && (forall at :: at in run.state.rotations ==> RowRecorded(c, run, at))
  }

  // Whatever is not a rotation keeps keys, fingerprints and rotation rows, but for a source that is new.
  lemma OtherActions(c: Crypto, s: State, a: Action)
    requires Enabled(s, a) && !a.Rotate?
    ensures var x := After(c, s, a);
            && x.rotations == s.rotations
            && forall id :: id in x.sources ==>
                 if id in s.sources then x.sources[id].key == s.sources[id].key && x.sources[id].fingerprint == s.sources[id].fingerprint
                 else x.sources[id].fingerprint == c.digest(x.sources[id].key)
  {
    Recorded(c, s, a);
    hide After, Enabled;
  }

  lemma RowsRecordedStep(c: Crypto, run: Run, a: Action)
    requires RowsRecorded(c, run) && Enabled(run.state, a)
    ensures RowsRecorded(c, Step(c, run, a))
  {
    var s, x := run.state, Step(c, run, a);
    if a.Rotate? {
      RotationRecorded(c, s, a);
    } else {
      OtherActions(c, s, a);
    }
    hide After;
    var at := if a.Rotate? && a.rotation.sourceID in s.sources then Some((a.rotation.sourceID, s.sources[a.rotation.sourceID].fingerprint)) else None;
    forall other | other in x.state.rotations ensures RowRecorded(c, x, other) {
      if other in s.rotations && x.state.rotations[other].rotatedAt == s.rotations[other].rotatedAt {
        assert RowRecorded(c, run, other);
        var i :| 0 <= i < |run.retired| && RecordedBy(c, run.retired[i], other, s.rotations[other].rotatedAt);
        assert x.retired[i] == run.retired[i];
      } else {
        assert RecordedBy(c, x.retired[|run.retired|], other, a.now);
      }
    }
  }

  lemma {:induction false} RunRecorded(c: Crypto, actions: seq<Action>)
    requires Legal(c, actions)
    ensures RowsRecorded(c, Exec(c, actions))
    decreases |actions|
  {
    if actions != [] {
      RunRecorded(c, actions[..|actions| - 1]);
      RowsRecordedStep(c, Exec(c, actions[..|actions| - 1]), actions[|actions| - 1]);
    }
  }

  /** Of two live keys that were rotated out at once, only one row is the newest. */
  lemma OneNewest(c: Crypto, run: Run, id: string, now: int, at: (string, string), other: (string, string))
    requires RowsRecorded(c, run) && InstantsApart(run) && IsGrace(run.state, id, now, at) && IsGrace(run.state, id, now, other)
    ensures at == other
  {
    assert RowRecorded(c, run, at) && RowRecorded(c, run, other);
    var i :| 0 <= i < |run.retired| && RecordedBy(c, run.retired[i], at, run.state.rotations[at].rotatedAt);
    var j :| 0 <= j < |run.retired| && RecordedBy(c, run.retired[j], other, run.state.rotations[other].rotatedAt);
    assert run.retired[i].at == run.retired[j].at;
    assert i == j;
  }

  /** At any instant at most two keys are acceptable for a source: of any three, two are the same. */
  lemma AtMostTwoKeys(c: Crypto, actions: seq<Action>, id: string, now: int, k1: Bytes, k2: Bytes, k3: Bytes)
    requires Legal(c, actions) && InstantsApart(Exec(c, actions))
    requires var s := Exec(c, actions).state; Acceptable(s, id, now, k1) && Acceptable(s, id, now, k2) && Acceptable(s, id, now, k3)
    ensures k1 == k2 || k2 == k3 || k1 == k3
  {
    RunRecorded(c, actions);
    var run := Exec(c, actions);
    forall at, other | IsGrace(run.state, id, now, at) && IsGrace(run.state, id, now, other) ensures at == other {
      OneNewest(c, run, id, now, at, other);
    }
  }

  /** Two keys of the source were rotated out at one instant, both other than the active key, and both outlive the grace of every key rotated out later. */
  ghost predicate Tie(s: State, id: string, a: (string, string), b: (string, string))
    requires id in s.sources
  {
    && a in s.rotations && b in s.rotations && a.0 == id && b.0 == id && a != b
    && s.rotations[a].rotatedAt == s.rotations[b].rotatedAt
    && s.rotations[a].key != s.sources[id].key && s.rotations[b].key != s.sources[id].key
    && forall later :: later in s.rotations && later.0 == id && s.rotations[later].rotatedAt > s.rotations[a].rotatedAt ==>
         s.rotations[later].graceUntil < s.rotations[a].graceUntil && s.rotations[later].graceUntil < s.rotations[b].graceUntil
  }

  ghost predicate ThreeKeys(s: State, id: string, now: int, k1: Bytes, k2: Bytes, k3: Bytes) {
    && Acceptable(s, id, now, k1) && Acceptable(s, id, now, k2) && Acceptable(s, id, now, k3)
    && k1 != k2 && k2 != k3 && k1 != k3
  }

  // Two acceptable keys that are not the active one tie.
  lemma GraceKeysTie(s: State, id: string, now: int, k1: Bytes, k2: Bytes) returns (a: (string, string), b: (string, string))
    requires Acceptable(s, id, now, k1) && Acceptable(s, id, now, k2) && k1 != k2
    requires k1 != s.sources[id].key && k2 != s.sources[id].key
    ensures Tie(s, id, a, b)
  {
    a :| IsGrace(s, id, now, a) && s.rotations[a].key == k1;
    b :| IsGrace(s, id, now, b) && s.rotations[b].key == k2;
  }

  // Just before the first of the two graces ends both keys of a tie are acceptable.
  lemma TieIsAcceptable(s: State, id: string, a: (string, string), b: (string, string)) returns (now: int)
    requires id in s.sources && s.sources[id].active && Tie(s, id, a, b)
    ensures Acceptable(s, id, now, s.rotations[a].key) && Acceptable(s, id, now, s.rotations[b].key) && Acceptable(s, id, now, s.sources[id].key)
  {
    var x, y := s.rotations[a].graceUntil, s.rotations[b].graceUntil;
    now := (if x < y then x else y) - 1;
    assert IsGrace(s, id, now, a) && IsGrace(s, id, now, b);
  }

  // The rows of one source in a reachable state have different keys.
  lemma RowsDiffer(c: Crypto, run: Run, a: (string, string), b: (string, string))
    requires Inv(c, run) && a in run.state.rotations && b in run.state.rotations && a.0 == b.0 && a != b
    ensures run.state.rotations[a].key != run.state.rotations[b].key
  {
    assert RotationRight(c, run, a) && RotationRight(c, run, b);
  }

  /**
    Exactly when at most two keys of an active source are acceptable at every instant: when no two of
    its keys other than the active one were rotated out at one instant such that both outlive the
    grace of every key rotated out later.
   */
  lemma AtMostTwoKeysExactly(c: Crypto, actions: seq<Action>, id: string)
    requires Injective(c) && Legal(c, actions)
    requires id in Exec(c, actions).state.sources && Exec(c, actions).state.sources[id].active
    ensures var s := Exec(c, actions).state;
            (forall now, k1, k2, k3 :: !ThreeKeys(s, id, now, k1, k2, k3)) <==> (forall a, b :: !Tie(s, id, a, b))
  {
    ReachableStates(c, actions);
    var run := Exec(c, actions);
    var s := run.state;
    hide Exec, Legal, Injective;
    if a, b :| Tie(s, id, a, b) {
      var now := TieIsAcceptable(s, id, a, b);
      RowsDiffer(c, run, a, b);
      assert ThreeKeys(s, id, now, s.rotations[a].key, s.rotations[b].key, s.sources[id].key);
    }
    if now, k1, k2, k3 :| ThreeKeys(s, id, now, k1, k2, k3) {
      var active := s.sources[id].key;
      var a, b := GraceKeysTie(s, id, now, if k1 == active then k2 else k1, if k1 == active || k2 == active then k3 else k2);
      assert Tie(s, id, a, b);
    }
  }

  /** Two rotations of one source at one instant make three keys acceptable. */
  lemma SimultaneousRotations(c: Crypto, k1: Bytes, k2: Bytes, k3: Bytes)
    requires |k1| == 32 && |k2| == 32 && |k3| == 32 && k1 != k2 && k2 != k3 && k1 != k3 && c.digest(k1) != c.digest(k2)
    ensures var actions := TwoRotations(k1, k2, k3);
            && Legal(c, actions)
            && var s := Exec(c, actions).state;
               Acceptable(s, "s", 1, k1) && Acceptable(s, "s", 1, k2) && Acceptable(s, "s", 1, k3)
  {
    var register, first, second := Register(Registration("s", "AIS", "a", k1, true)), RotateTo(k2), RotateTo(k3);
    assert Identifier("s") && Identifier("a");
    OneMore(c, [], register);
    OneMore(c, [register], first);
    OneMore(c, [register, first], second);
    assert [] + [register] == [register] && [register] + [first] == [register, first];
    assert [register, first] + [second] == TwoRotations(k1, k2, k3);
    var s := Exec(c, TwoRotations(k1, k2, k3)).state;
    assert IsGrace(s, "s", 1, ("s", c.digest(k1))) && IsGrace(s, "s", 1, ("s", c.digest(k2)));
  }

  function RotateTo(key: Bytes): Action {
    Rotate(RotationRequest("s", key, DAY, "a"), 1)
  }

  function TwoRotations(k1: Bytes, k2: Bytes, k3: Bytes): seq<Action> {
    [Register(Registration("s", "AIS", "a", k1, true)), RotateTo(k2), RotateTo(k3)]
  }

  /**
    An admission of either kind succeeds only under a key that verifies its signature and is the
    active key of the source, or was the active key until a rotation less than 30 days before.
   */
  lemma AdmittedUnderRecentKey(c: Crypto, actions: seq<Action>, a: Action) returns (key: Bytes)
    requires Injective(c) && Legal(c, actions) && Enabled(Exec(c, actions).state, a)
    requires ReceiptOf(c, Exec(c, actions).state, a).Some?
    ensures var run := Exec(c, actions);
            && c.verify(key, Preimage(c, a.r), a.r.signature)
            && InTime(a.r.claimedAt, a.clock.checked)
            && a.r.sourceID in run.state.sources && run.state.sources[a.r.sourceID].active
            && (|| key == run.state.sources[a.r.sourceID].key
                || exists i :: 0 <= i < |run.retired| && run.retired[i].sourceID == a.r.sourceID && run.retired[i].key == key
                     && a.clock.grace < run.retired[i].at + 2_592_000_000_000_000)
  {
    ReachableStates(c, actions);
    var run := Exec(c, actions);
    var s := run.state;
    assert Authorize(c, s, a.r, a.clock.checked, a.pick).None?;
    if c.verify(s.sources[a.r.sourceID].key, Preimage(c, a.r), a.r.signature) {
      key := s.sources[a.r.sourceID].key;
    } else {
      var at := a.pick.value;
      key := s.rotations[at].key;
      assert RotationRight(c, run, at);
    }
  }

  // Retired keys are what they say: the record of a rotation holds the key that was active before it.
  lemma {:induction false} RetiredByRotation(c: Crypto, actions: seq<Action>, i: nat) returns (k: nat)
    requires Legal(c, actions) && i < |Exec(c, actions).retired|
    ensures k < |actions| && actions[k].Rotate?
    ensures var gone, s := Exec(c, actions).retired[i], Exec(c, actions[..k]).state;
            && actions[k].now == gone.at && actions[k].rotation.sourceID == gone.sourceID
            && gone.sourceID in s.sources && s.sources[gone.sourceID].key == gone.key
    decreases |actions|
  {
    var front := actions[..|actions| - 1];
    if i < |Exec(c, front).retired| {
      k := RetiredByRotation(c, front, i);
      assert front[..k] == actions[..k] && front[k] == actions[k];
    } else {
      k := |actions| - 1;
    }
  }

  lemma ReceiptFingerprint(c: Crypto, s: State, a: Action)
    requires Enabled(s, a) && ReceiptOf(c, s, a).Some?
    ensures (a.Admit? || a.Detect?) && a.r.sourceID in s.sources
    ensures ReceiptOf(c, s, a).value.fingerprint == s.sources[a.r.sourceID].fingerprint
  {
    hide Identifier;
  }

  /** The receipt always names the active key, so it names a key that verified the signature only if that one did. */
  lemma ReceiptNamesActiveKey(c: Crypto, actions: seq<Action>, a: Action)
    requires Injective(c) && Legal(c, actions) && Enabled(Exec(c, actions).state, a)
    requires ReceiptOf(c, Exec(c, actions).state, a).Some?
    ensures var s := Exec(c, actions).state;
            && a.r.sourceID in s.sources
            && ((exists key :: ReceiptOf(c, s, a).value.fingerprint == c.digest(key) && c.verify(key, Preimage(c, a.r), a.r.signature)) <==>
                 c.verify(s.sources[a.r.sourceID].key, Preimage(c, a.r), a.r.signature))
  {
    hide ReceiptOf, Exec, Legal, Enabled;
    RunRecorded(c, actions);
    ReceiptFingerprint(c, Exec(c, actions).state, a);
    var key := Exec(c, actions).state.sources[a.r.sourceID].key;
    assert ReceiptOf(c, Exec(c, actions).state, a).value.fingerprint == c.digest(key);
  }

  lemma RegisteredFirst(c: Crypto, k1: Bytes)
    requires |k1| == 32
    ensures After(c, EMPTY, Register(Registration("s", "AIS", "a", k1, true))) == EMPTY.(sources := map["s" := Source("AIS", "a", k1, c.digest(k1), true)])
  {
    assert Identifier("s") && Identifier("a");
  }

  lemma RotatedThen(c: Crypto, s: State, k1: Bytes, k2: Bytes)
    requires |k2| == 32 && k1 != k2 && s == EMPTY.(sources := map["s" := Source("AIS", "a", k1, c.digest(k1), true)])
    ensures var x := After(c, s, RotateTo(k2));
            && x.sources == map["s" := Source("AIS", "a", k2, c.digest(k2), true)]
            && x.rotations == map[("s", c.digest(k1)) := Rotation(k1, DAY, "a", 1)]
            && x.events == map[]
  {
    assert Identifier("s") && Identifier("a");
    assert s.rotations == map[];
  }

  lemma OneRotation(c: Crypto, k1: Bytes, k2: Bytes)
    requires |k1| == 32 && |k2| == 32 && k1 != k2
    ensures var actions := [Register(Registration("s", "AIS", "a", k1, true)), RotateTo(k2)];
            && Legal(c, actions)
            && var s := Exec(c, actions).state;
               && s.sources == map["s" := Source("AIS", "a", k2, c.digest(k2), true)]
               && s.rotations == map[("s", c.digest(k1)) := Rotation(k1, DAY, "a", 1)]
               && s.events == map[]
  {
    hide After;
    var register, rotate := Register(Registration("s", "AIS", "a", k1, true)), RotateTo(k2);
    RegisteredFirst(c, k1);
    RotatedThen(c, After(c, EMPTY, register), k1, k2);
    OneMore(c, [], register);
    assert [] + [register] == [register] && [register] + [rotate] == [register, rotate];
    OneMore(c, [register], rotate);
  }

  lemma AdmittedInGrace(c: Crypto, s: State, k1: Bytes, k2: Bytes, r: Admission, clock: Clock)
    requires s.sources == map["s" := Source("AIS", "a", k2, c.digest(k2), true)]
    requires s.rotations == map[("s", c.digest(k1)) := Rotation(k1, DAY, "a", 1)] && s.events == map[]
    requires r.sourceID == "s" && r.Validate(FEED_LIMIT) && Fresh(r.claimedAt, clock.checked) && clock.grace < DAY
    requires c.verify(k1, Preimage(c, r), r.signature)
    ensures var admit := Admit(r, clock, Some(("s", c.digest(k1))));
            && Enabled(s, admit) && ReceiptOf(c, s, admit).Some? && ReceiptOf(c, s, admit).value.fingerprint == c.digest(k2)
  {
    hide Fresh, Identifier, Preimage;
    assert Authorize(c, s, r, clock.checked, Some(("s", c.digest(k1)))).None?;
  }

  /** An event signed with the key rotated out just before is admitted, and its receipt names a key that does not verify it. */
  lemma GraceReceiptMisleads(c: Crypto, k1: Bytes, k2: Bytes, r: Admission, clock: Clock)
    requires Injective(c) && |k1| == 32 && |k2| == 32 && k1 != k2
    requires r.sourceID == "s" && r.Validate(FEED_LIMIT) && Fresh(r.claimedAt, clock.checked) && clock.grace < DAY
    requires c.verify(k1, Preimage(c, r), r.signature) && !c.verify(k2, Preimage(c, r), r.signature)
    ensures var actions := [Register(Registration("s", "AIS", "a", k1, true)), RotateTo(k2)];
            var admit := Admit(r, clock, Some(("s", c.digest(k1))));
            && Legal(c, actions) && Enabled(Exec(c, actions).state, admit)
            && var receipt := ReceiptOf(c, Exec(c, actions).state, admit);
               && receipt.Some?
               && forall key :: receipt.value.fingerprint == c.digest(key) ==> !c.verify(key, Preimage(c, r), r.signature)
  {
    hide Exec, Legal, Preimage, ReceiptOf, Enabled;
    OneRotation(c, k1, k2);
    AdmittedInGrace(c, Exec(c, [Register(Registration("s", "AIS", "a", k1, true)), RotateTo(k2)]).state, k1, k2, r, clock);
  }

  // ---------------------------------------------------------------------------
  // Retained evidence
  // ---------------------------------------------------------------------------

  /** A retained event or detection never changes. */
  lemma EvidenceStays(c: Crypto, s: State, a: Action)
    requires Enabled(s, a)
    ensures forall id :: id in s.events ==> id in After(c, s, a).events && After(c, s, a).events[id] == s.events[id]
    ensures forall id :: id in s.detections ==> id in After(c, s, a).detections && After(c, s, a).detections[id] == s.detections[id]
    ensures s.outbox <= After(c, s, a).outbox
  {
    Recorded(c, s, a);
    hide After, Enabled;
  }

  /** The retained evidence of what an action admitted. */
  ghost function Evidence(s: State, a: Action): Option<Retained>
    requires a.Admit? || a.Detect?
  {
    var id := (a.r.sourceID, a.r.sourceEventID);
    if a.Admit? then if id in s.events then Some(s.events[id]) else None
    else if id in s.detections then Some(s.detections[id].retained) else None
  }

  lemma AdmittedAsRetained(c: Crypto, s: State, a: Action)
    requires Enabled(s, a) && ReceiptOf(c, s, a).Some?
    ensures var x, receipt := After(c, s, a), ReceiptOf(c, s, a).value;
            && receipt.digest == "sha256:" + c.digest(a.r.payload)
            && Evidence(x, a) == Some(Retained(receipt.digest, a.r.signature, receipt.receivedAt))
  {
  }

  lemma {:induction false} EvidenceLasts(c: Crypto, actions: seq<Action>, i: nat, j: nat, a: Action)
    requires Legal(c, actions) && i <= j <= |actions| && (a.Admit? || a.Detect?)
    requires Evidence(Exec(c, actions[..i]).state, a).Some?
    ensures Evidence(Exec(c, actions[..j]).state, a) == Evidence(Exec(c, actions[..i]).state, a)
    decreases j
  {
    if i < j {
      EvidenceLasts(c, actions, i, j - 1, a);
      OneStep(c, actions, j - 1);
      EvidenceStays(c, Exec(c, actions[..j - 1]).state, actions[j - 1]);
    }
  }

  lemma {:induction false} PrefixLegal(c: Crypto, actions: seq<Action>, k: nat)
    requires Legal(c, actions) && k <= |actions|
    ensures Legal(c, actions[..k])
    decreases |actions|
  {
    if k < |actions| {
      PrefixLegal(c, actions[..|actions| - 1], k);
      assert actions[..|actions| - 1][..k] == actions[..k];
    } else {
      assert actions[..k] == actions;
    }
  }

  lemma OneStep(c: Crypto, actions: seq<Action>, k: nat)
    requires Legal(c, actions) && k < |actions|
    ensures Enabled(Exec(c, actions[..k]).state, actions[k])
    ensures Exec(c, actions[..k + 1]) == Step(c, Exec(c, actions[..k]), actions[k])
  {
    PrefixLegal(c, actions, k + 1);
    assert actions[..k + 1][..k] == actions[..k];
  }

  /**
    Idempotent admission: of two successful admissions of one source event, the later one carries the
    same payload and signature as the first and is answered with the first one's receipt time.
   */
  lemma AdmissionIsIdempotent(c: Crypto, actions: seq<Action>, i: nat, j: nat)
    requires Injective(c) && Legal(c, actions) && i < j < |actions|
    requires var a, b := actions[i], actions[j];
             && ((a.Admit? && b.Admit?) || (a.Detect? && b.Detect?))
             && a.r.sourceID == b.r.sourceID && a.r.sourceEventID == b.r.sourceEventID
             && Enabled(Exec(c, actions[..i]).state, a) && ReceiptOf(c, Exec(c, actions[..i]).state, a).Some?
             && Enabled(Exec(c, actions[..j]).state, b) && ReceiptOf(c, Exec(c, actions[..j]).state, b).Some?
    ensures var a, b := actions[i], actions[j];
            && b.r.payload == a.r.payload && b.r.signature == a.r.signature
            && ReceiptOf(c, Exec(c, actions[..j]).state, b).value.receivedAt == ReceiptOf(c, Exec(c, actions[..i]).state, a).value.receivedAt
  {
    hide After, ReceiptOf, Enabled, Legal, Injective;
    var a, b := actions[i], actions[j];
    OneStep(c, actions, i);
    AdmittedAsRetained(c, Exec(c, actions[..i]).state, a);
    EvidenceLasts(c, actions, i + 1, j + 1, a);
    OneStep(c, actions, j);
    AdmittedAsRetained(c, Exec(c, actions[..j]).state, b);
    var digest, digest' := c.digest(a.r.payload), c.digest(b.r.payload);
    assert ("sha256:" + digest)[7..] == digest && ("sha256:" + digest')[7..] == digest';
    SameDigest(c, a.r.payload, b.r.payload);
  }

  lemma SameDigest(c: Crypto, a: Bytes, b: Bytes)
    requires Injective(c)
    ensures c.digest(a) == c.digest(b) ==> a == b
  {
  }

  /** One captured request can be admitted only within the replay window and the clock skew. */
  lemma ReplayIsBounded(c: Crypto, s: State, x: State, a: Action, b: Action)
    requires Enabled(s, a) && ReceiptOf(c, s, a).Some? && Enabled(x, b) && ReceiptOf(c, x, b).Some?
    requires a.r.claimedAt == b.r.claimedAt
    ensures a.clock.checked - b.clock.checked <= 86_700_000_000_000
  {
  }

  // ---------------------------------------------------------------------------
  // The signed text
  // ---------------------------------------------------------------------------

  predicate OneLine(s: string) {
    '\n' !in s
  }

  lemma SplitsAtLine(a: string, x: string, b: string, y: string)
    requires OneLine(a) && OneLine(b) && a + "\n" + x == b + "\n" + y
    ensures a == b && x == y
  {
    var s := a + "\n" + x;
    assert s[|a|] == '\n' && s[|b|] == '\n';
    assert s[..|a|] == a && s[..|b|] == b;
    assert (forall i :: 0 <= i < |a| ==> a[i] == s[i]) && (forall i :: 0 <= i < |b| ==> b[i] == s[i]);
    assert |a| == |b|;
    assert x == s[|a| + 1..] && y == s[|b| + 1..];
  }

  lemma IdentifierIsOneLine(s: string)
    requires Identifier(s)
    ensures OneLine(s)
  {
  }

  /** A signature binds the source, the event, the claimed time and the payload, and nothing can shift between them. */
  lemma PreimageBinds(c: Crypto, a: Admission, b: Admission)
    requires Injective(c) && (forall t :: OneLine(c.stamp(t))) && (forall t, u :: c.stamp(t) == c.stamp(u) ==> t == u)
    requires Identifier(a.sourceID) && Identifier(a.sourceEventID) && Identifier(b.sourceID) && Identifier(b.sourceEventID)
    requires Preimage(c, a) == Preimage(c, b)
    ensures a == b.(signature := a.signature)
  {
    IdentifierIsOneLine(a.sourceID);
    IdentifierIsOneLine(a.sourceEventID);
    IdentifierIsOneLine(b.sourceID);
    IdentifierIsOneLine(b.sourceEventID);
    var d, e := "sha256:" + c.digest(a.payload), "sha256:" + c.digest(b.payload);
    var ta, tb := c.stamp(a.claimedAt), c.stamp(b.claimedAt);
    Preimages(c, a, ta, d);
    Preimages(c, b, tb, e);
    SplitsAtLine(a.sourceID, a.sourceEventID + "\n" + (ta + "\n" + d), b.sourceID, b.sourceEventID + "\n" + (tb + "\n" + e));
    SplitsAtLine(a.sourceEventID, ta + "\n" + d, b.sourceEventID, tb + "\n" + e);
    SplitsAtLine(ta, d, tb, e);
    assert d[7..] == c.digest(a.payload) && e[7..] == c.digest(b.payload);
  }

  lemma Preimages(c: Crypto, r: Admission, stamp: string, digest: string)
    requires stamp == c.stamp(r.claimedAt) && digest == "sha256:" + c.digest(r.payload)
    ensures Preimage(c, r) == r.sourceID + "\n" + (r.sourceEventID + "\n" + (stamp + "\n" + digest))
  {
    assert stamp + "\nsha256:" + c.digest(r.payload) == stamp + "\n" + digest;
  }

  // ---------------------------------------------------------------------------
  // Revocation
  // ---------------------------------------------------------------------------

  /** A successful revocation leaves the source inactive exactly unless it was active with a revocation already on record. */
  lemma RevocationExactly(s: State, r: RevocationRequest, now: int)
    requires Revoked(s, r, now).0.Ok?
    ensures var x := Revoked(s, r, now).1;
            && r.sourceID in x.sources && r.sourceID in x.revocations
            && (!x.sources[r.sourceID].active <==> !(r.sourceID in s.revocations && s.sources[r.sourceID].active))
  {
  }

  /** An inactive source becomes active again only by registering it once more under its present key. */
  lemma ReactivationByRefreshOnly(c: Crypto, s: State, a: Action, id: string)
    requires Enabled(s, a) && id in s.sources && !s.sources[id].active && After(c, s, a).sources[id].active
    ensures a.Register? && a.registration.sourceID == id && a.registration.active && a.registration.key == s.sources[id].key
  {
    Recorded(c, s, a);
    hide After, Enabled;
  }

  /** So a revoked source that was refreshed to active stays active when the same revocation is sent again. */
  lemma SecondRevocationDoesNothing(c: Crypto, key: Bytes)
    requires |key| == 32
    ensures var registration := Registration("s", "AIS", "a", key, true);
            var revocation := RevocationRequest("s", "r", "b");
            var actions := [Register(registration), Revoke(revocation, 1), Register(registration)];
            && Legal(c, actions)
            && var s := Exec(c, actions).state;
               Revoked(s, revocation, 2) == (Ok(()), s) && "s" in s.sources && s.sources["s"].active
  {
    var registration := Registration("s", "AIS", "a", key, true);
    var revocation := RevocationRequest("s", "r", "b");
    assert !IsSpace("r"[0]);
    assert registration.Validate() && revocation.Validate();
    OneMore(c, [], Register(registration));
    OneMore(c, [Register(registration)], Revoke(revocation, 1));
    OneMore(c, [Register(registration), Revoke(revocation, 1)], Register(registration));
    assert [] + [Register(registration)] == [Register(registration)];
    assert [Register(registration)] + [Revoke(revocation, 1)] == [Register(registration), Revoke(revocation, 1)];
    assert [Register(registration), Revoke(revocation, 1)] + [Register(registration)]
        == [Register(registration), Revoke(revocation, 1), Register(registration)];
  }

  lemma OneMore(c: Crypto, actions: seq<Action>, a: Action)
    requires Legal(c, actions) && Enabled(Exec(c, actions).state, a)
    ensures Legal(c, actions + [a]) && Exec(c, actions + [a]) == Step(c, Exec(c, actions), a)
  {
    assert (actions + [a])[..|actions|] == actions;
  }
}
