/**
  Feed trust anchors and admissions: internal/incident/feed.go and AdmitDetection of
  internal/isr/store.go. Every method is one serializable transaction.
 */
module Feed {
  import opened Base
  import opened Classification

  type Bytes = seq<bv8>

  const DAY: int := 24 * 3600 * 1_000_000_000
  const REPLAY_WINDOW: int := DAY
  const CLOCK_SKEW: int := 5 * 60 * 1_000_000_000
  const MAX_GRACE: int := 30 * DAY

  // SHA-256 in hexadecimal, Ed25519 verification (key, message, signature) and the RFC 3339 text of a time.
  datatype Crypto = Crypto(digest: Bytes -> string, verify: (Bytes, string, Bytes) -> bool, stamp: int -> string)

  datatype Fault =
    | Invalid | KeyConflict | NotFound | Inactive | NoRevocationEvidence | SameKey | Stale | BadSignature
    | IdempotencyConflict | DuplicateEventID

  // ---------------------------------------------------------------------------
  // Tables
  // ---------------------------------------------------------------------------

  datatype Source = Source(kind: string, authority: string, key: Bytes, fingerprint: string, active: bool)

  datatype Rotation = Rotation(key: Bytes, graceUntil: int, rotatedBy: string, rotatedAt: int)

  datatype Revocation = Revocation(reason: string, revokedBy: string, revokedAt: int)

  datatype Retained = Retained(digest: string, signature: Bytes, receivedAt: int)

  // The part of a detection that admission looks at; fieldsValid stands for its field-by-field checks.
  datatype Payload = Payload(
    eventID: string, sourceID: string, sourceEventID: string, level: Label, mmsi: string, modality: string,
    observedAt: int, fieldsValid: bool)

  // A row of maritime_isr_events: the label column beside the payload it was taken from.
  datatype DetectionRow = DetectionRow(column: Label, mmsi: Option<string>, payload: Payload, retained: Retained)

  // An outbox row of an admitted detection.
  datatype Notice = Notice(aggregateKey: string, column: Label, receivedAt: int)

  // Keyed by (source, event) and (source, fingerprint of the prior key).
  datatype State = State(
    sources: map<string, Source>, rotations: map<(string, string), Rotation>, revocations: map<string, Revocation>,
    events: map<(string, string), Retained>, detections: map<(string, string), DetectionRow>, outbox: seq<Notice>)

  const EMPTY := State(map[], map[], map[], map[], map[], [])

  // ---------------------------------------------------------------------------
  // Requests
  // ---------------------------------------------------------------------------

  datatype Registration = Registration(sourceID: string, kind: string, authority: string, key: Bytes, active: bool)
  {
    predicate Validate() {
      && Identifier(sourceID) && Identifier(authority) && |key| == 32
      && kind in {"AIS", "VTS", "RADAR", "PORT", "AGENCY", "SAR", "RF", "ACOUSTIC", "OPTICAL"}
    }
  }

  datatype RotationRequest = RotationRequest(sourceID: string, newKey: Bytes, graceUntil: int, rotatedBy: string)
  {
    predicate Validate(now: int) {
      && Identifier(sourceID) && Identifier(rotatedBy) && |newKey| == 32
      && now < graceUntil <= now + MAX_GRACE
    }
  }

  datatype RevocationRequest = RevocationRequest(sourceID: string, reason: string, revokedBy: string)
  {
    predicate Validate() {
      Identifier(sourceID) && Identifier(revokedBy) && !Blank(reason) && |reason| <= 512
    }
  }

  datatype Admission = Admission(sourceID: string, sourceEventID: string, claimedAt: int, payload: Bytes, signature: Bytes)
  {
    predicate Validate(limit: int) {
      && Identifier(sourceID) && Identifier(sourceEventID)
      && 0 < |payload| <= limit && |signature| == 64 && claimedAt != 0
    }
  }

  const FEED_LIMIT := 0x80_0000
  const DETECTION_LIMIT := 0x10_0000

  // The instants a call reads from its clock, in order.
  datatype Clock = Clock(checked: int, grace: int, received: int)

  /** ValidateFeedFreshness */
  predicate Fresh(claimedAt: int, now: int) {
    claimedAt != 0 && !(claimedAt < now - REPLAY_WINDOW) && !(claimedAt > now + CLOCK_SKEW)
  }

  function Preimage(c: Crypto, r: Admission): string {
    r.sourceID + "\n" + r.sourceEventID + "\n" + c.stamp(r.claimedAt) + "\nsha256:" + c.digest(r.payload)
  }

  // ---------------------------------------------------------------------------
  // What each transaction does
  // ---------------------------------------------------------------------------

  type Outcome<T> = (Result<T, Fault>, State)

  function Registered(c: Crypto, s: State, r: Registration): Outcome<()> {
    if !r.Validate() then (Err(Invalid), s)
    else if r.sourceID !in s.sources then
      (Ok(()), s.(sources := s.sources[r.sourceID := Source(r.kind, r.authority, r.key, c.digest(r.key), r.active)]))
    else if s.sources[r.sourceID].key != r.key then (Err(KeyConflict), s)
    else
      (Ok(()), s.(sources := s.sources[r.sourceID := s.sources[r.sourceID].(kind := r.kind, authority := r.authority, active := r.active)]))
  }

  function Rotated(c: Crypto, s: State, r: RotationRequest, now: int): Outcome<()> {
    if !r.Validate(now) then (Err(Invalid), s)
    else if r.sourceID !in s.sources then (Err(NotFound), s)
    else
      var prior := s.sources[r.sourceID];
      if !prior.active then (Err(Inactive), s)
      else if prior.key == r.newKey then (Err(SameKey), s)
      else
        var at := (r.sourceID, prior.fingerprint);
        // ON CONFLICT keeps the key column of the row that is there.
        var kept := if at in s.rotations then s.rotations[at].key else prior.key;
        (Ok(()), s.(
          rotations := s.rotations[at := Rotation(kept, r.graceUntil, r.rotatedBy, now)],
          sources := s.sources[r.sourceID := prior.(key := r.newKey, fingerprint := c.digest(r.newKey))]))
  }

  function Revoked(s: State, r: RevocationRequest, now: int): Outcome<()> {
    if !r.Validate() then (Err(Invalid), s)
    else if r.sourceID !in s.sources then (Err(NotFound), s)
    else if r.sourceID in s.revocations then
      if s.revocations[r.sourceID].reason != r.reason || s.revocations[r.sourceID].revokedBy != r.revokedBy
      then (Err(IdempotencyConflict), s) else (Ok(()), s)
    else if !s.sources[r.sourceID].active then (Err(NoRevocationEvidence), s)
    else
      (Ok(()), s.(
        sources := s.sources[r.sourceID := s.sources[r.sourceID].(active := false)],
        revocations := s.revocations[r.sourceID := Revocation(r.reason, r.revokedBy, now)]))
  }

  /** A rotated-out key of the source still in its grace, when none was rotated out later. */
  ghost predicate IsGrace(s: State, sourceID: string, now: int, at: (string, string)) {
    && at in s.rotations && at.0 == sourceID && s.rotations[at].graceUntil > now
    && forall other :: other in s.rotations && other.0 == sourceID && s.rotations[other].graceUntil > now ==>
         s.rotations[other].rotatedAt <= s.rotations[at].rotatedAt
  }

  /** The row ORDER BY rotated_at DESC LIMIT 1 yields; equal times leave the choice open. */
  ghost predicate GracePick(s: State, sourceID: string, now: int, pick: Option<(string, string)>) {
    match pick
    case Some(at) => IsGrace(s, sourceID, now, at)
    case None => forall at :: at in s.rotations && at.0 == sourceID ==> s.rotations[at].graceUntil <= now
  }

  /** The signature is by the active key or, failing that, by the grace key. */
  predicate Signed(c: Crypto, s: State, r: Admission, pick: Option<(string, string)>)
    requires r.sourceID in s.sources && (pick.Some? ==> pick.value in s.rotations)
  {
    || c.verify(s.sources[r.sourceID].key, Preimage(c, r), r.signature)
    || (pick.Some? && c.verify(s.rotations[pick.value].key, Preimage(c, r), r.signature))
  }

  /** What both admissions check before they look at their own table. */
  function Authorize(c: Crypto, s: State, r: Admission, now: int, pick: Option<(string, string)>): Option<Fault>
    requires pick.Some? ==> pick.value in s.rotations
  {
    if r.sourceID !in s.sources then Some(NotFound)
    else if !s.sources[r.sourceID].active then Some(Inactive)
    else if !Fresh(r.claimedAt, now) then Some(Stale)
    else if !Signed(c, s, r, pick) then Some(BadSignature)
    else None
  }

  datatype Receipt = Receipt(digest: string, fingerprint: string, receivedAt: int, replayed: bool)

  function Admitted(c: Crypto, s: State, r: Admission, clock: Clock, pick: Option<(string, string)>): Outcome<Receipt>
    requires pick.Some? ==> pick.value in s.rotations
  {
    if !r.Validate(FEED_LIMIT) then (Err(Invalid), s)
    else if Authorize(c, s, r, clock.checked, pick).Some? then (Err(Authorize(c, s, r, clock.checked, pick).value), s)
    else
      var id, digest, fingerprint := (r.sourceID, r.sourceEventID), "sha256:" + c.digest(r.payload), s.sources[r.sourceID].fingerprint;
      if id !in s.events then
        (Ok(Receipt(digest, fingerprint, clock.received, false)), s.(events := s.events[id := Retained(digest, r.signature, clock.received)]))
      else if s.events[id].digest != digest || s.events[id].signature != r.signature then (Err(IdempotencyConflict), s)
      else (Ok(Receipt(digest, fingerprint, s.events[id].receivedAt, true)), s)
  }

  // DecodeDetection and Detection.Validate succeed, and the detection names the request's event.
  predicate Bound(r: Admission, decoded: Option<Payload>) {
    && decoded.Some? && decoded.value.fieldsValid && Known(decoded.value.level)
    && decoded.value.sourceID == r.sourceID && decoded.value.sourceEventID == r.sourceEventID
  }

  /** event_id is a primary key of its own. */
  predicate EventIDTaken(s: State, eventID: string) {
    exists id :: id in s.detections && s.detections[id].payload.eventID == eventID
  }

  function Detected(
      c: Crypto, s: State, r: Admission, decoded: Option<Payload>, clock: Clock, pick: Option<(string, string)>)
    : Outcome<Receipt>
    requires pick.Some? ==> pick.value in s.rotations
  {
    if !r.Validate(DETECTION_LIMIT) || !Bound(r, decoded) then (Err(Invalid), s)
    else if Authorize(c, s, r, clock.checked, pick).Some? then (Err(Authorize(c, s, r, clock.checked, pick).value), s)
    else
      var id, d := (r.sourceID, r.sourceEventID), decoded.value;
      var digest, fingerprint := "sha256:" + c.digest(r.payload), s.sources[r.sourceID].fingerprint;
      if id in s.detections then
        var kept := s.detections[id];
        if kept.retained.digest != digest || kept.retained.signature != r.signature || kept.payload.eventID != d.eventID
        then (Err(IdempotencyConflict), s)
        else (Ok(Receipt(digest, fingerprint, kept.retained.receivedAt, true)), s)
      else if EventIDTaken(s, d.eventID) then (Err(DuplicateEventID), s)
      else
        var row := DetectionRow(d.level, if d.mmsi == "" then None else Some(d.mmsi), d, Retained(digest, r.signature, clock.received));
        (Ok(Receipt(digest, fingerprint, clock.received, false)), s.(
          detections := s.detections[id := row], outbox := s.outbox + [Notice(d.eventID, d.level, clock.received)]))
  }

  // ---------------------------------------------------------------------------
  // The stores
  // ---------------------------------------------------------------------------

  /** bytesEqual: compares without stopping at the first difference. */
  method BytesEqual(a: Bytes, b: Bytes) returns (same: bool)
    ensures same <==> a == b
  {
    if |a| != |b| {
      return false;
    }
    var diff: bv8 := 0;
    for i := 0 to |a|
      invariant diff == 0 <==> a[..i] == b[..i]
    {
      OrXor(diff, a[i], b[i]);
      assert a[..i + 1] == a[..i] + [a[i]] && b[..i + 1] == b[..i] + [b[i]];
      diff := diff | (a[i] ^ b[i]);
    }
    assert a[..|a|] == a && b[..|a|] == b;
    return diff == 0;
  }

  lemma OrXor(diff: bv8, x: bv8, y: bv8)
    ensures diff | (x ^ y) == 0 <==> diff == 0 && x == y
  {
    assert x ^ y == 0 <==> x == y;
  }

  class Store {
    const crypto: Crypto
    var sources: map<string, Source>
    var rotations: map<(string, string), Rotation>
    var revocations: map<string, Revocation>
    var events: map<(string, string), Retained>
    var detections: map<(string, string), DetectionRow>
    var outbox: seq<Notice>

    constructor (crypto: Crypto)
      ensures this.crypto == crypto && View() == EMPTY
    {
      this.crypto := crypto;
      sources, rotations, revocations, events, detections, outbox := map[], map[], map[], map[], map[], [];
    }

    function View(): State
      reads this
    {
      State(sources, rotations, revocations, events, detections, outbox)
    }

    method RegisterFeedSource(r: Registration) returns (done: Result<(), Fault>)
      modifies this
      ensures (done, View()) == Registered(crypto, old(View()), r)
    {
      if !r.Validate() {
        return Err(Invalid);
      }
      if r.sourceID !in sources {
        sources := sources[r.sourceID := Source(r.kind, r.authority, r.key, crypto.digest(r.key), r.active)];
        return Ok(());
      }
      var kept := sources[r.sourceID];
      if kept.key != r.key {
        return Err(KeyConflict);
      }
      if kept.kind != r.kind || kept.authority != r.authority || kept.active != r.active {
        sources := sources[r.sourceID := kept.(kind := r.kind, authority := r.authority, active := r.active)];
      } else {
        assert sources[r.sourceID := kept] == sources;
      }
      return Ok(());
    }

    method RotateFeedSourceKey(r: RotationRequest, now: int) returns (done: Result<(), Fault>)
      modifies this
      ensures (done, View()) == Rotated(crypto, old(View()), r, now)
    {
      if !r.Validate(now) {
        return Err(Invalid);
      }
      if r.sourceID !in sources {
        return Err(NotFound);
      }
      var prior := sources[r.sourceID];
      if !prior.active {
        return Err(Inactive);
      }
      if prior.key == r.newKey {
        return Err(SameKey);
      }
      var at := (r.sourceID, prior.fingerprint);
      if at in rotations {
        rotations := rotations[at := rotations[at].(graceUntil := r.graceUntil, rotatedBy := r.rotatedBy, rotatedAt := now)];
      } else {
        rotations := rotations[at := Rotation(prior.key, r.graceUntil, r.rotatedBy, now)];
      }
      sources := sources[r.sourceID := prior.(key := r.newKey, fingerprint := crypto.digest(r.newKey))];
      return Ok(());
    }

    method RevokeFeedSource(r: RevocationRequest, now: int) returns (done: Result<(), Fault>)
      modifies this
      ensures (done, View()) == Revoked(old(View()), r, now)
    {
      if !r.Validate() {
        return Err(Invalid);
      }
      if r.sourceID !in sources {
        return Err(NotFound);
      }
      if r.sourceID in revocations {
        if revocations[r.sourceID].reason != r.reason || revocations[r.sourceID].revokedBy != r.revokedBy {
          return Err(IdempotencyConflict);
        }
        return Ok(());
      }
      if !sources[r.sourceID].active {
        return Err(NoRevocationEvidence);
      }
      sources := sources[r.sourceID := sources[r.sourceID].(active := false)];
      revocations := revocations[r.sourceID := Revocation(r.reason, r.revokedBy, now)];
      return Ok(());
    }

    // SELECT ... WHERE source_id AND grace_until > now ORDER BY rotated_at DESC LIMIT 1
    method SelectGrace(sourceID: string, now: int) returns (pick: Option<(string, string)>)
      ensures GracePick(View(), sourceID, now, pick)
    {
      pick := None;
      var left := rotations.Keys;
      while left != {}
        invariant left <= rotations.Keys
        invariant pick.Some? ==> pick.value in rotations && pick.value.0 == sourceID && rotations[pick.value].graceUntil > now
        invariant forall at :: at in rotations && at !in left && at.0 == sourceID && rotations[at].graceUntil > now ==>
                    pick.Some? && rotations[at].rotatedAt <= rotations[pick.value].rotatedAt
        decreases |left|
      {
        var at :| at in left;
        left := left - {at};
        if at.0 == sourceID && rotations[at].graceUntil > now
           && (pick.None? || rotations[pick.value].rotatedAt < rotations[at].rotatedAt) {
          pick := Some(at);
        }
      }
    }

    // Source lookup, freshness and signature: the grace key is looked up only when the active key does not verify.
    method CheckAuthorization(r: Admission, now: int, graceNow: int)
      returns (fault: Option<Fault>, ghost pick: Option<(string, string)>)
      ensures GracePick(View(), r.sourceID, graceNow, pick) && fault == Authorize(crypto, View(), r, now, pick)
    {
      var grace := SelectGrace(r.sourceID, graceNow);
      pick := grace;
      if r.sourceID !in sources {
        return Some(NotFound), pick;
      }
      if !sources[r.sourceID].active {
        return Some(Inactive), pick;
      }
      if !Fresh(r.claimedAt, now) {
        return Some(Stale), pick;
      }
      var signingBytes := Preimage(crypto, r);
      if !crypto.verify(sources[r.sourceID].key, signingBytes, r.signature) {
        if grace.None? || !crypto.verify(rotations[grace.value].key, signingBytes, r.signature) {
          return Some(BadSignature), pick;
        }
      }
      return None, pick;
    }

    method AdmitFeedEvent(r: Admission, clock: Clock) returns (done: Result<Receipt, Fault>, ghost pick: Option<(string, string)>)
      modifies this
      ensures if r.Validate(FEED_LIMIT) then GracePick(old(View()), r.sourceID, clock.grace, pick) else pick == None
      ensures (done, View()) == Admitted(crypto, old(View()), r, clock, pick)
    {
      if !r.Validate(FEED_LIMIT) {
        return Err(Invalid), None;
      }
      var fault;
      fault, pick := CheckAuthorization(r, clock.checked, clock.grace);
      if fault.Some? {
        return Err(fault.value), pick;
      }
      var id, digest, fingerprint := (r.sourceID, r.sourceEventID), "sha256:" + crypto.digest(r.payload), sources[r.sourceID].fingerprint;
      if id !in events {
        events := events[id := Retained(digest, r.signature, clock.received)];
        return Ok(Receipt(digest, fingerprint, clock.received, false)), pick;
      }
      if events[id].digest != digest || events[id].signature != r.signature {
        return Err(IdempotencyConflict), pick;
      }
      return Ok(Receipt(digest, fingerprint, events[id].receivedAt, true)), pick;
    }

    method IDTaken(eventID: string) returns (taken: bool)
      ensures taken == EventIDTaken(View(), eventID)
    {
      var left := detections.Keys;
      while left != {}
        invariant left <= detections.Keys
        invariant forall id :: id in detections && id !in left ==> detections[id].payload.eventID != eventID
        decreases |left|
      {
        var id :| id in left;
        left := left - {id};
        if detections[id].payload.eventID == eventID {
          return true;
        }
      }
      return false;
    }

    method AdmitDetection(r: Admission, decoded: Option<Payload>, clock: Clock)
      returns (done: Result<Receipt, Fault>, ghost pick: Option<(string, string)>)
      modifies this
      ensures if r.Validate(DETECTION_LIMIT) && Bound(r, decoded) then GracePick(old(View()), r.sourceID, clock.grace, pick) else pick == None
      ensures (done, View()) == Detected(crypto, old(View()), r, decoded, clock, pick)
    {
      if !r.Validate(DETECTION_LIMIT) || !Bound(r, decoded) {
        return Err(Invalid), None;
      }
      var fault;
      fault, pick := CheckAuthorization(r, clock.checked, clock.grace);
      if fault.Some? {
        return Err(fault.value), pick;
      }
      var id, d := (r.sourceID, r.sourceEventID), decoded.value;
      var digest, fingerprint := "sha256:" + crypto.digest(r.payload), sources[r.sourceID].fingerprint;
      if id in detections {
        var row := detections[id];
        var sameSignature := BytesEqual(row.retained.signature, r.signature);
        if row.retained.digest != digest || !sameSignature || row.payload.eventID != d.eventID {
          return Err(IdempotencyConflict), pick;
        }
        return Ok(Receipt(digest, fingerprint, row.retained.receivedAt, true)), pick;
      }
      var taken := IDTaken(d.eventID);
      if taken {
        return Err(DuplicateEventID), pick;
      }
      detections := detections[id :=
        DetectionRow(d.level, if d.mmsi == "" then None else Some(d.mmsi), d, Retained(digest, r.signature, clock.received))];
      outbox := outbox + [Notice(d.eventID, d.level, clock.received)];
      return Ok(Receipt(digest, fingerprint, clock.received, false)), pick;
    }
  }
}
