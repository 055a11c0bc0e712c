/**
  internal/incident/outbox.go and internal/isr/isr_outbox.go: the leased outbox table, and the worker
  of cmd/maritime-intelligence-outbox-publisher/main.go that delivers from it. Every statement or
  transaction is one atomic step on the rows.
 */
module Outbox {
  import opened Base

  // Nanoseconds. The database stamps claims with its own clock; the lease is measured by the worker's.
  const MAX_LEASE := 24 * 3600 * 1_000_000_000

  datatype Lease = Lease(at: int, holder: string)

  datatype Row = Row(
    createdAt: int, payload: string, published: Option<int>, availableAt: int,
    attempts: nat, claim: Option<Lease>, lastError: Option<string>)

  // The key is the event identity; identities compare as numbers.
  type Rows = map<nat, Row>

  // The two tables differ only in which worker identities their marks refuse.
  datatype Table = IncidentOutbox | IsrOutbox

  datatype Fault = InvalidWorker | InvalidLease | InvalidFailure | NonePending | NotOwner | SendFailed

  // ---------------------------------------------------------------------------
  // What each statement does to the rows
  // ---------------------------------------------------------------------------

  predicate Claimable(r: Row, dbNow: int, cutoff: int) {
    r.published.None? && r.availableAt <= dbNow && (r.claim.None? || r.claim.value.at < cutoff)
  }

  /** ORDER BY created_at, event_id */
  predicate Precedes(rows: Rows, e: nat, f: nat)
    requires e in rows && f in rows
  {
    rows[e].createdAt < rows[f].createdAt || (rows[e].createdAt == rows[f].createdAt && e < f)
  }

  predicate Candidate(rows: Rows, locked: set<nat>, dbNow: int, cutoff: int, e: nat) {
    e in rows && e !in locked && Claimable(rows[e], dbNow, cutoff)
  }

  /** The row the claim selects: the first claimable one that no other transaction has locked. */
  ghost predicate Selects(rows: Rows, locked: set<nat>, dbNow: int, cutoff: int, pick: Option<nat>) {
    match pick
    case None => forall e :: !Candidate(rows, locked, dbNow, cutoff, e)
    case Some(first) =>
      && Candidate(rows, locked, dbNow, cutoff, first)
      && forall e :: Candidate(rows, locked, dbNow, cutoff, e) && e != first ==> Precedes(rows, first, e)
  }

  function Claimed(rows: Rows, e: nat, worker: string, dbNow: int): Rows
    requires e in rows
  {
    rows[e := rows[e].(claim := Some(Lease(dbNow, worker)), attempts := rows[e].attempts + 1)]
  }

  predicate Owns(rows: Rows, e: nat, worker: string) {
    e in rows && rows[e].published.None? && rows[e].claim.Some? && rows[e].claim.value.holder == worker
  }

  function Published(rows: Rows, e: nat, worker: string, dbNow: int): Rows {
    if Owns(rows, e, worker) then rows[e := rows[e].(published := Some(dbNow), claim := None, lastError := None)] else rows
  }

  function Released(rows: Rows, e: nat, worker: string, failure: string, retryAt: int): Rows {
    if Owns(rows, e, worker) then rows[e := rows[e].(availableAt := retryAt, claim := None, lastError := Some(failure))] else rows
  }

  // strings.TrimSpace
  function TrimLeft(s: string): (r: string)
    ensures |r| <= |s| && (r == "" || !IsSpace(r[0]))
  {
    if s != "" && IsSpace(s[0]) then TrimLeft(s[1..]) else s
  }

  function Trim(s: string): (r: string)
    ensures |r| <= |s|
    decreases |s|
  {
    var t := TrimLeft(s);
    if t != "" && IsSpace(t[|t| - 1]) then Trim(t[..|t| - 1]) else t
  }

  predicate AcceptedWorker(table: Table, worker: string) {
    match table
    case IncidentOutbox => CanonicalText(worker)
    case IsrOutbox => !Blank(worker)
  }

  predicate AcceptedFailure(failure: string) {
    Trim(failure) != "" && |Trim(failure)| <= 2048
  }

  // ---------------------------------------------------------------------------
  // The store
  // ---------------------------------------------------------------------------

  class Store {
    const table: Table
    var rows: Rows

    constructor (table: Table)
      ensures this.table == table && rows == map[]
    {
      this.table := table;
      rows := map[];
    }

    // SELECT ... ORDER BY created_at, event_id FOR UPDATE SKIP LOCKED LIMIT 1
    method Select(locked: set<nat>, dbNow: int, cutoff: int) returns (pick: Option<nat>)
      ensures Selects(rows, locked, dbNow, cutoff, pick)
    {
      pick := None;
      var left := rows.Keys;
      while left != {}
        invariant left <= rows.Keys
        invariant pick.Some? ==> pick.value !in left && Candidate(rows, locked, dbNow, cutoff, pick.value)
        invariant forall e :: Candidate(rows, locked, dbNow, cutoff, e) && e !in left ==>
                    pick.Some? && (e == pick.value || Precedes(rows, pick.value, e))
        decreases |left|
      {
        var e :| e in left;
        left := left - {e};
        if Candidate(rows, locked, dbNow, cutoff, e) && (pick.None? || Precedes(rows, e, pick.value)) {
          pick := Some(e);
        }
      }
    }

    /** ClaimOutbox and ClaimISROutbox: leases the first claimable row, and tells how often it was claimed. */
    method Claim(worker: string, lease: int, locked: set<nat>, dbNow: int, appNow: int)
      returns (r: Result<(nat, nat), Fault>)
      modifies this
      ensures !CanonicalText(worker) ==> r == Err(InvalidWorker) && rows == old(rows)
      ensures CanonicalText(worker) && !(0 < lease <= MAX_LEASE) ==> r == Err(InvalidLease) && rows == old(rows)
      ensures CanonicalText(worker) && 0 < lease <= MAX_LEASE ==>
                match r
                case Err(fault) => fault == NonePending && rows == old(rows) && Selects(rows, locked, dbNow, appNow - lease, None)
                case Ok((e, attempts)) =>
                  && Selects(old(rows), locked, dbNow, appNow - lease, Some(e))
                  && rows == Claimed(old(rows), e, worker, dbNow) && attempts == rows[e].attempts
    {
      if !CanonicalText(worker) {
        return Err(InvalidWorker);
      }
      if lease <= 0 || lease > MAX_LEASE {
        return Err(InvalidLease);
      }
      var pick := Select(locked, dbNow, appNow - lease);
      match pick {
        case None => return Err(NonePending);
        case Some(e) =>
          rows := rows[e := rows[e].(claim := Some(Lease(dbNow, worker)), attempts := rows[e].attempts + 1)];
          return Ok((e, rows[e].attempts));
      }
    }

    /** MarkOutboxPublished and MarkISROutboxPublished: only the worker that holds the claim completes it. */
    method MarkPublished(e: nat, worker: string, dbNow: int) returns (fault: Option<Fault>)
      modifies this
      ensures fault == if !AcceptedWorker(table, worker) then Some(InvalidWorker)
                       else if !Owns(old(rows), e, worker) then Some(NotOwner) else None
      ensures rows == if fault.None? then Published(old(rows), e, worker, dbNow) else old(rows)
    {
      if !AcceptedWorker(table, worker) {
        return Some(InvalidWorker);
      }
      if !Owns(rows, e, worker) {
        return Some(NotOwner);
      }
      rows := rows[e := rows[e].(published := Some(dbNow), claim := None, lastError := None)];
      return None;
    }

    /** MarkOutboxFailed and MarkISROutboxFailed: gives the row back for another attempt after retryAt. */
    method MarkFailed(e: nat, worker: string, failure: string, retryAt: int) returns (fault: Option<Fault>)
      modifies this
      ensures fault == if !AcceptedWorker(table, worker) then Some(InvalidWorker)
                       else if !AcceptedFailure(failure) then Some(InvalidFailure)
                       else if !Owns(old(rows), e, worker) then Some(NotOwner) else None
      ensures rows == if fault.None? then Released(old(rows), e, worker, Trim(failure), retryAt) else old(rows)
    {
      if !AcceptedWorker(table, worker) {
        return Some(InvalidWorker);
      }
      var trimmed := Trim(failure);
      if trimmed == "" || |trimmed| > 2048 {
        return Some(InvalidFailure);
      }
      if !Owns(rows, e, worker) {
        return Some(NotOwner);
      }
      rows := rows[e := rows[e].(availableAt := retryAt, claim := None, lastError := Some(trimmed))];
      return None;
    }
  }

  // ---------------------------------------------------------------------------
  // The worker
  // ---------------------------------------------------------------------------

  const SECOND := 1_000_000_000
  const MAX_INT64 := 0x7fff_ffff_ffff_ffff

  function Wrap64(n: int): int {
    var m := n % 0x1_0000_0000_0000_0000;
    if m > MAX_INT64 then m - 0x1_0000_0000_0000_0000 else m
  }

  function Shift(k: nat): nat {
    if k == 0 then 1 else 2 * Shift(k - 1)
  }

  /** backoff, in int64 arithmetic. */
  function Backoff(attempts: int, max: int): int {
    var clamped := if attempts < 1 then 1 else if attempts > 30 then 30 else attempts;
    var delay := Wrap64(SECOND * Wrap64(Shift(clamped - 1)));
    if delay > max then max else delay
  }

  lemma {:induction false} ShiftGrows(a: nat, b: nat)
    requires a <= b
    ensures 1 <= Shift(a) <= Shift(b)
    decreases b
  {
    if a < b {
      ShiftGrows(a, b - 1);
    } else if a > 0 {
      ShiftGrows(a - 1, a - 1);
    }
  }

  lemma ShiftOf29()
    ensures Shift(29) == 0x2000_0000
  {
    assert Shift(5) == 32;
    assert Shift(10) == 1024;
    assert Shift(15) == 0x8000;
    assert Shift(20) == 0x10_0000;
    assert Shift(25) == 0x200_0000;
  }

  lemma WrapSmall(n: int)
    requires 0 <= n <= MAX_INT64
    ensures Wrap64(n) == n
  {
  }

  /** No overflow: the delay is a second doubled for every attempt after the first, at most the maximum. */
  lemma BackoffExact(attempts: int, max: int)
    ensures var clamped := if attempts < 1 then 1 else if attempts > 30 then 30 else attempts;
            Backoff(attempts, max) == if SECOND * Shift(clamped - 1) > max then max else SECOND * Shift(clamped - 1)
  {
    var clamped := if attempts < 1 then 1 else if attempts > 30 then 30 else attempts;
    ShiftOf29();
    ShiftGrows(clamped - 1, 29);
    hide Shift, Wrap64;
    WrapSmall(Shift(clamped - 1));
    WrapSmall(SECOND * Shift(clamped - 1));
  }

  /** The delay is positive for a positive maximum, never above it, and never shrinks with more attempts. */
  lemma BackoffLaws(a: int, b: int, max: int)
    ensures max > 0 ==> Backoff(a, max) > 0
    ensures Backoff(a, max) <= max
    ensures a <= b ==> Backoff(a, max) <= Backoff(b, max)
  {
    BackoffExact(a, max);
    BackoffExact(b, max);
    var x := if a < 1 then 1 else if a > 30 then 30 else a;
    var y := if b < 1 then 1 else if b > 30 then 30 else b;
    ShiftGrows(0, x - 1);
    if a <= b {
      ShiftGrows(x - 1, y - 1);
    }
  }

  /** The broker's log of accepted messages, by event. */
  class Broker {
    var accepted: seq<nat>

    constructor ()
      ensures accepted == []
    {
      accepted := [];
    }

    // WriteMessages: how many copies end up in the log, and whether the writer hears of one.
    method Write(e: nat, copies: nat, heard: bool) returns (ok: bool)
      modifies this
      ensures ok <==> heard && copies > 0
      ensures accepted == old(accepted) + Copies(e, copies)
    {
      accepted := accepted + seq(copies, _ => e);
      return heard && copies > 0;
    }
  }

  function Copies(e: nat, n: nat): seq<nat> {
    seq(n, _ => e)
  }

  /** Everything about one delivery that the worker does not control. */
  datatype Weather = Weather(
    locked: set<nat>, claimTime: int, appTime: int, copies: nat, heard: bool, failure: string, failTime: int, markTime: int)

  // 2 to the n
  function Doubled(n: nat): nat {
    if n == 0 then 1 else Doubled(n - 1) + Doubled(n - 1)
  }

  lemma {:induction false} ShiftDoubles(n: nat)
    ensures Shift(n) == Doubled(n)
  {
    if n > 0 {
      ShiftDoubles(n - 1);
    }
  }

  /** The wait after that many attempts: one second, doubled for each attempt after the first up to the thirtieth, at most the maximum. */
  function Wait(attempts: nat, max: int): int
    requires attempts > 0
  {
    var wait := 1_000_000_000 * Doubled((if attempts < 30 then attempts else 30) - 1);
    if wait > max then max else wait
  }

  lemma BackoffIsWait(attempts: nat, max: int)
    requires attempts > 0
    ensures Backoff(attempts, max) == Wait(attempts, max)
  {
    BackoffExact(attempts, max);
    ShiftDoubles((if attempts < 30 then attempts else 30) - 1);
    hide Shift, Doubled, Wrap64;
  }

  /**
    What one undisturbed delivery of row e makes of the rows, field by field: one more attempt; then the
    row is published when the worker hears of an accepted copy, given back until the wait is over when it
    does not, and left claimed when the failure text cannot be stored either.
   */
  ghost predicate Delivery(before: Rows, after: Rows, e: nat, worker: string, maxBackoff: int, x: Weather) {
    && e in before && after.Keys == before.Keys && (forall f :: f in before && f != e ==> after[f] == before[f])
    && var r, r' := before[e], after[e];
       && r'.createdAt == r.createdAt && r'.payload == r.payload && r'.attempts == r.attempts + 1
       && if x.heard && x.copies > 0 then
            r'.published == Some(x.markTime) && r'.claim == None && r'.lastError == None && r'.availableAt == r.availableAt
          else if 0 < |Trim(x.failure)| <= 2048 then
            && r'.published == None && r'.claim == None && r'.lastError == Some(Trim(x.failure))
            && r'.availableAt == x.failTime + Wait(r.attempts + 1, maxBackoff)
          else
            && r'.published == None && r'.claim == Some(Lease(x.claimTime, worker))
            && r'.lastError == r.lastError && r'.availableAt == r.availableAt
  }

  /**
    deliverOne of either worker when nothing interferes: claims, sends, then marks the row published
    or gives it back; the row stays claimed when the failure text cannot be stored.
   */
  method DeliverOne(store: Store, broker: Broker, worker: string, lease: int, maxBackoff: int, x: Weather)
    returns (fault: Option<Fault>)
    modifies store, broker
    ensures fault == Some(InvalidWorker) <==> !CanonicalText(worker)
    ensures fault == Some(InvalidLease) <==> CanonicalText(worker) && !(0 < lease <= 86_400_000_000_000)
    ensures fault == Some(NonePending) <==>
              && CanonicalText(worker) && 0 < lease <= 86_400_000_000_000
              && Selects(old(store.rows), x.locked, x.claimTime, x.appTime - lease, None)
    ensures fault in {Some(InvalidWorker), Some(InvalidLease), Some(NonePending)} ==>
              store.rows == old(store.rows) && broker.accepted == old(broker.accepted)
    ensures fault !in {Some(InvalidWorker), Some(InvalidLease), Some(NonePending)} ==>
              exists e: nat ::
                && Selects(old(store.rows), x.locked, x.claimTime, x.appTime - lease, Some(e))
                && Delivery(old(store.rows), store.rows, e, worker, maxBackoff, x)
                && broker.accepted == old(broker.accepted) + Copies(e, x.copies)
                && fault == (if x.heard && x.copies > 0 then None else Some(SendFailed))
  {
    var r := store.Claim(worker, lease, x.locked, x.claimTime, x.appTime);
    if r.Err? {
      return Some(r.error);
    }
    var (e, attempts) := r.value;
    CanonicalIsNotBlank(worker);
    var ok := broker.Write(e, x.copies, x.heard);
    if ok {
      fault := store.MarkPublished(e, worker, x.markTime);
      assert Delivery(old(store.rows), store.rows, e, worker, maxBackoff, x);
      return;
    }
    BackoffIsWait(attempts, maxBackoff);
    var retryAt := x.failTime + Backoff(attempts, maxBackoff);
    var _ := store.MarkFailed(e, worker, x.failure, retryAt);
    assert Delivery(old(store.rows), store.rows, e, worker, maxBackoff, x);
    return Some(SendFailed);
  }

  // The white space of Unicode, by its codes.
  predicate SpaceCode(code: int) {
    9 <= code <= 13 || 8192 <= code <= 8202 || code in {32, 133, 160, 5760, 8232, 8233, 8239, 8287, 12288}
  }

  predicate AllSpace(s: string) {
    forall i :: 0 <= i < |s| ==> SpaceCode(s[i] as int)
  }

  lemma {:induction false} TrimLeftExactly(s: string) returns (a: string)
    ensures AllSpace(a) && s == a + TrimLeft(s)
    decreases |s|
  {
    if s != "" && IsSpace(s[0]) {
      var rest := TrimLeftExactly(s[1..]);
      a := [s[0]] + rest;
      assert s == [s[0]] + s[1..];
    } else {
      a := "";
    }
  }

  lemma TrimStep(s: string)
    ensures var t := TrimLeft(s); t == "" || AllSpace(t[|t| - 1..]) ==> t == "" || Trim(s) == Trim(t[..|t| - 1])
    ensures var t := TrimLeft(s); t == "" || !AllSpace(t[|t| - 1..]) ==> Trim(s) == t
    ensures var t := TrimLeft(s); t == "" || !AllSpace(t[..1])
  {
    var t := TrimLeft(s);
    if t != "" {
      assert t[|t| - 1..][0] == t[|t| - 1] && t[..1][0] == t[0];
      assert AllSpace(t[|t| - 1..]) <==> IsSpace(t[|t| - 1]);
    }
  }

  /** Trimming takes away white space at both ends, and all of it. */
  lemma {:induction false} TrimExactly(s: string) returns (a: string, b: string)
    ensures s == a + Trim(s) + b && AllSpace(a) && AllSpace(b)
    ensures Trim(s) != "" ==> !AllSpace(Trim(s)[..1]) && !AllSpace(Trim(s)[|Trim(s)| - 1..])
    decreases |s|
  {
    var left := TrimLeftExactly(s);
    var t := TrimLeft(s);
    TrimStep(s);
    hide Trim, TrimLeft, AllSpace;
    if t != "" && AllSpace(t[|t| - 1..]) {
      var front, last := t[..|t| - 1], t[|t| - 1..];
      var c, d := TrimExactly(front);
      a, b := left + c, d + last;
      Peeled(s, left, t, front, last, c, Trim(front), d);
    } else {
      a, b := left, "";
      Peeled(s, left, t, t, "", "", t, "");
    }
  }

  lemma Peeled(s: string, left: string, t: string, front: string, last: string, c: string, m: string, d: string)
    requires s == left + t && t == front + last && front == c + m + d
    requires AllSpace(left) && AllSpace(c) && AllSpace(d) && AllSpace(last)
    ensures s == (left + c) + m + (d + last) && AllSpace(left + c) && AllSpace(d + last)
  {
  }

  lemma SpacesAreSpace(s: string)
    ensures AllSpace(s) <==> Blank(s)
  {
    forall i | 0 <= i < |s| ensures IsSpace(s[i]) <==> SpaceCode(s[i] as int) {
    }
  }

  lemma BlankParts(s: string, a: string, t: string, b: string)
    requires s == a + t + b && Blank(a) && Blank(b) && (t != "" ==> !IsSpace(t[0]) && !IsSpace(t[|t| - 1]))
    ensures Blank(s) <==> t == ""
    ensures CanonicalText(s) <==> s != "" && t == s
  {
    hide IsSpace;
    if t != "" {
      assert s[|a|] == t[0];
    }
    assert a != "" ==> s[0] == a[0] && IsSpace(a[0]);
    assert b != "" ==> s[|s| - 1] == b[|b| - 1] && IsSpace(b[|b| - 1]);
  }

  /** A text is blank exactly when trimming leaves nothing, and canonical exactly when there is something and trimming leaves it alone. */
  lemma CanonicalExactly(s: string)
    ensures Blank(s) <==> Trim(s) == ""
    ensures CanonicalText(s) <==> s != "" && Trim(s) == s
  {
    var a, b := TrimExactly(s);
    SpacesAreSpace(a);
    SpacesAreSpace(b);
    var t := Trim(s);
    if t != "" {
      SpacesAreSpace(t[..1]);
      SpacesAreSpace(t[|t| - 1..]);
    }
    hide Trim, AllSpace, CanonicalText, IsSpace;
    assert t != "" ==> t[..1][0] == t[0] && t[|t| - 1..][0] == t[|t| - 1];
    BlankParts(s, a, t, b);
  }

  lemma CanonicalIsNotBlank(s: string)
    requires CanonicalText(s)
    ensures !Blank(s)
  {
  }
}
