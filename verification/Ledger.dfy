/**
  internal/ledger: dual-control outcome entries bound to TigerBeetle transfers. The tables change in
  transactions; the transfer is posted outside of them, before the commit.
 */
module Ledger {
  import opened Base
  import opened Classification

  // ---------------------------------------------------------------------------
  // Proposals and entries
  // ---------------------------------------------------------------------------

  datatype Proposal = Proposal(
    entryID: string, kind: string, incidentRef: string, level: Label, metric: string, quantity: int, unit: string, proposedBy: string)
  {
    predicate Validate() {
      && kind in {"incident-verified", "premium-delta"}
      && Known(level)
      && 0 < |entryID| <= 128 && 0 < |incidentRef| <= 128 && 0 < |proposedBy| <= 128
      && 0 < quantity <= 0x7fff_ffff_ffff_ffff
      && (kind == "incident-verified" ==> metric == "incident-reduction-count" && unit == "incidents")
      && (kind == "premium-delta" ==> metric == "premium-delta-basis-points" && unit == "basis-points")
    }

    /** The CHECK constraints of the proposal table. */
    predicate Storable() {
      Validate() && Identifier(entryID) && Identifier(incidentRef) && Identifier(proposedBy)
    }
  }

  datatype Record = Record(proposal: Proposal, proposedAt: int, confirmed: bool)

  datatype Entry = Entry(proposal: Proposal, transferID: string, proposedAt: int, confirmedBy: string, confirmedAt: int)

  // An outbox row of a confirmed outcome, with what the classification column holds.
  datatype Notice = Notice(entryID: string, column: string)

  datatype Tables = Tables(proposals: map<string, Record>, entries: map<string, Entry>, outbox: seq<Notice>)

  datatype Fault = Invalid | Refused | Conflict | NotFound | DualControl | AlreadyConfirmed | PostFailed | BadTransfer

  /** Propose: records the proposal once; an exact replay is accepted, anything else under the same id is not. */
  function Proposed(t: Tables, p: Proposal, now: int): (Result<(), Fault>, Tables) {
    if !p.Validate() then (Err(Invalid), t)
    else if !p.Storable() then (Err(Refused), t)
    else if p.entryID !in t.proposals then (Ok(()), t.(proposals := t.proposals[p.entryID := Record(p, now, false)]))
    else if t.proposals[p.entryID].proposal != p then (Err(Conflict), t)
    else (Ok(()), t)
  }

  /** What Confirm checks before it posts the transfer. */
  function Refusal(t: Tables, entryID: string, confirmedBy: string): Option<Fault> {
    if confirmedBy == "" || |confirmedBy| > 128 then Some(Invalid)
    else if entryID !in t.proposals then Some(NotFound)
    else if t.proposals[entryID].proposal.proposedBy == confirmedBy then Some(DualControl)
    else if t.proposals[entryID].confirmed then Some(AlreadyConfirmed)
    else None
  }

  // EnvelopeClassificationOf: the platform label, which is what Confirm writes to the outbox column.
  function EnvelopeLabel(level: Label): string {
    match level
    case Unclassified => "INTERNAL"
    case Restricted => "RESTRICTED"
    case Confidential => "CONFIDENTIAL"
    case Secret => "CONFIDENTIAL"
    case Unknown(_) => ""
  }

  // The label itself, which is what every other writer of that column stores.
  function LabelText(level: Label): string {
    match level
    case Unclassified => "UNCLASSIFIED"
    case Restricted => "RESTRICTED"
    case Confidential => "CONFIDENTIAL"
    case Secret => "SECRET"
    case Unknown(raw) => raw
  }

  /** The CHECK constraint of the outbox column. */
  predicate StorableLabel(column: string) {
    column in {"UNCLASSIFIED", "RESTRICTED", "CONFIDENTIAL", "SECRET"}
  }

  /** The rows Confirm writes after the transfer; None when a CHECK constraint aborts the transaction. */
  function Confirmed(t: Tables, r: Record, transferID: string, confirmedBy: string, now: int): (u: Option<Tables>)
    ensures u.Some? ==> r.proposal.entryID in u.value.entries
  {
    var p := r.proposal;
    if p.entryID in t.entries || p.proposedBy == confirmedBy || now < r.proposedAt || !StorableLabel(EnvelopeLabel(p.level)) then None
    else
      Some(Tables(
        if p.entryID in t.proposals then t.proposals[p.entryID := t.proposals[p.entryID].(confirmed := true)] else t.proposals,
        t.entries[p.entryID := Entry(p, transferID, r.proposedAt, confirmedBy, now)],
        t.outbox + [Notice(p.entryID, EnvelopeLabel(p.level))]))
  }

  // ---------------------------------------------------------------------------
  // Transfer identities
  // ---------------------------------------------------------------------------

  type Byte = n: int | 0 <= n < 256
  type Id = b: seq<Byte> | |b| == 16 witness seq(16, _ => 0)

  // The first 16 bytes of a SHA-256 digest of the entry identity.
  type TransferIds = string -> Id

  function HexDigit(n: int): char
    requires 0 <= n < 16
  {
    "0123456789abcdef"[n]
  }

  function HexByte(b: Byte): (h: string)
    ensures |h| == 2
  {
    [HexDigit(b / 16), HexDigit(b % 16)]
  }

  /** The bytes from the last to the first, two digits each. */
  function Hex(b: seq<Byte>): (h: string)
    ensures |h| == 2 * |b|
  {
    if b == [] then "" else HexByte(b[|b| - 1]) + Hex(b[..|b| - 1])
  }

  /** TransferIDHex */
  method TransferIDHex(id: Id) returns (hex: string)
    ensures hex == Hex(id) && |hex| == 32
  {
    hex := "";
    var index := 15;
    assert id[..16] == id;
    while index >= 0
      invariant -1 <= index <= 15
      invariant hex + Hex(id[..index + 1]) == Hex(id)
    {
      assert id[..index + 1][..index] == id[..index];
      ghost var rest := Hex(id[..index]);
      assert hex + (HexByte(id[index]) + rest) == (hex + HexByte(id[index])) + rest;
      hex := hex + [HexDigit(id[index] / 16), HexDigit(id[index] % 16)];
      index := index - 1;
    }
  }

  lemma HexDigitInjective(m: int, n: int)
    requires 0 <= m < 16 && 0 <= n < 16 && HexDigit(m) == HexDigit(n)
    ensures m == n
  {
    DigitValue(m);
    DigitValue(n);
  }

  lemma DigitValue(n: int)
    requires 0 <= n < 16
    ensures HexDigit(n) as int == if n < 10 then '0' as int + n else 'a' as int + n - 10
  {
  }

  lemma HexByteInjective(a: Byte, b: Byte)
    requires HexByte(a) == HexByte(b)
    ensures a == b
  {
    assert HexByte(a)[0] == HexByte(b)[0] && HexByte(a)[1] == HexByte(b)[1];
    HexDigitInjective(a / 16, b / 16);
    HexDigitInjective(a % 16, b % 16);
  }

  /** The text in the entry row identifies the transfer. */
  lemma {:induction false} HexInjective(a: seq<Byte>, b: seq<Byte>)
    requires Hex(a) == Hex(b)
    ensures a == b
    decreases |a|
  {
    if a != [] {
      var x, y := a[|a| - 1], b[|b| - 1];
      assert Hex(a)[..2] == HexByte(x) && Hex(b)[..2] == HexByte(y);
      assert Hex(a)[2..] == Hex(a[..|a| - 1]) && Hex(b)[2..] == Hex(b[..|b| - 1]);
      HexByteInjective(x, y);
      HexInjective(a[..|a| - 1], b[..|b| - 1]);
      assert a == a[..|a| - 1] + [x] && b == b[..|b| - 1] + [y];
    }
  }

  /** The number whose bytes these are, the first one the least significant. */
  function LittleEndian(b: seq<Byte>): nat {
    if b == [] then 0 else b[0] + 256 * LittleEndian(b[1..])
  }

  function DigitOf(c: char): nat {
    if '0' <= c <= '9' then c as int - '0' as int else if 'a' <= c <= 'f' then c as int - 'a' as int + 10 else 0
  }

  function NumberOf(hex: string): nat {
    if hex == "" then 0 else 16 * NumberOf(hex[..|hex| - 1]) + DigitOf(hex[|hex| - 1])
  }

  lemma TwoDigits(front: string, b: Byte)
    ensures NumberOf(front + HexByte(b)) == 256 * NumberOf(front) + b
  {
    var h := HexByte(b);
    DigitValue(b / 16);
    DigitValue(b % 16);
    assert (front + h)[..|front| + 1] == front + [h[0]];
    assert (front + [h[0]])[..|front|] == front;
  }

  lemma {:induction false} LastByteFirst(b: seq<Byte>)
    requires b != []
    ensures Hex(b) == Hex(b[1..]) + HexByte(b[0])
    decreases |b|
  {
    var front, last := b[..|b| - 1], b[|b| - 1];
    if |b| > 1 {
      LastByteFirst(front);
      assert front[1..] == b[1..][..|b| - 2];
      assert HexByte(last) + (Hex(front[1..]) + HexByte(b[0])) == (HexByte(last) + Hex(front[1..])) + HexByte(b[0]);
    } else {
      assert front == [] && Hex(b) == HexByte(b[0]);
    }
  }

  /** The text is in lower-case hexadecimal digits, two a byte, and the number it writes is the little-endian one of the bytes. */
  lemma {:induction false} HexWritesNumber(b: seq<Byte>)
    ensures NumberOf(Hex(b)) == LittleEndian(b)
    ensures forall i :: 0 <= i < |Hex(b)| ==> '0' <= Hex(b)[i] <= '9' || 'a' <= Hex(b)[i] <= 'f'
    decreases |b|
  {
    if b != [] {
      LastByteFirst(b);
      HexWritesNumber(b[1..]);
      TwoDigits(Hex(b[1..]), b[0]);
      DigitValue(b[0] / 16);
      DigitValue(b[0] % 16);
    }
  }

  // ---------------------------------------------------------------------------
  // TigerBeetle
  // ---------------------------------------------------------------------------

  // The transfers by identity, and what they moved from account 1 to account 2 in all.
  datatype Bank = Bank(transfers: map<Id, nat>, moved: nat)

  datatype Status = Created | Exists | ExistsDifferent

  function CreateTransfer(bank: Bank, id: Id, amount: nat): (Status, Bank) {
    if id !in bank.transfers then (Created, Bank(bank.transfers[id := amount], bank.moved + amount))
    else if bank.transfers[id] == amount then (Exists, bank)
    else (ExistsDifferent, bank)
  }

  /** PostOutcome refuses these before it asks TigerBeetle. */
  predicate Postable(entryID: string, quantity: int) {
    !Blank(entryID) && |entryID| <= 128 && quantity != 0
  }

  /** Confirm from beginning to end, when nothing interferes. */
  function ConfirmEffect(
      ids: TransferIds, t: Tables, bank: Bank, entryID: string, confirmedBy: string, reaches: bool, heard: bool, now: int)
    : (Result<Entry, Fault>, Tables, Bank)
    requires entryID in t.proposals ==> t.proposals[entryID].proposal.quantity > 0 && t.proposals[entryID].proposal.entryID == entryID
  {
    if Refusal(t, entryID, confirmedBy).Some? then (Err(Refusal(t, entryID, confirmedBy).value), t, bank)
    else
      var r := t.proposals[entryID];
      if !Postable(entryID, r.proposal.quantity) then (Err(BadTransfer), t, bank)
      else if !reaches then (Err(PostFailed), t, bank)
      else
        var (status, after) := CreateTransfer(bank, ids(entryID), r.proposal.quantity);
        if !heard then (Err(PostFailed), t, after)
        else if status == ExistsDifferent then (Err(BadTransfer), t, after)
        else
          match Confirmed(t, r, Hex(ids(entryID)), confirmedBy, now)
          case None => (Err(Refused), t, after)
          case Some(u) => (Ok(u.entries[entryID]), u, after)
  }

  // ---------------------------------------------------------------------------
  // The store and the service
  // ---------------------------------------------------------------------------

  class Service {
    const ids: TransferIds
    var transfers: map<Id, nat>
    var moved: nat

    constructor (ids: TransferIds)
      ensures this.ids == ids && View() == Bank(map[], 0)
    {
      this.ids := ids;
      transfers, moved := map[], 0;
    }

    function View(): Bank
      reads this
    {
      Bank(transfers, moved)
    }

    /** PostOutcome. The request may fail before or after TigerBeetle acts on it. */
    method PostOutcome(entryID: string, quantity: nat, reaches: bool, heard: bool) returns (r: Result<Id, Fault>)
      modifies this
      ensures View() == if Postable(entryID, quantity) && reaches then CreateTransfer(old(View()), ids(entryID), quantity).1 else old(View())
      ensures r == if !Postable(entryID, quantity) then Err(BadTransfer)
                   else if !reaches || !heard then Err(PostFailed)
                   else if CreateTransfer(old(View()), ids(entryID), quantity).0 == ExistsDifferent then Err(BadTransfer)
                   else Ok(ids(entryID))
    {
      if Blank(entryID) || |entryID| > 128 || quantity == 0 {
        return Err(BadTransfer);
      }
      var id := ids(entryID);
      var status := Created;
      if reaches {
        if id !in transfers {
          transfers, moved := transfers[id := quantity], moved + quantity;
        } else {
          status := if transfers[id] == quantity then Exists else ExistsDifferent;
        }
      }
      if !reaches || !heard {
        return Err(PostFailed);
      }
      if status == ExistsDifferent {
        return Err(BadTransfer);
      }
      return Ok(id);
    }
  }

  class OutcomeStore {
    const service: Service
    var proposals: map<string, Record>
    var entries: map<string, Entry>
    var outbox: seq<Notice>

    constructor (service: Service)
      ensures this.service == service && View() == Tables(map[], map[], [])
    {
      this.service := service;
      proposals, entries, outbox := map[], map[], [];
    }

    function View(): Tables
      reads this
    {
      Tables(proposals, entries, outbox)
    }

    method Propose(p: Proposal, now: int) returns (r: Result<(), Fault>)
      modifies this
      ensures (r, View()) == Proposed(old(View()), p, now)
    {
      if !p.Validate() {
        return Err(Invalid);
      }
      if !p.Storable() {
        return Err(Refused);
      }
      if p.entryID !in proposals {
        proposals := proposals[p.entryID := Record(p, now, false)];
        return Ok(());
      }
      if proposals[p.entryID].proposal != p {
        return Err(Conflict);
      }
      return Ok(());
    }

    /** Confirm, undisturbed: the transfer stays posted even when the transaction is aborted after it. */
    method Confirm(entryID: string, confirmedBy: string, reaches: bool, heard: bool, now: int) returns (r: Result<Entry, Fault>)
      requires forall id :: id in proposals ==> proposals[id].proposal.quantity > 0 && proposals[id].proposal.entryID == id
      modifies this, service
      ensures (r, View(), service.View())
           == ConfirmEffect(service.ids, old(View()), old(service.View()), entryID, confirmedBy, reaches, heard, now)
    {
      if confirmedBy == "" || |confirmedBy| > 128 {
        return Err(Invalid);
      }
      if entryID !in proposals {
        return Err(NotFound);
      }
      var record := proposals[entryID];
      var p := record.proposal;
      if p.proposedBy == confirmedBy {
        return Err(DualControl);
      }
      if record.confirmed {
        return Err(AlreadyConfirmed);
      }
      var posted := service.PostOutcome(p.entryID, p.quantity, reaches, heard);
      if posted.Err? {
        return Err(posted.error);
      }
      var transferID := TransferIDHex(posted.value);
      var entry := Entry(p, transferID, record.proposedAt, confirmedBy, now);
      if entryID in entries || now < record.proposedAt || !StorableLabel(EnvelopeLabel(p.level)) {
        return Err(Refused);
      }
      entries := entries[entryID := entry];
      proposals := proposals[entryID := record.(confirmed := true)];
      outbox := outbox + [Notice(entryID, EnvelopeLabel(p.level))];
      return Ok(entry);
    }
  }
}
