/** Any interleaving of proposals and confirmations, with crashes anywhere and lost answers from TigerBeetle. */
module LedgerLaws {
  import opened Base
  import opened Classification
  import opened Ledger

  // ---------------------------------------------------------------------------
  // Steps
  // ---------------------------------------------------------------------------

  /** Where a caller of Confirm is: it holds the lock on the proposal row from Begin to the end. */
  datatype Local = Idle | Loaded(record: Record, confirmedBy: string) | Ready(record: Record, confirmedBy: string)

  /**
    The tables, TigerBeetle, the callers, the entries in the order their transfers were created, and
    every transfer ever asked for: the request may reach TigerBeetle long after its caller gave up.
   */
  datatype System = System(
    t: Tables, bank: Bank, callers: map<string, Local>, posted: seq<string>, asked: set<(string, nat)>)

  const START := System(Tables(map[], map[], []), Bank(map[], 0), map[], [], {})

  datatype Step =
    | Propose(p: Proposal, now: int)
    | Begin(w: string, entryID: string, confirmedBy: string)
    | Post(w: string, reaches: bool, heard: bool)
    | Arrive(entryID: string, quantity: nat)
    | Commit(w: string, now: int)
    | Crash(w: string)

  function At(s: System, w: string): Local {
    if w in s.callers then s.callers[w] else Idle
  }

  function Moved(s: System, w: string, local: Local): System {
    s.(callers := s.callers[w := local])
  }

  function EntryOf(local: Local): string
    requires !local.Idle?
  {
    local.record.proposal.entryID
  }

  ghost predicate Locked(s: System, entryID: string) {
    exists w :: !At(s, w).Idle? && EntryOf(At(s, w)) == entryID
  }

  ghost predicate Enabled(s: System, step: Step) {
    match step
    case Propose(_, _) => true
    case Begin(w, entryID, confirmedBy) => At(s, w).Idle? && !Locked(s, entryID)
    case Post(w, _, _) => At(s, w).Loaded?
    case Arrive(entryID, quantity) => (entryID, quantity) in s.asked
    case Commit(w, _) => At(s, w).Ready?
    case Crash(w) => true
  }

  ghost function Apply(ids: TransferIds, s: System, step: Step): System
    requires Enabled(s, step)
  {
    match step
    case Propose(p, now) => s.(t := Proposed(s.t, p, now).1)
    case Begin(w, entryID, confirmedBy) =>
      if Refusal(s.t, entryID, confirmedBy).Some? then s else Moved(s, w, Loaded(s.t.proposals[entryID], confirmedBy))
    case Post(w, reaches, heard) =>
      var local := At(s, w);
      var p := local.record.proposal;
      if !Postable(p.entryID, p.quantity) || p.quantity < 0 then Moved(s, w, Idle)
      else if !reaches then Moved(s, w, Idle).(asked := s.asked + {(p.entryID, p.quantity)})
      else
        var (status, bank) := CreateTransfer(s.bank, ids(p.entryID), p.quantity);
        Moved(s, w, if heard && status != ExistsDifferent then Ready(local.record, local.confirmedBy) else Idle)
          .(bank := bank, posted := if status == Created then s.posted + [p.entryID] else s.posted)
    case Arrive(entryID, quantity) =>
      var (status, bank) := CreateTransfer(s.bank, ids(entryID), quantity);
      s.(bank := bank, posted := if status == Created then s.posted + [entryID] else s.posted)
    case Commit(w, now) =>
      var local := At(s, w);
      (match Confirmed(s.t, local.record, Hex(ids(EntryOf(local))), local.confirmedBy, now)
       case None => Moved(s, w, Idle)
       case Some(t) => Moved(s, w, Idle).(t := t))
    case Crash(w) => Moved(s, w, Idle)
  }

  ghost function Exec(ids: TransferIds, steps: seq<Step>): System {
    if steps == [] then START
    else
      var before, last := Exec(ids, steps[..|steps| - 1]), steps[|steps| - 1];
      if Enabled(before, last) then Apply(ids, before, last) else before
  }

  // ---------------------------------------------------------------------------
  // The invariant
  // ---------------------------------------------------------------------------

  /** No two entries share a transfer identity. */
  ghost predicate Injective(ids: TransferIds) {
    forall a, b :: ids(a) == ids(b) ==> a == b
  }

  predicate ProposalRight(t: Tables, id: string)
    requires id in t.proposals
  {
    var r := t.proposals[id];
    r.proposal.entryID == id && r.proposal.Storable() && (r.confirmed <==> id in t.entries)
  }

  predicate EntryRight(ids: TransferIds, s: System, id: string)
    requires id in s.t.entries
  {
    var e := s.t.entries[id];
    && id in s.t.proposals && s.t.proposals[id].confirmed && e.proposal == s.t.proposals[id].proposal
    && e.proposedAt == s.t.proposals[id].proposedAt <= e.confirmedAt
    && e.confirmedBy != e.proposal.proposedBy && e.proposal.level != Unclassified
    && e.transferID == Hex(ids(id)) && id in s.posted
  }

  /** A caller under way holds the row as it is: unconfirmed, and with nobody else at it. */
  predicate CallerRight(s: System, w: string) {
    var local := At(s, w);
    !local.Idle? ==>
      && EntryOf(local) in s.t.proposals && local.record == s.t.proposals[EntryOf(local)] && !local.record.confirmed
      && local.confirmedBy != local.record.proposal.proposedBy
      && (local.Ready? ==> EntryOf(local) in s.posted)
  }

  ghost predicate LocksApart(s: System) {
    forall v, w :: v != w && !At(s, v).Idle? && !At(s, w).Idle? ==> EntryOf(At(s, v)) != EntryOf(At(s, w))
  }

  /** The sum of the proposed quantities of the listed entries. */
  function Total(t: Tables, list: seq<string>): int
    requires forall id :: id in list ==> id in t.proposals
  {
    if list == [] then 0 else Total(t, list[..|list| - 1]) + t.proposals[list[|list| - 1]].proposal.quantity
  }

  ghost predicate Distinct(posted: seq<string>) {
    forall i, j :: 0 <= i < j < |posted| ==> posted[i] != posted[j]
  }

  ghost predicate AmountsRight(ids: TransferIds, t: Tables, transfers: map<Id, nat>, posted: seq<string>) {
    forall id :: id in posted ==> id in t.proposals && ids(id) in transfers && transfers[ids(id)] == t.proposals[id].proposal.quantity
  }

  ghost predicate Covered(ids: TransferIds, transfers: map<Id, nat>, posted: seq<string>) {
    forall x :: x in transfers ==> exists id :: id in posted && ids(id) == x
  }

  /** TigerBeetle holds one transfer per posted entry, of exactly its proposal's quantity, and moved their sum. */
  ghost predicate BankRight(ids: TransferIds, s: System) {
    && Distinct(s.posted) && AmountsRight(ids, s.t, s.bank.transfers, s.posted) && Covered(ids, s.bank.transfers, s.posted)
    && s.bank.moved == Total(s.t, s.posted)
  }

  ghost predicate ProposalsRight(t: Tables) {
    forall id :: id in t.proposals ==> ProposalRight(t, id)
  }

  ghost predicate EntriesRight(ids: TransferIds, s: System) {
    forall id :: id in s.t.entries ==> EntryRight(ids, s, id)
  }

  ghost predicate CallersRight(s: System) {
    forall w :: CallerRight(s, w)
  }

  ghost predicate Inv(ids: TransferIds, s: System) {
    && ProposalsRight(s.t) && EntriesRight(ids, s)
    && CallersRight(s) && LocksApart(s)
    && BankRight(ids, s) && AskedRight(s)
    && |s.t.outbox| == |s.t.entries|
  }

  /** Only proposed quantities are ever asked for. */
  ghost predicate AskedRight(s: System) {
    forall id, quantity :: (id, quantity) in s.asked ==> id in s.t.proposals && s.t.proposals[id].proposal.quantity == quantity && quantity > 0
  }

  /** Proposals and posts are never lost. */
  ghost predicate Grows(s: System, x: System) {
    && (forall id :: id in s.t.proposals ==> id in x.t.proposals && x.t.proposals[id] == s.t.proposals[id])
    && (forall id :: id in s.posted ==> id in x.posted)
  }

  lemma EntriesKept(ids: TransferIds, s: System, x: System)
    requires EntriesRight(ids, s) && Grows(s, x) && x.t.entries == s.t.entries
    ensures EntriesRight(ids, x)
  {
    hide Hex;
    forall id | id in x.t.entries ensures EntryRight(ids, x, id) {
      assert EntryRight(ids, s, id);
    }
  }

  lemma CallersKept(s: System, x: System)
    requires CallersRight(s) && Grows(s, x)
    requires forall w :: At(x, w) == At(s, w) || CallerRight(x, w)
    ensures CallersRight(x)
  {
    forall w ensures CallerRight(x, w) {
      assert CallerRight(s, w);
    }
  }

  lemma NoNewLock(s: System, x: System)
    requires LocksApart(s) && forall w :: !At(x, w).Idle? ==> !At(s, w).Idle? && EntryOf(At(s, w)) == EntryOf(At(x, w))
    ensures LocksApart(x)
  {
  }

  // Totals do not depend on anything but the quantities.
  lemma {:induction false} SameTotal(t: Tables, u: Tables, list: seq<string>)
    requires forall id :: id in list ==> id in t.proposals && id in u.proposals && u.proposals[id].proposal == t.proposals[id].proposal
    ensures Total(u, list) == Total(t, list)
    decreases |list|
  {
    if list != [] {
      SameTotal(t, u, list[..|list| - 1]);
    }
  }

  lemma BankKept(ids: TransferIds, s: System, x: System)
    requires BankRight(ids, s) && x.bank == s.bank && x.posted == s.posted
    requires forall id :: id in s.t.proposals ==> id in x.t.proposals && x.t.proposals[id].proposal == s.t.proposals[id].proposal
    ensures BankRight(ids, x)
  {
    SameTotal(s.t, x.t, s.posted);
  }

  // A step that leaves TigerBeetle and the entries alone.
  lemma InvKept(ids: TransferIds, s: System, x: System)
    requires Inv(ids, s) && Grows(s, x) && x.bank == s.bank && x.posted == s.posted && x.asked == s.asked
    requires x.t.entries == s.t.entries && x.t.outbox == s.t.outbox
    requires forall w :: At(x, w) == At(s, w) || CallerRight(x, w)
    requires ProposalsRight(x.t) && LocksApart(x)
    ensures Inv(ids, x)
  {
    hide BankRight, EntryRight, CallerRight, LocksApart, ProposalRight;
    EntriesKept(ids, s, x);
    CallersKept(s, x);
    BankKept(ids, s, x);
  }

  lemma ProposeEffect(t: Tables, p: Proposal, now: int)
    ensures var u := Proposed(t, p, now).1;
            u == t || (p.entryID !in t.proposals && p.Storable() && u == t.(proposals := t.proposals[p.entryID := Record(p, now, false)]))
  {
  }

  lemma ProposeKeepsInv(ids: TransferIds, s: System, step: Step)
    requires Inv(ids, s) && step.Propose?
    ensures Inv(ids, Apply(ids, s, step))
  {
    ProposeEffect(s.t, step.p, step.now);
    ProposeApplied(ids, s, step);
    ProposedInv(ids, s, Proposed(s.t, step.p, step.now).1, step.p, step.now);
  }

  lemma ProposedInv(ids: TransferIds, s: System, u: Tables, p: Proposal, now: int)
    requires Inv(ids, s)
    requires u == s.t || (p.entryID !in s.t.proposals && p.Storable() && u == s.t.(proposals := s.t.proposals[p.entryID := Record(p, now, false)]))
    ensures Inv(ids, s.(t := u))
  {
    hide BankRight, EntryRight, CallerRight, LocksApart, ProposalRight, Identifier;
    var x := s.(t := u);
    if u != s.t {
      NewProposal(ids, s, x, p, now);
      NoNewLock(s, x);
      InvKept(ids, s, x);
    } else {
      assert x == s;
    }
  }

  lemma ProposeApplied(ids: TransferIds, s: System, step: Step)
    requires step.Propose?
    ensures Apply(ids, s, step) == s.(t := Proposed(s.t, step.p, step.now).1)
  {
    hide Proposed;
  }

  lemma NewProposal(ids: TransferIds, s: System, x: System, p: Proposal, now: int)
    requires ProposalsRight(s.t) && EntriesRight(ids, s) && p.entryID !in s.t.proposals && p.Storable()
    requires x.t == s.t.(proposals := s.t.proposals[p.entryID := Record(p, now, false)])
    ensures ProposalsRight(x.t)
  {
    hide Hex;
    assert p.entryID in s.t.entries ==> EntryRight(ids, s, p.entryID);
    forall id | id in x.t.proposals ensures ProposalRight(x.t, id) {
      assert id in s.t.proposals ==> ProposalRight(s.t, id);
    }
  }

  lemma BeginKeepsInv(ids: TransferIds, s: System, step: Step)
    requires Inv(ids, s) && step.Begin? && Enabled(s, step)
    ensures Inv(ids, Apply(ids, s, step))
  {
    BeginApplied(ids, s, step);
    if Apply(ids, s, step) != s {
      assert ProposalRight(s.t, step.entryID);
      BeginLocks(s, step);
      BegunInv(ids, s, step.w, step.entryID, step.confirmedBy);
    }
  }

  lemma BegunInv(ids: TransferIds, s: System, w: string, id: string, confirmedBy: string)
    requires Inv(ids, s) && id in s.t.proposals && !s.t.proposals[id].confirmed && s.t.proposals[id].proposal.proposedBy != confirmedBy
    requires LocksApart(Moved(s, w, Loaded(s.t.proposals[id], confirmedBy)))
    ensures Inv(ids, Moved(s, w, Loaded(s.t.proposals[id], confirmedBy)))
  {
    var x := Moved(s, w, Loaded(s.t.proposals[id], confirmedBy));
    BegunCaller(s, w, id, confirmedBy);
    hide BankRight, EntryRight, CallerRight, LocksApart, ProposalRight, Identifier;
    InvKept(ids, s, x);
  }

  lemma BegunCaller(s: System, w: string, id: string, confirmedBy: string)
    requires ProposalsRight(s.t) && id in s.t.proposals && !s.t.proposals[id].confirmed && s.t.proposals[id].proposal.proposedBy != confirmedBy
    ensures CallerRight(Moved(s, w, Loaded(s.t.proposals[id], confirmedBy)), w)
  {
    hide Identifier;
    assert ProposalRight(s.t, id);
  }

  lemma BeginApplied(ids: TransferIds, s: System, step: Step)
    requires step.Begin? && Enabled(s, step)
    ensures var x := Apply(ids, s, step);
            x == s || (&& step.entryID in s.t.proposals && !s.t.proposals[step.entryID].confirmed
                       && s.t.proposals[step.entryID].proposal.proposedBy != step.confirmedBy
                       && x == Moved(s, step.w, Loaded(s.t.proposals[step.entryID], step.confirmedBy)))
  {
  }

  lemma BeginLocks(s: System, step: Step)
    requires LocksApart(s) && step.Begin? && Enabled(s, step)
    requires step.entryID in s.t.proposals && s.t.proposals[step.entryID].proposal.entryID == step.entryID
    ensures LocksApart(Moved(s, step.w, Loaded(s.t.proposals[step.entryID], step.confirmedBy)))
  {
    var x := Moved(s, step.w, Loaded(s.t.proposals[step.entryID], step.confirmedBy));
    forall v, w | v != w && !At(x, v).Idle? && !At(x, w).Idle? ensures EntryOf(At(x, v)) != EntryOf(At(x, w)) {
      assert v != step.w ==> At(x, v) == At(s, v);
      assert w != step.w ==> At(x, w) == At(s, w);
    }
  }

  lemma CrashKeepsInv(ids: TransferIds, s: System, w: string)
    requires Inv(ids, s)
    ensures Inv(ids, Moved(s, w, Idle))
  {
    hide BankRight, EntryRight;
    var x := Moved(s, w, Idle);
    NoNewLock(s, x);
    EntriesKept(ids, s, x);
    CallersKept(s, x);
    BankKept(ids, s, x);
  }

  // TigerBeetle's side of a post that reaches it.
  lemma BankAfterPost(ids: TransferIds, s: System, id: string)
    requires Injective(ids) && BankRight(ids, s) && id in s.t.proposals && s.t.proposals[id].proposal.quantity > 0
    ensures var (status, bank) := CreateTransfer(s.bank, ids(id), s.t.proposals[id].proposal.quantity);
            var posted := if status == Created then s.posted + [id] else s.posted;
            && status != ExistsDifferent && (status == Exists <==> id in s.posted) && id in posted
            && (status == Exists ==> bank == s.bank)
            && BankRight(ids, s.(bank := bank, posted := posted))
  {
    if ids(id) in s.bank.transfers {
      var other :| other in s.posted && ids(other) == ids(id);
      assert other == id;
    } else {
      NewTransfer(ids, s, id);
    }
  }

  lemma OneMoreTotal(t: Tables, list: seq<string>, id: string)
    requires id in t.proposals && forall e :: e in list ==> e in t.proposals
    ensures Total(t, list + [id]) == Total(t, list) + t.proposals[id].proposal.quantity
  {
    assert (list + [id])[..|list|] == list;
  }

  lemma NewTransfer(ids: TransferIds, s: System, id: string)
    requires Injective(ids) && BankRight(ids, s) && id in s.t.proposals && s.t.proposals[id].proposal.quantity > 0
    requires ids(id) !in s.bank.transfers
    ensures var quantity := s.t.proposals[id].proposal.quantity;
            && id !in s.posted
            && BankRight(ids, s.(bank := Bank(s.bank.transfers[ids(id) := quantity], s.bank.moved + quantity), posted := s.posted + [id]))
  {
    var quantity := s.t.proposals[id].proposal.quantity;
    OneMoreTotal(s.t, s.posted, id);
    TransfersCovered(ids, s.posted, s.bank.transfers, id, quantity);
    TransfersRight(ids, s, id);
    hide Distinct, AmountsRight, Covered, Total, Injective;
    assert AmountsRight(ids, s.t, s.bank.transfers[ids(id) := quantity], s.posted + [id]);
  }

  lemma TransfersRight(ids: TransferIds, s: System, id: string)
    requires Injective(ids) && id in s.t.proposals && s.t.proposals[id].proposal.quantity > 0
    requires Distinct(s.posted) && AmountsRight(ids, s.t, s.bank.transfers, s.posted)
    requires ids(id) !in s.bank.transfers
    ensures id !in s.posted && Distinct(s.posted + [id])
    ensures AmountsRight(ids, s.t, s.bank.transfers[ids(id) := s.t.proposals[id].proposal.quantity], s.posted + [id])
  {
  }

  lemma TransfersCovered(ids: TransferIds, posted: seq<string>, transfers: map<Id, nat>, id: string, quantity: nat)
    requires Covered(ids, transfers, posted)
    ensures Covered(ids, transfers[ids(id) := quantity], posted + [id])
  {
    var more := transfers[ids(id) := quantity];
    forall x | x in more ensures exists e :: e in posted + [id] && ids(e) == x {
      if x == ids(id) {
        assert id in posted + [id];
      } else {
        var e :| e in posted && ids(e) == x;
        assert e in posted + [id];
      }
    }
  }

  // What a post does, on the rows' side nothing.
  lemma PostApplied(ids: TransferIds, s: System, step: Step)
    requires step.Post? && Enabled(s, step) && At(s, step.w).record.proposal.quantity > 0
    ensures var x, local := Apply(ids, s, step), At(s, step.w);
            var p := local.record.proposal;
            if !Postable(p.entryID, p.quantity) then x == Moved(s, step.w, Idle)
            else if !step.reaches then x == Moved(s, step.w, Idle).(asked := s.asked + {(p.entryID, p.quantity)})
            else
              var (status, bank) := CreateTransfer(s.bank, ids(p.entryID), p.quantity);
              && x.t == s.t && x.asked == s.asked && x.bank == bank && x.posted == (if status == Created then s.posted + [p.entryID] else s.posted)
              && x.callers == s.callers[step.w := At(x, step.w)]
              && (At(x, step.w).Idle? || At(x, step.w) == Ready(local.record, local.confirmedBy))
  {
    hide Identifier, Blank;
  }

  lemma PostKeepsInv(ids: TransferIds, s: System, step: Step)
    requires Injective(ids) && Inv(ids, s) && step.Post? && Enabled(s, step)
    ensures Inv(ids, Apply(ids, s, step))
  {
    var id := EntryOf(At(s, step.w));
    assert CallerRight(s, step.w) && ProposalRight(s.t, id);
    PostApplied(ids, s, step);
    hide Apply, Identifier, Blank, Hex, EntryRight;
    if !Postable(id, At(s, step.w).record.proposal.quantity) {
      CrashKeepsInv(ids, s, step.w);
    } else if !step.reaches {
      CrashKeepsInv(ids, s, step.w);
      AskedKeepsInv(ids, Moved(s, step.w, Idle), id, s.t.proposals[id].proposal.quantity);
    } else {
      BankAfterPost(ids, s, id);
      PostedInv(ids, s, Apply(ids, s, step), step.w);
    }
  }

  lemma AskedKeepsInv(ids: TransferIds, s: System, id: string, quantity: nat)
    requires Inv(ids, s) && id in s.t.proposals && s.t.proposals[id].proposal.quantity == quantity && quantity > 0
    ensures Inv(ids, s.(asked := s.asked + {(id, quantity)}))
  {
    hide BankRight, EntryRight, CallerRight, ProposalRight, LocksApart;
    var x := s.(asked := s.asked + {(id, quantity)});
    EntriesKept(ids, s, x);
    CallersKept(s, x);
    SameLocks(s, x);
    BankKept(ids, s, x);
  }

  lemma SameLocks(s: System, x: System)
    requires LocksApart(s) && x.callers == s.callers
    ensures LocksApart(x)
  {
    forall v, w | v != w && !At(x, v).Idle? && !At(x, w).Idle? ensures EntryOf(At(x, v)) != EntryOf(At(x, w)) {
      assert At(x, v) == At(s, v) && At(x, w) == At(s, w);
    }
  }

  lemma PostedCaller(s: System, x: System, w: string)
    requires CallersRight(s) && LocksApart(s) && At(s, w).Loaded? && EntryOf(At(s, w)) in x.posted
    requires x.t == s.t && x.callers == s.callers[w := At(x, w)]
    requires At(x, w).Idle? || At(x, w) == Ready(At(s, w).record, At(s, w).confirmedBy)
    ensures CallerRight(x, w) && LocksApart(x) && forall v :: v != w ==> At(x, v) == At(s, v)
  {
    assert CallerRight(s, w);
    forall v ensures v != w ==> At(x, v) == At(s, v) {
    }
    hide CallerRight;
    NoNewLock(s, x);
  }

  lemma PostedInv(ids: TransferIds, s: System, x: System, w: string)
    requires Inv(ids, s) && BankRight(ids, s.(bank := x.bank, posted := x.posted))
    requires At(s, w).Loaded? && EntryOf(At(s, w)) in x.posted && (forall id :: id in s.posted ==> id in x.posted)
    requires x.t == s.t && x.asked == s.asked && x.callers == s.callers[w := At(x, w)]
    requires At(x, w).Idle? || At(x, w) == Ready(At(s, w).record, At(s, w).confirmedBy)
    ensures Inv(ids, x)
  {
    PostedCaller(s, x, w);
    hide EntryRight, BankRight, CallerRight, ProposalRight, LocksApart, At;
    EntriesKept(ids, s, x);
    CallersKept(s, x);
    BankKept(ids, s.(bank := x.bank, posted := x.posted), x);
  }

  lemma ArrivedInv(ids: TransferIds, s: System, x: System)
    requires Inv(ids, s) && BankRight(ids, x) && x == s.(bank := x.bank, posted := x.posted)
    requires forall id :: id in s.posted ==> id in x.posted
    ensures Inv(ids, x)
  {
    hide EntryRight, BankRight, CallerRight, ProposalRight, LocksApart;
    SameLocks(s, x);
    EntriesKept(ids, s, x);
    SameCallers(s, x);
  }

  lemma ArriveApplied(ids: TransferIds, s: System, step: Step)
    requires Injective(ids) && BankRight(ids, s) && step.Arrive? && Enabled(s, step)
    requires step.entryID in s.t.proposals && s.t.proposals[step.entryID].proposal.quantity == step.quantity > 0
    ensures var x := Apply(ids, s, step);
            BankRight(ids, x) && x == s.(bank := x.bank, posted := x.posted) && forall id :: id in s.posted ==> id in x.posted
  {
    BankAfterPost(ids, s, step.entryID);
    hide BankRight, Injective;
  }

  lemma ArriveKeepsInv(ids: TransferIds, s: System, step: Step)
    requires Injective(ids) && Inv(ids, s) && step.Arrive? && Enabled(s, step)
    ensures Inv(ids, Apply(ids, s, step))
  {
    ArriveApplied(ids, s, step);
    hide Apply, BankRight;
    ArrivedInv(ids, s, Apply(ids, s, step));
  }

  lemma SameCallers(s: System, x: System)
    requires CallersRight(s) && Grows(s, x) && x.callers == s.callers
    ensures CallersRight(x)
  {
    assert forall w :: At(x, w) == At(s, w);
    hide CallerRight;
    CallersKept(s, x);
  }

  lemma CommitKeepsInv(ids: TransferIds, s: System, step: Step)
    requires Inv(ids, s) && step.Commit? && Enabled(s, step)
    ensures Inv(ids, Apply(ids, s, step))
  {
    hide Identifier, Blank, Hex, BankRight;
    var x, local := Apply(ids, s, step), At(s, step.w);
    var id := EntryOf(local);
    assert CallerRight(s, step.w) && ProposalRight(s.t, id);
    if Confirmed(s.t, local.record, Hex(ids(id)), local.confirmedBy, step.now).None? {
      CrashKeepsInv(ids, s, step.w);
    } else {
      CommittedRows(ids, s, x, step.w, step.now);
      CommittedCallers(s, x, step.w);
      BankKept(ids, s, x);
      assert AskedRight(x);
    }
  }

  lemma CallerHolds(ids: TransferIds, s: System, w: string)
    requires Inv(ids, s) && !At(s, w).Idle?
    ensures CallerRight(s, w) && EntryOf(At(s, w)) in s.t.proposals && ProposalRight(s.t, EntryOf(At(s, w)))
  {
    assert CallerRight(s, w);
  }

  // What a commit does to the tables, for an entry that was not there.
  lemma CommitEffect(t: Tables, r: Record, transferID: string, confirmedBy: string, now: int, u: Tables)
    requires Confirmed(t, r, transferID, confirmedBy, now) == Some(u) && r.proposal.entryID in t.proposals && r.proposal.entryID !in t.entries
    ensures var id := r.proposal.entryID;
            && u.proposals == t.proposals[id := t.proposals[id].(confirmed := true)]
            && u.entries == t.entries[id := Entry(r.proposal, transferID, r.proposedAt, confirmedBy, now)]
            && |u.outbox| == |t.outbox| + 1 && |u.entries| == |t.entries| + 1
            && r.proposal.proposedBy != confirmedBy && r.proposedAt <= now && r.proposal.level != Unclassified
  {
    assert u.entries.Keys == t.entries.Keys + {r.proposal.entryID};
  }

  lemma CommittedEntries(ids: TransferIds, s: System, x: System, id: string, e: Entry)
    requires EntriesRight(ids, s) && ProposalsRight(s.t) && id in s.t.proposals && x.posted == s.posted
    requires x.t.proposals == s.t.proposals[id := s.t.proposals[id].(confirmed := true)] && x.t.entries == s.t.entries[id := e]
    requires EntryRight(ids, x, id)
    ensures ProposalsRight(x.t) && EntriesRight(ids, x)
  {
    hide Identifier, Hex;
    forall p | p in x.t.proposals ensures ProposalRight(x.t, p) {
      assert ProposalRight(s.t, p);
    }
    forall p | p in x.t.entries ensures EntryRight(ids, x, p) {
      assert p in s.t.entries ==> EntryRight(ids, s, p);
    }
  }

  lemma CommittedTables(ids: TransferIds, s: System, x: System, local: Local, now: int)
    requires EntriesRight(ids, s) && ProposalsRight(s.t) && |s.t.outbox| == |s.t.entries|
    requires local.Ready? && EntryOf(local) in s.posted && x.posted == s.posted
    requires EntryOf(local) in s.t.proposals && local.record == s.t.proposals[EntryOf(local)] && EntryOf(local) !in s.t.entries
    requires Confirmed(s.t, local.record, Hex(ids(EntryOf(local))), local.confirmedBy, now) == Some(x.t)
    ensures ProposalsRight(x.t) && EntriesRight(ids, x) && |x.t.outbox| == |x.t.entries|
  {
    hide Confirmed, Identifier, Hex, EntriesRight, ProposalsRight;
    var id := EntryOf(local);
    CommitEffect(s.t, local.record, Hex(ids(id)), local.confirmedBy, now, x.t);
    CommittedEntries(ids, s, x, id, x.t.entries[id]);
  }

  lemma CommittedRows(ids: TransferIds, s: System, x: System, w: string, now: int)
    requires Inv(ids, s) && At(s, w).Ready? && x.posted == s.posted
    requires Confirmed(s.t, At(s, w).record, Hex(ids(EntryOf(At(s, w)))), At(s, w).confirmedBy, now) == Some(x.t)
    ensures ProposalsRight(x.t) && EntriesRight(ids, x) && |x.t.outbox| == |x.t.entries|
  {
    CallerHolds(ids, s, w);
    hide Confirmed, Hex, BankRight, CallersRight, LocksApart, AskedRight, EntriesRight, ProposalsRight, Identifier;
    CommittedTables(ids, s, x, At(s, w), now);
  }

  lemma CommittedCallers(s: System, x: System, w: string)
    requires CallersRight(s) && LocksApart(s) && At(s, w).Ready? && x.callers == s.callers[w := Idle] && x.posted == s.posted
    requires forall id :: id in s.t.proposals && id != EntryOf(At(s, w)) ==> id in x.t.proposals && x.t.proposals[id] == s.t.proposals[id]
    ensures CallersRight(x) && LocksApart(x)
  {
    NoNewLock(s, x);
    forall v ensures CallerRight(x, v) {
      assert CallerRight(s, v);
    }
  }

  lemma StepKeepsInv(ids: TransferIds, s: System, step: Step)
    requires Injective(ids) && Inv(ids, s) && Enabled(s, step)
    ensures Inv(ids, Apply(ids, s, step))
  {
    match step
    case Propose(_, _) => ProposeKeepsInv(ids, s, step);
    case Begin(_, _, _) => BeginKeepsInv(ids, s, step);
    case Post(_, _, _) => PostKeepsInv(ids, s, step);
    case Arrive(_, _) => ArriveKeepsInv(ids, s, step);
    case Commit(_, _) => CommitKeepsInv(ids, s, step);
    case Crash(w) => CrashKeepsInv(ids, s, w);
  }

  lemma {:induction false} ReachableStates(ids: TransferIds, steps: seq<Step>)
    requires Injective(ids)
    ensures Inv(ids, Exec(ids, steps))
    decreases |steps|
  {
    if steps != [] {
      ReachableStates(ids, steps[..|steps| - 1]);
      if Enabled(Exec(ids, steps[..|steps| - 1]), steps[|steps| - 1]) {
        StepKeepsInv(ids, Exec(ids, steps[..|steps| - 1]), steps[|steps| - 1]);
      }
    }
  }

  // ---------------------------------------------------------------------------
  // Main results
  // ---------------------------------------------------------------------------

  /** What was moved in all is the sum of the quantities of the distinct entries ever posted, each by one transfer. */
  lemma Conservation(ids: TransferIds, steps: seq<Step>)
    requires Injective(ids)
    ensures var s := Exec(ids, steps);
            && (forall id :: id in s.posted ==> id in s.t.proposals)
            && s.bank.moved == Total(s.t, s.posted)
            && Distinct(s.posted)
            && |s.bank.transfers| == |s.posted|
            && (forall id :: id in s.posted ==> ids(id) in s.bank.transfers && s.bank.transfers[ids(id)] == s.t.proposals[id].proposal.quantity)
  {
    ReachableStates(ids, steps);
    var s := Exec(ids, steps);
    AsMany(ids, s.bank.transfers.Keys, s.posted);
  }

  lemma {:induction false} AsMany(ids: TransferIds, keys: set<Id>, posted: seq<string>)
    requires Injective(ids) && Distinct(posted)
    requires forall id :: id in posted ==> ids(id) in keys
    requires forall x :: x in keys ==> exists id :: id in posted && ids(id) == x
    ensures |keys| == |posted|
    decreases |posted|
  {
    if posted == [] {
      assert keys == {};
    } else {
      var front, last := posted[..|posted| - 1], posted[|posted| - 1];
      assert last in posted;
      forall id | id in front ensures ids(id) in keys - {ids(last)} {
        assert id in posted && id != last;
      }
      forall x | x in keys - {ids(last)} ensures exists id :: id in front && ids(id) == x {
        var id :| id in posted && ids(id) == x;
        assert id in front;
      }
      AsMany(ids, keys - {ids(last)}, front);
    }
  }

  /**
    Every confirmed entry has one transfer, of exactly its proposal's quantity, which its row names,
    and was confirmed by someone other than its proposer, not before it was proposed.
   */
  lemma ConfirmedEntries(ids: TransferIds, steps: seq<Step>, id: string)
    requires Injective(ids) && id in Exec(ids, steps).t.entries
    ensures var s := Exec(ids, steps);
            var e := s.t.entries[id];
            && id in s.t.proposals && s.t.proposals[id].confirmed && e.proposal == s.t.proposals[id].proposal
            && e.confirmedBy != e.proposal.proposedBy && e.confirmedAt >= e.proposedAt
            && (forall x :: (x in s.bank.transfers && Hex(x) == e.transferID) <==> x == ids(id))
            && s.bank.transfers[ids(id)] == e.proposal.quantity
            && e.proposal.level != Unclassified
  {
    ReachableStates(ids, steps);
    var s := Exec(ids, steps);
    assert EntryRight(ids, s, id);
    forall x | x in s.bank.transfers && Hex(x) == s.t.entries[id].transferID ensures x == ids(id) {
      HexInjective(x, ids(id));
    }
  }

  /** A retry after a crash or a lost answer finds the transfer there and moves nothing. */
  lemma RetryMovesNothing(ids: TransferIds, steps: seq<Step>, step: Step)
    requires Injective(ids) && step.Post? && Enabled(Exec(ids, steps), step)
    requires EntryOf(At(Exec(ids, steps), step.w)) in Exec(ids, steps).posted
    ensures var s := Exec(ids, steps);
            var x := Apply(ids, s, step);
            && x.bank == s.bank && x.posted == s.posted
            && (step.reaches && step.heard <==> At(x, step.w).Ready?)
  {
    ReachableStates(ids, steps);
    RetryAtOnce(ids, Exec(ids, steps), step);
  }

  // A post that finds its transfer there.
  lemma PostFindsTransfer(ids: TransferIds, s: System, step: Step)
    requires step.Post? && Enabled(s, step)
    requires var p := At(s, step.w).record.proposal;
             && Postable(p.entryID, p.quantity) && p.quantity >= 0
             && CreateTransfer(s.bank, ids(p.entryID), p.quantity) == (Exists, s.bank)
    ensures var x := Apply(ids, s, step);
            x.bank == s.bank && x.posted == s.posted && (step.reaches && step.heard <==> At(x, step.w).Ready?)
  {
    hide Identifier, Blank, Postable, CreateTransfer;
  }

  lemma RetryAtOnce(ids: TransferIds, s: System, step: Step)
    requires Injective(ids) && Inv(ids, s) && step.Post? && Enabled(s, step) && EntryOf(At(s, step.w)) in s.posted
    ensures var x := Apply(ids, s, step);
            x.bank == s.bank && x.posted == s.posted && (step.reaches && step.heard <==> At(x, step.w).Ready?)
  {
    var id := EntryOf(At(s, step.w));
    CallerHolds(ids, s, step.w);
    hide Apply, BankRight, EntriesRight, CallersRight, LocksApart, AskedRight, Injective, Identifier, Blank;
    IdentifierNotBlank(id);
    BankAfterPost(ids, s, id);
    PostFindsTransfer(ids, s, step);
  }

  /** Nor does a request that reaches TigerBeetle after its caller gave up, once the entry is posted. */
  lemma LateRequestMovesNothing(ids: TransferIds, steps: seq<Step>, step: Step)
    requires Injective(ids) && step.Arrive? && Enabled(Exec(ids, steps), step) && step.entryID in Exec(ids, steps).posted
    ensures Apply(ids, Exec(ids, steps), step) == Exec(ids, steps)
  {
    ReachableStates(ids, steps);
    BankAfterPost(ids, Exec(ids, steps), step.entryID);
    hide BankRight, EntryRight;
  }

  lemma IdentifierNotBlank(id: string)
    requires Identifier(id)
    ensures !Blank(id) && |id| <= 128
  {
    assert !IsSpace(id[0]);
  }

  /**
    A confirmation whose transfer is posted commits exactly when the proposal is not UNCLASSIFIED and
    the clock has not fallen behind the proposal: the platform label INTERNAL does not pass the check
    on the outbox column.
   */
  lemma CommitsExactly(ids: TransferIds, steps: seq<Step>, step: Step)
    requires Injective(ids) && step.Commit? && Enabled(Exec(ids, steps), step)
    ensures var s := Exec(ids, steps);
            var x, local := Apply(ids, s, step), At(s, step.w);
            EntryOf(local) in x.t.entries <==> local.record.proposal.level != Unclassified && step.now >= local.record.proposedAt
  {
    ReachableStates(ids, steps);
    CommitsAtOnce(ids, Exec(ids, steps), step);
  }

  lemma CommitsAtOnce(ids: TransferIds, s: System, step: Step)
    requires Inv(ids, s) && step.Commit? && Enabled(s, step)
    ensures var x, local := Apply(ids, s, step), At(s, step.w);
            EntryOf(local) in x.t.entries <==> local.record.proposal.level != Unclassified && step.now >= local.record.proposedAt
  {
    hide Identifier, Hex, BankRight, EntryRight;
    assert CallerRight(s, step.w) && ProposalRight(s.t, EntryOf(At(s, step.w)));
  }

  /** The outbox column of a committed outcome is the entry's own label unless the entry is SECRET. */
  lemma OutboxLabelExactly(t: Tables, r: Record, transferID: string, confirmedBy: string, now: int)
    requires Known(r.proposal.level) && Confirmed(t, r, transferID, confirmedBy, now).Some?
    ensures var outbox := Confirmed(t, r, transferID, confirmedBy, now).value.outbox;
            |outbox| == |t.outbox| + 1 && (outbox[|t.outbox|].column == LabelText(r.proposal.level) <==> r.proposal.level != Secret)
  {
  }

  /** So an UNCLASSIFIED proposal can be posted, and is then never confirmed by any continuation. */
  lemma UnclassifiedIsStranded(ids: TransferIds, p: Proposal, confirmer: string)
    requires Injective(ids) && p.Storable() && p.level == Unclassified && confirmer != p.proposedBy && 0 < |confirmer| <= 128
    ensures var steps := [Propose(p, 0), Begin("w", p.entryID, confirmer), Post("w", true, true), Commit("w", 1)];
            var s := Exec(ids, steps);
            s.bank.moved == p.quantity && s.posted == [p.entryID] && p.entryID !in s.t.entries
    ensures forall more :: var steps := [Propose(p, 0), Begin("w", p.entryID, confirmer), Post("w", true, true), Commit("w", 1)] + more;
              p.entryID !in Exec(ids, steps).t.entries
  {
    var s1, s2, s3, s4 := Propose(p, 0), Begin("w", p.entryID, confirmer), Post("w", true, true), Commit("w", 1);
    var steps := [s1, s2, s3, s4];
    StrandedRun(ids, p, confirmer);
    forall more ensures p.entryID !in Exec(ids, steps + more).t.entries {
      ProposalStays(ids, steps, more, p.entryID);
      if p.entryID in Exec(ids, steps + more).t.entries {
        ConfirmedEntries(ids, steps + more, p.entryID);
      }
    }
  }

  lemma StrandedRun(ids: TransferIds, p: Proposal, confirmer: string)
    requires Injective(ids) && p.Storable() && p.level == Unclassified && confirmer != p.proposedBy && 0 < |confirmer| <= 128
    ensures var steps := [Propose(p, 0), Begin("w", p.entryID, confirmer), Post("w", true, true), Commit("w", 1)];
            var s := Exec(ids, steps);
            && s.bank.moved == p.quantity && s.posted == [p.entryID]
            && p.entryID in s.t.proposals && s.t.proposals[p.entryID].proposal == p && p.entryID !in s.t.entries
  {
    var s1, s2, s3, s4 := Propose(p, 0), Begin("w", p.entryID, confirmer), Post("w", true, true), Commit("w", 1);
    IdentifierNotBlank(p.entryID);
    assert [s1, s2, s3, s4][..3] == [s1, s2, s3] && [s1, s2, s3][..2] == [s1, s2] && [s1, s2][..1] == [s1] && [s1][..0] == [];
    var a := Exec(ids, [s1]);
    assert Exec(ids, []) == START && Enabled(START, s1);
    assert a == Apply(ids, START, s1) && a.t.proposals == map[p.entryID := Record(p, 0, false)];
    var b := Exec(ids, [s1, s2]);
    assert Enabled(a, s2) && b == Moved(a, "w", Loaded(Record(p, 0, false), confirmer));
    var c := Exec(ids, [s1, s2, s3]);
    assert At(c, "w") == Ready(Record(p, 0, false), confirmer) && c.bank.moved == p.quantity && c.posted == [p.entryID];
  }

  /** A proposal never changes and is never lost. */
  lemma {:induction false} ProposalStays(ids: TransferIds, steps: seq<Step>, more: seq<Step>, id: string)
    requires Injective(ids) && id in Exec(ids, steps).t.proposals
    ensures id in Exec(ids, steps + more).t.proposals
    ensures Exec(ids, steps + more).t.proposals[id].proposal == Exec(ids, steps).t.proposals[id].proposal
    decreases |more|
  {
    if more == [] {
      assert steps + more == steps;
    } else {
      var front := more[..|more| - 1];
      ProposalStays(ids, steps, front, id);
      assert (steps + more)[..|steps + more| - 1] == steps + front;
    }
  }

  /** A confirmed entry is immutable. */
  lemma EntriesAreImmutable(ids: TransferIds, steps: seq<Step>, step: Step, id: string)
    requires Injective(ids) && Enabled(Exec(ids, steps), step) && id in Exec(ids, steps).t.entries
    ensures var x := Apply(ids, Exec(ids, steps), step); id in x.t.entries && x.t.entries[id] == Exec(ids, steps).t.entries[id]
  {
    ReachableStates(ids, steps);
    EntryStays(ids, Exec(ids, steps), step, id);
  }

  lemma EntryStays(ids: TransferIds, s: System, step: Step, id: string)
    requires Inv(ids, s) && Enabled(s, step) && id in s.t.entries
    ensures var x := Apply(ids, s, step); id in x.t.entries && x.t.entries[id] == s.t.entries[id]
  {
    hide Identifier, Blank, Hex, BankRight, EntryRight;
    if step.Commit? {
      assert CallerRight(s, step.w) && ProposalRight(s.t, EntryOf(At(s, step.w)));
    }
  }

  // ---------------------------------------------------------------------------
  // The operations, field by field
  // ---------------------------------------------------------------------------

  /** An outcome is accepted exactly with identifiers, a count that fits int64, an approved label, and its kind's metric and unit. */
  predicate Acceptable(p: Proposal) {
    && Identifier(p.entryID) && Identifier(p.incidentRef) && Identifier(p.proposedBy)
    && 1 <= p.quantity <= 9_223_372_036_854_775_807
    && p.level in {Unclassified, Restricted, Confidential, Secret}
    && (p.kind, p.metric, p.unit) in {
         ("incident-verified", "incident-reduction-count", "incidents"),
         ("premium-delta", "premium-delta-basis-points", "basis-points")}
  }

  /** A proposal is recorded once, and accepted again exactly when nothing of it differs. */
  lemma ProposeExactly(t: Tables, p: Proposal, now: int)
    ensures var (r, u) := Proposed(t, p, now);
            var known := p.entryID in t.proposals;
            && (r.Ok? <==> Acceptable(p) && (known ==> t.proposals[p.entryID].proposal == p))
            && (r == Err(Conflict) <==> Acceptable(p) && known && t.proposals[p.entryID].proposal != p)
            && (r.Err? || known ==> u == t)
            && (r.Ok? && !known ==>
                  && u.proposals == t.proposals[p.entryID := Record(p, now, false)]
                  && u.entries == t.entries && u.outbox == t.outbox)
  {
    hide Identifier;
    assert Identifier(p.entryID) ==> 1 <= |p.entryID| <= 128 by { IdentifierBounds(p.entryID); }
    assert Identifier(p.incidentRef) ==> 1 <= |p.incidentRef| <= 128 by { IdentifierBounds(p.incidentRef); }
    assert Identifier(p.proposedBy) ==> 1 <= |p.proposedBy| <= 128 by { IdentifierBounds(p.proposedBy); }
  }

  lemma IdentifierBounds(s: string)
    ensures Identifier(s) ==> 1 <= |s| <= 128
  {
  }

  /** What each refusal means, when a confirmation goes through, and every row and transfer it leaves. */
  lemma ConfirmExactly(
      ids: TransferIds, t: Tables, bank: Bank, entryID: string, confirmedBy: string, reaches: bool, heard: bool, now: int)
    requires entryID in t.proposals ==> t.proposals[entryID].proposal.quantity > 0 && t.proposals[entryID].proposal.entryID == entryID
    ensures var (r, u, after) := ConfirmEffect(ids, t, bank, entryID, confirmedBy, reaches, heard, now);
            var id, named, known := ids(entryID), 1 <= |confirmedBy| <= 128, entryID in t.proposals;
            && (r == Err(Invalid) <==> !named)
            && (r == Err(NotFound) <==> named && !known)
            && (known ==>
                  var record := t.proposals[entryID];
                  var p := record.proposal;
                  var asks := named && p.proposedBy != confirmedBy && !record.confirmed && !Blank(entryID) && |entryID| <= 128;
                  var agrees := id in bank.transfers ==> bank.transfers[id] == p.quantity;
                  && (r == Err(DualControl) <==> named && p.proposedBy == confirmedBy)
                  && (r == Err(AlreadyConfirmed) <==> named && p.proposedBy != confirmedBy && record.confirmed)
                  && (r == Err(PostFailed) <==> asks && !(reaches && heard))
                  && (r.Ok? <==> && asks && reaches && heard && agrees && entryID !in t.entries && record.proposedAt <= now
                                 && p.level in {Restricted, Confidential, Secret})
                  && (after == if asks && reaches && id !in bank.transfers
                               then Bank(bank.transfers[id := p.quantity], bank.moved + p.quantity) else bank)
                  && (r.Ok? ==>
                        && r.value == Entry(p, Hex(id), record.proposedAt, confirmedBy, now)
                        && u.entries == t.entries[entryID := r.value]
                        && u.proposals == t.proposals[entryID := Record(p, record.proposedAt, true)]
                        && u.outbox == t.outbox + [Notice(entryID, if p.level == Restricted then "RESTRICTED" else "CONFIDENTIAL")]))
            && (!known ==> after == bank)
            && (r.Err? ==> u == t)
  {
    hide Hex, Blank;
  }

  /** The caller after its first step, its second, and its last one if it got that far. */
  ghost function Undisturbed(ids: TransferIds, s: System, w: string, entryID: string, confirmedBy: string, reaches: bool, heard: bool, now: int): System
    requires At(s, w).Idle? && !Locked(s, entryID)
  {
    var begun := Apply(ids, s, Begin(w, entryID, confirmedBy));
    if At(begun, w).Idle? then begun
    else
      var posted := Apply(ids, begun, Post(w, reaches, heard));
      if At(posted, w).Idle? then posted else Apply(ids, posted, Commit(w, now))
  }

  lemma Begun(ids: TransferIds, s: System, w: string, entryID: string, confirmedBy: string)
    requires At(s, w).Idle? && !Locked(s, entryID)
    ensures var x := Apply(ids, s, Begin(w, entryID, confirmedBy));
            && x.t == s.t && x.bank == s.bank
            && if Refusal(s.t, entryID, confirmedBy).Some? then At(x, w).Idle?
               else entryID in s.t.proposals && At(x, w) == Loaded(s.t.proposals[entryID], confirmedBy)
  {
    hide Locked;
  }

  lemma Posted(ids: TransferIds, s: System, w: string, r: Record, confirmedBy: string, reaches: bool, heard: bool)
    requires At(s, w) == Loaded(r, confirmedBy) && r.proposal.quantity > 0
    ensures var x := Apply(ids, s, Post(w, reaches, heard));
            var p := r.proposal;
            var (status, after) := CreateTransfer(s.bank, ids(p.entryID), p.quantity);
            var goes := Postable(p.entryID, p.quantity) && reaches;
            && x.t == s.t && x.bank == (if goes then after else s.bank)
            && At(x, w) == if goes && heard && status != ExistsDifferent then Ready(r, confirmedBy) else Idle
  {
    hide Postable, CreateTransfer;
  }

  lemma Committed(ids: TransferIds, s: System, w: string, r: Record, confirmedBy: string, now: int)
    requires At(s, w) == Ready(r, confirmedBy)
    ensures var x := Apply(ids, s, Commit(w, now));
            var u := Confirmed(s.t, r, Hex(ids(r.proposal.entryID)), confirmedBy, now);
            x.t == (if u.Some? then u.value else s.t) && x.bank == s.bank && At(x, w).Idle?
  {
    hide Confirmed, Hex;
  }

  /** The three steps of a confirmation, with nothing between them, make of the tables and of TigerBeetle what Confirm does. */
  lemma UndisturbedConfirm(
      ids: TransferIds, steps: seq<Step>, w: string, entryID: string, confirmedBy: string, reaches: bool, heard: bool, now: int)
    requires Injective(ids) && At(Exec(ids, steps), w).Idle? && !Locked(Exec(ids, steps), entryID)
    ensures var s := Exec(ids, steps);
            && (entryID in s.t.proposals ==> s.t.proposals[entryID].proposal.quantity > 0 && s.t.proposals[entryID].proposal.entryID == entryID)
            && var x := Undisturbed(ids, s, w, entryID, confirmedBy, reaches, heard, now);
               var (_, u, after) := ConfirmEffect(ids, s.t, s.bank, entryID, confirmedBy, reaches, heard, now);
               x.t == u && x.bank == after && At(x, w).Idle?
  {
    ReachableStates(ids, steps);
    var s := Exec(ids, steps);
    assert entryID in s.t.proposals ==> ProposalRight(s.t, entryID);
    UndisturbedFrom(ids, s, w, entryID, confirmedBy, reaches, heard, now);
    hide *;
  }

  lemma UndisturbedFrom(
      ids: TransferIds, s: System, w: string, entryID: string, confirmedBy: string, reaches: bool, heard: bool, now: int)
    requires At(s, w).Idle? && !Locked(s, entryID)
    requires entryID in s.t.proposals ==> s.t.proposals[entryID].proposal.quantity > 0 && s.t.proposals[entryID].proposal.entryID == entryID
    ensures var x := Undisturbed(ids, s, w, entryID, confirmedBy, reaches, heard, now);
            var (_, u, after) := ConfirmEffect(ids, s.t, s.bank, entryID, confirmedBy, reaches, heard, now);
            x.t == u && x.bank == after && At(x, w).Idle?
  {
    Begun(ids, s, w, entryID, confirmedBy);
    hide Apply, Locked, Refusal, Confirmed, Hex, CreateTransfer, Postable, At;
    if Refusal(s.t, entryID, confirmedBy).None? {
      var begun, r := Apply(ids, s, Begin(w, entryID, confirmedBy)), s.t.proposals[entryID];
      Posted(ids, begun, w, r, confirmedBy, reaches, heard);
      var posted := Apply(ids, begun, Post(w, reaches, heard));
      if !At(posted, w).Idle? {
        Committed(ids, posted, w, r, confirmedBy, now);
      }
    }
  }
}
