/**
  Any number of outbox worker processes over one table and one broker: crashes, lease expiry, sends
  whose outcome the worker may not hear of, and processes that share an identity. What every reachable
  state keeps.
 */
module OutboxProtocol {
  import opened Base
  import opened Outbox

  // ---------------------------------------------------------------------------
  // Steps
  // ---------------------------------------------------------------------------

  /**
    Where a process is in deliverOne, and the worker identity it claimed the row under. The token is the
    attempt number the claim returned. Nothing keeps two processes from having one identity.
   */
  datatype Local =
    | Idle
    | Holding(e: nat, name: string, token: nat)
    | Heard(e: nat, name: string)
    | Unheard(e: nat, name: string, token: nat)

  /** The table, the processes' local state, and a record of every send, acceptance and effective publish mark. */
  datatype System = System(
    rows: Rows, workers: map<nat, Local>, sends: seq<(nat, nat)>, accepted: seq<nat>, marks: seq<nat>)

  const START := System(map[], map[], [], [], [])

  datatype Step =
    | Insert(e: nat, createdAt: int, payload: string, availableAt: int)
    | Take(w: nat, name: string, lease: int, locked: set<nat>, dbNow: int, appNow: int, pick: Option<nat>)
    | Send(w: nat, copies: nat, heard: bool)
    | Arrive(sent: nat)
    | Publish(w: nat, dbNow: int)
    | Release(w: nat, failure: string, retryAt: int)
    | Crash(w: nat)

  function At(s: System, w: nat): Local {
    if w in s.workers then s.workers[w] else Idle
  }

  ghost predicate Enabled(s: System, step: Step) {
    match step
    case Insert(e, _, _, _) => e !in s.rows
    case Take(w, name, lease, locked, dbNow, appNow, pick) =>
      At(s, w).Idle? && CanonicalText(name) && 0 < lease <= MAX_LEASE && Selects(s.rows, locked, dbNow, appNow - lease, pick)
    case Send(w, copies, heard) => At(s, w).Holding? && (heard ==> copies > 0)
    case Arrive(e) => exists n :: (e, n) in s.sends
    case Publish(w, _) => At(s, w).Heard?
    case Release(w, _, _) => At(s, w).Unheard?
    case Crash(w) => true
  }

  function Moved(s: System, w: nat, local: Local): System {
    s.(workers := s.workers[w := local])
  }

  /** A copy that Kafka accepts after the writer has given up on it arrives as a step of its own. */
  ghost function Apply(s: System, step: Step): System
    requires Enabled(s, step)
  {
    match step
    case Insert(e, createdAt, payload, availableAt) =>
      s.(rows := s.rows[e := Row(createdAt, payload, None, availableAt, 0, None, None)])
    case Take(w, name, _, _, dbNow, _, pick) =>
      (match pick
       case None => s
       case Some(e) => Moved(s, w, Holding(e, name, s.rows[e].attempts + 1)).(rows := Claimed(s.rows, e, name, dbNow)))
    case Send(w, copies, heard) =>
      var local := At(s, w);
      Moved(s, w, if heard then Heard(local.e, local.name) else Unheard(local.e, local.name, local.token))
        .(sends := s.sends + [(local.e, local.token)], accepted := s.accepted + Copies(local.e, copies))
    case Arrive(e) => s.(accepted := s.accepted + [e])
    case Publish(w, dbNow) =>
      var local := At(s, w);
      Moved(s, w, Idle).(
        rows := Published(s.rows, local.e, local.name, dbNow),
        marks := if Owns(s.rows, local.e, local.name) then s.marks + [local.e] else s.marks)
    case Release(w, failure, retryAt) =>
      Moved(s, w, Idle).(rows := if AcceptedFailure(failure) then Released(s.rows, At(s, w).e, At(s, w).name, Trim(failure), retryAt) else s.rows)
    case Crash(w) => Moved(s, w, Idle)
  }

  ghost predicate Runs(s: System, steps: seq<Step>) {
    steps == [] || (Runs(s, steps[..|steps| - 1]) && Enabled(Exec(s, steps[..|steps| - 1]), steps[|steps| - 1]))
  }

  ghost function Exec(s: System, steps: seq<Step>): System {
    if steps == [] then s
    else
      var before := Exec(s, steps[..|steps| - 1]);
      if Enabled(before, steps[|steps| - 1]) then Apply(before, steps[|steps| - 1]) else before
  }

  // ---------------------------------------------------------------------------
  // The invariant
  // ---------------------------------------------------------------------------

  /** Published rows were accepted, are unclaimed and carry exactly one effective mark; others carry none. */
  ghost predicate RowRight(s: System, e: nat)
    requires e in s.rows
  {
    && multiset(s.marks)[e] == (if s.rows[e].published.Some? then 1 else 0)
    && (s.rows[e].published.Some? ==> s.rows[e].claim.None? && e in s.accepted)
    && (s.rows[e].claim.Some? ==> CanonicalText(s.rows[e].claim.value.holder))
  }

  ghost predicate Issued(s: System, e: nat, token: nat) {
    e in s.rows && 1 <= token <= s.rows[e].attempts
  }

  ghost predicate WorkerRight(s: System, w: nat) {
    match At(s, w)
    case Idle => true
    case Holding(e, _, token) => Issued(s, e, token) && (e, token) !in s.sends
    case Heard(e, _) => e in s.rows && e in s.accepted
    case Unheard(e, _, token) => Issued(s, e, token)
  }

  predicate SameAttempt(a: Local, b: Local) {
    a.Holding? && b.Holding? && a.e == b.e && a.token == b.token
  }

  /** No two processes hold the same attempt. */
  ghost predicate TokensApart(s: System) {
    forall v, w :: v != w ==> !SameAttempt(At(s, v), At(s, w))
  }

  /** Every attempt is sent at most once. */
  ghost predicate SendsRight(s: System) {
    && (forall i, j :: 0 <= i < j < |s.sends| ==> s.sends[i] != s.sends[j])
    && (forall i :: 0 <= i < |s.sends| ==> Issued(s, s.sends[i].0, s.sends[i].1))
  }

  ghost predicate Inv(s: System) {
    && (forall e :: e in s.rows ==> RowRight(s, e))
    && (forall e :: e in s.marks ==> e in s.rows)
    && (forall w :: WorkerRight(s, w))
    && TokensApart(s)
    && SendsRight(s)
    && (forall e :: e in s.accepted ==> e in s.rows && exists n :: (e, n) in s.sends)
  }

  // A step that takes no new claim.
  lemma NoNewHolder(s: System, x: System)
    requires TokensApart(s) && forall w :: At(x, w).Holding? ==> At(x, w) == At(s, w)
    ensures TokensApart(x)
  {
    forall v, w | v != w ensures !SameAttempt(At(x, v), At(x, w)) {
      assert !SameAttempt(At(s, v), At(s, w));
    }
  }

  lemma InsertKeepsInv(s: System, step: Step)
    requires Inv(s) && Enabled(s, step) && step.Insert?
    ensures Inv(Apply(s, step))
  {
    var x := Apply(s, step);
    NoNewHolder(s, x);
    forall e | e in x.rows ensures RowRight(x, e) {
      if e != step.e {
        assert RowRight(s, e);
      }
    }
    forall w ensures WorkerRight(x, w) {
      assert WorkerRight(s, w);
    }
  }

  lemma ClaimedWorkers(s: System, step: Step, x: System)
    requires Inv(s) && Enabled(s, step) && step.Take? && step.pick.Some? && x == Apply(s, step)
    ensures (forall w :: WorkerRight(x, w)) && TokensApart(x)
  {
    var e := step.pick.value;
    assert (e, s.rows[e].attempts + 1) !in s.sends;
    forall w ensures WorkerRight(x, w) {
      assert WorkerRight(s, w);
    }
    forall v, w | v != w ensures !SameAttempt(At(x, v), At(x, w)) {
      assert WorkerRight(s, v) && WorkerRight(s, w) && !SameAttempt(At(s, v), At(s, w));
    }
  }

  lemma TakeKeepsInv(s: System, step: Step)
    requires Inv(s) && Enabled(s, step) && step.Take? && step.pick.Some?
    ensures Inv(Apply(s, step))
  {
    var x := Apply(s, step);
    ClaimedWorkers(s, step, x);
    hide WorkerRight, TokensApart;
    forall f | f in x.rows ensures RowRight(x, f) {
      assert RowRight(s, f);
    }
    forall i | 0 <= i < |x.sends| ensures Issued(x, x.sends[i].0, x.sends[i].1) {
      assert Issued(s, s.sends[i].0, s.sends[i].1);
    }
  }

  lemma SendKeepsInv(s: System, step: Step)
    requires Inv(s) && Enabled(s, step) && step.Send?
    ensures Inv(Apply(s, step))
  {
    var x, local := Apply(s, step), At(s, step.w);
    assert WorkerRight(s, step.w);
    NoNewHolder(s, x);
    assert x.sends[|s.sends|] == (local.e, local.token);
    assert step.copies > 0 ==> x.accepted[|s.accepted|] == local.e;
    forall e | e in x.rows ensures RowRight(x, e) {
      assert RowRight(s, e);
    }
    forall w ensures WorkerRight(x, w) {
      assert WorkerRight(s, w);
      if w != step.w && At(s, w).Holding? {
        assert !SameAttempt(At(s, w), local);
      }
    }
    forall e | e in x.accepted ensures e in x.rows && exists n :: (e, n) in x.sends {
      if e in s.accepted {
        var n :| (e, n) in s.sends;
        assert (e, n) in x.sends;
      } else {
        assert (e, local.token) in x.sends;
      }
    }
  }

  // Marking row e leaves the workers and the broker's side as they were.
  lemma MarkedWorkers(s: System, x: System, w: nat, e: nat, r: Row)
    requires Inv(s) && x.workers == s.workers[w := Idle] && x.sends == s.sends && x.accepted == s.accepted
    requires e in s.rows && r.attempts == s.rows[e].attempts && x.rows == s.rows[e := r]
    ensures (forall v :: WorkerRight(x, v)) && TokensApart(x) && SendsRight(x)
    ensures forall f :: f in x.accepted ==> f in x.rows && exists n :: (f, n) in x.sends
  {
    NoNewHolder(s, x);
    forall v ensures WorkerRight(x, v) {
      assert WorkerRight(s, v);
    }
    forall i | 0 <= i < |x.sends| ensures Issued(x, x.sends[i].0, x.sends[i].1) {
      assert Issued(s, s.sends[i].0, s.sends[i].1);
    }
  }

  lemma PublishKeepsInv(s: System, step: Step)
    requires Inv(s) && Enabled(s, step) && step.Publish?
    ensures Inv(Apply(s, step))
  {
    var x, e := Apply(s, step), At(s, step.w).e;
    assert WorkerRight(s, step.w);
    MarkedWorkers(s, x, step.w, e, x.rows[e]);
    forall f | f in x.rows ensures RowRight(x, f) {
      assert RowRight(s, f);
    }
  }

  lemma ReleaseKeepsInv(s: System, step: Step)
    requires Inv(s) && Enabled(s, step) && step.Release?
    ensures Inv(Apply(s, step))
  {
    var x, e := Apply(s, step), At(s, step.w).e;
    assert WorkerRight(s, step.w);
    MarkedWorkers(s, x, step.w, e, x.rows[e]);
    forall f | f in x.rows ensures RowRight(x, f) {
      assert RowRight(s, f);
    }
  }

  lemma OtherKeepsInv(s: System, step: Step)
    requires Inv(s) && Enabled(s, step) && (step.Arrive? || step.Crash?)
    ensures Inv(Apply(s, step))
  {
    var x := Apply(s, step);
    NoNewHolder(s, x);
    forall e | e in x.rows ensures RowRight(x, e) {
      assert RowRight(s, e);
    }
    forall w ensures WorkerRight(x, w) {
      assert WorkerRight(s, w);
    }
    if step.Arrive? {
      var n :| (step.sent, n) in s.sends;
      assert Issued(s, step.sent, n);
    }
  }

  lemma StepKeepsInv(s: System, step: Step)
    requires Inv(s) && Enabled(s, step)
    ensures Inv(Apply(s, step))
  {
    match step
    case Insert(_, _, _, _) => InsertKeepsInv(s, step);
    case Take(_, _, _, _, _, _, pick) =>
      if pick.Some? {
        TakeKeepsInv(s, step);
      }
    case Send(_, _, _) => SendKeepsInv(s, step);
    case Publish(_, _) => PublishKeepsInv(s, step);
    case Release(_, _, _) => ReleaseKeepsInv(s, step);
    case _ => OtherKeepsInv(s, step);
  }

  lemma {:induction false} ReachableStates(steps: seq<Step>)
    requires Runs(START, steps)
    ensures Inv(Exec(START, steps))
    decreases |steps|
  {
    if steps != [] {
      ReachableStates(steps[..|steps| - 1]);
      StepKeepsInv(Exec(START, steps[..|steps| - 1]), steps[|steps| - 1]);
    }
  }

  // ---------------------------------------------------------------------------
  // At-least-once delivery
  // ---------------------------------------------------------------------------

  /** How often an event was handed to the broker. */
  function SendsOf(sends: seq<(nat, nat)>, e: nat): nat {
    if sends == [] then 0 else SendsOf(sends[..|sends| - 1], e) + if sends[|sends| - 1].0 == e then 1 else 0
  }

  ghost function Tokens(sends: seq<(nat, nat)>, e: nat): set<nat> {
    set i | 0 <= i < |sends| && sends[i].0 == e :: sends[i].1
  }

  lemma {:induction false} DistinctTokens(sends: seq<(nat, nat)>, e: nat)
    requires forall i, j :: 0 <= i < j < |sends| ==> sends[i] != sends[j]
    ensures SendsOf(sends, e) == |Tokens(sends, e)|
    decreases |sends|
  {
    if sends != [] {
      var front, last := sends[..|sends| - 1], sends[|sends| - 1];
      DistinctTokens(front, e);
      if last.0 == e {
        assert last.1 !in Tokens(front, e);
        assert Tokens(sends, e) == Tokens(front, e) + {last.1};
      } else {
        assert Tokens(sends, e) == Tokens(front, e);
      }
    }
  }

  lemma {:induction false} UpTo(s: set<nat>, n: nat)
    requires forall x :: x in s ==> 1 <= x <= n
    ensures |s| <= n
    decreases n
  {
    if n == 0 {
      assert s == {};
    } else {
      UpTo(s - {n}, n - 1);
    }
  }

  lemma SendsWithinAttempts(s: System, e: nat)
    requires Inv(s) && e in s.rows
    ensures SendsOf(s.sends, e) <= s.rows[e].attempts
  {
    DistinctTokens(s.sends, e);
    UpTo(Tokens(s.sends, e), s.rows[e].attempts);
  }

  /**
    At-least-once delivery: in every reachable state a published row was accepted by the broker, has
    exactly one effective publish mark, and no event was sent more often than it was claimed.
   */
  lemma AtLeastOnce(steps: seq<Step>, e: nat)
    requires Runs(START, steps) && e in Exec(START, steps).rows
    ensures var s := Exec(START, steps);
            && multiset(s.marks)[e] == (if s.rows[e].published.Some? then 1 else 0)
            && (s.rows[e].published.Some? ==> e in s.accepted)
            && (e in s.accepted ==> SendsOf(s.sends, e) >= 1)
            && SendsOf(s.sends, e) <= s.rows[e].attempts
  {
    ReachableStates(steps);
    var s := Exec(START, steps);
    assert RowRight(s, e);
    SendsWithinAttempts(s, e);
    if e in s.accepted {
      var n :| (e, n) in s.sends;
      var i :| 0 <= i < |s.sends| && s.sends[i] == (e, n);
      DistinctTokens(s.sends, e);
      assert n in Tokens(s.sends, e);
      if Tokens(s.sends, e) == {} {
        assert false;
      }
    }
  }

  /** What no step ever changes: a published row at all, and the identity, payload and age of any row. */
  lemma StepFreezes(s: System, step: Step, e: nat)
    requires Inv(s) && Enabled(s, step) && e in s.rows
    ensures var x := Apply(s, step);
            && e in x.rows && x.rows[e].payload == s.rows[e].payload && x.rows[e].createdAt == s.rows[e].createdAt
            && x.rows[e].attempts >= s.rows[e].attempts
            && (s.rows[e].published.Some? ==> x.rows[e] == s.rows[e])
  {
    assert RowRight(s, e);
    hide Inv, WorkerRight, TokensApart, SendsRight;
  }

  lemma {:induction false} PrefixRuns(steps: seq<Step>, k: nat)
    requires Runs(START, steps) && k <= |steps|
    ensures Runs(START, steps[..k])
    decreases |steps|
  {
    if k < |steps| {
      PrefixRuns(steps[..|steps| - 1], k);
      assert steps[..|steps| - 1][..k] == steps[..k];
    } else {
      assert steps[..k] == steps;
    }
  }

  lemma OneStep(steps: seq<Step>, k: nat)
    requires Runs(START, steps) && k < |steps|
    ensures Inv(Exec(START, steps[..k])) && Enabled(Exec(START, steps[..k]), steps[k])
    ensures Exec(START, steps[..k + 1]) == Apply(Exec(START, steps[..k]), steps[k])
  {
    PrefixRuns(steps, k);
    PrefixRuns(steps, k + 1);
    ReachableStates(steps[..k]);
    assert steps[..k + 1][..k] == steps[..k];
  }

  /** A row that is published at some point of a run is the same row at every later point. */
  lemma {:induction false} PublishedIsFrozen(steps: seq<Step>, i: nat, j: nat, e: nat)
    requires Runs(START, steps) && i <= j <= |steps|
    requires e in Exec(START, steps[..i]).rows && Exec(START, steps[..i]).rows[e].published.Some?
    ensures e in Exec(START, steps[..j]).rows && Exec(START, steps[..j]).rows[e] == Exec(START, steps[..i]).rows[e]
    decreases j
  {
    if i < j {
      PublishedIsFrozen(steps, i, j - 1, e);
      OneStep(steps, j - 1);
      StepFreezes(Exec(START, steps[..j - 1]), steps[j - 1], e);
    }
  }

  // ---------------------------------------------------------------------------
  // Leases
  // ---------------------------------------------------------------------------

  ghost predicate Claims(step: Step, e: nat) {
    step.Take? && step.pick == Some(e)
  }

  /** The step is an effective mark of the row: a process of the holder's identity publishes it or gives it back. */
  ghost predicate GivesUp(s: System, step: Step, e: nat) {
    && (step.Publish? || (step.Release? && AcceptedFailure(step.failure)))
    && !At(s, step.w).Idle? && At(s, step.w).e == e && Owns(s.rows, e, At(s, step.w).name)
  }

  lemma RowStays(s: System, step: Step, e: nat)
    requires Enabled(s, step) && e in s.rows && !Claims(step, e) && !GivesUp(s, step, e)
    ensures e in Apply(s, step).rows && Apply(s, step).rows[e] == s.rows[e]
  {
  }

  /** From the i-th step up to the j-th nobody claims the row, and nobody marks it unless it is unclaimed anyway. */
  ghost predicate Undisturbed(steps: seq<Step>, e: nat, i: nat, j: nat)
    requires i <= j <= |steps|
  {
    forall k :: i <= k < j ==> !Claims(steps[k], e) && !GivesUp(Exec(START, steps[..k]), steps[k], e)
  }

  lemma {:induction false} RowLasts(steps: seq<Step>, e: nat, i: nat, j: nat)
    requires Runs(START, steps) && i <= j <= |steps| && e in Exec(START, steps[..i]).rows
    requires forall k :: i <= k < j ==> !Claims(steps[k], e)
    requires Exec(START, steps[..i]).rows[e].claim.None? || Undisturbed(steps, e, i, j)
    ensures e in Exec(START, steps[..j]).rows && Exec(START, steps[..j]).rows[e] == Exec(START, steps[..i]).rows[e]
    decreases j
  {
    hide Runs, Exec, Enabled, Apply;
    if i < j {
      RowLasts(steps, e, i, j - 1);
      OneStep(steps, j - 1);
      RowStays(Exec(START, steps[..j - 1]), steps[j - 1], e);
    }
  }

  ghost predicate Kept(steps: seq<Step>, e: nat, i: nat, j: nat)
    requires i < j <= |steps|
  {
    Undisturbed(steps, e, i + 1, j)
  }

  lemma ClaimLasts(steps: seq<Step>, e: nat, i: nat, j: nat)
    requires Runs(START, steps) && i < j <= |steps| && Claims(steps[i], e) && Kept(steps, e, i, j)
    ensures e in Exec(START, steps[..i]).rows && e in Exec(START, steps[..j]).rows
    ensures var r := Exec(START, steps[..i]).rows[e];
            && Exec(START, steps[..j]).rows[e] == r.(claim := Some(Lease(steps[i].dbNow, steps[i].name)), attempts := r.attempts + 1)
            && r.published.None?
  {
    OneStep(steps, i);
    RowLasts(steps, e, i + 1, j);
  }

  /**
    Two successive claims of one row are a full lease apart, by the clocks that stamp and measure
    them, unless its holder gave the row up in between.
   */
  lemma LeasesApart(steps: seq<Step>, e: nat, i: nat, j: nat)
    requires Runs(START, steps) && i < j < |steps|
    requires Claims(steps[i], e) && Claims(steps[j], e) && Kept(steps, e, i, j)
    ensures steps[j].appNow > steps[i].dbNow + steps[j].lease
  {
    ClaimLasts(steps, e, i, j);
    OneStep(steps, j);
  }

  /** The row as a claim meets it at the i-th step. */
  ghost predicate OnOffer(steps: seq<Step>, e: nat, j: nat)
    requires j < |steps| && steps[j].Take?
  {
    Candidate(Exec(START, steps[..j]).rows, steps[j].locked, steps[j].dbNow, steps[j].appNow - steps[j].lease, e)
  }

  lemma MarkedRow(steps: seq<Step>, e: nat, k: nat, j: nat)
    requires Runs(START, steps) && k < j <= |steps| && GivesUp(Exec(START, steps[..k]), steps[k], e)
    requires forall n :: k < n < j ==> !Claims(steps[n], e)
    ensures e in Exec(START, steps[..j]).rows
    ensures var r := Exec(START, steps[..j]).rows[e];
            r.claim.None? && if steps[k].Publish? then r.published.Some? else r.published.None? && r.availableAt == steps[k].retryAt
  {
    OneStep(steps, k);
    RowLasts(steps, e, k + 1, j);
  }

  /**
    When a row that was claimed is on offer to a later claim, if nobody claimed it in between: without
    an effective mark exactly when the later cutoff has passed the stamp, after a failure exactly when
    the retry time has come, and after a publish mark never.
   */
  lemma OfferedAgainExactly(steps: seq<Step>, e: nat, i: nat, j: nat)
    requires Runs(START, steps) && i < j < |steps| && Claims(steps[i], e) && steps[j].Take?
    requires forall k :: i < k < j ==> !Claims(steps[k], e)
    ensures e in Exec(START, steps[..i]).rows
    ensures Kept(steps, e, i, j) ==>
              (OnOffer(steps, e, j) <==>
                 && e !in steps[j].locked && Exec(START, steps[..i]).rows[e].availableAt <= steps[j].dbNow
                 && steps[i].dbNow < steps[j].appNow - steps[j].lease)
    ensures forall k :: i < k < j && GivesUp(Exec(START, steps[..k]), steps[k], e) ==>
              (OnOffer(steps, e, j) <==> steps[k].Release? && e !in steps[j].locked && steps[k].retryAt <= steps[j].dbNow)
  {
    OneStep(steps, i);
    if Kept(steps, e, i, j) {
      ClaimLasts(steps, e, i, j);
    }
    forall k | i < k < j && GivesUp(Exec(START, steps[..k]), steps[k], e)
      ensures OnOffer(steps, e, j) <==> steps[k].Release? && e !in steps[j].locked && steps[k].retryAt <= steps[j].dbNow
    {
      MarkedRow(steps, e, k, j);
    }
  }

  /** The step puts the row off: its holder reports a failure that can be stored. */
  ghost predicate PutsOff(s: System, step: Step, e: nat) {
    step.Release? && GivesUp(s, step, e)
  }

  lemma RetryTimeStays(s: System, step: Step, e: nat)
    requires Enabled(s, step) && e in s.rows && !PutsOff(s, step, e)
    ensures e in Apply(s, step).rows && Apply(s, step).rows[e].availableAt == s.rows[e].availableAt
  {
  }

  ghost predicate NotPutOff(steps: seq<Step>, e: nat, i: nat, j: nat)
    requires j <= |steps|
  {
    forall k :: i < k < j ==> !PutsOff(Exec(START, steps[..k]), steps[k], e)
  }

  lemma RetryTimeSet(s: System, step: Step, e: nat)
    requires Enabled(s, step) && PutsOff(s, step, e)
    ensures e in Apply(s, step).rows && Apply(s, step).rows[e].availableAt == step.retryAt
  {
  }

  lemma {:induction false} RetryTimeLasts(steps: seq<Step>, e: nat, i: nat, j: nat)
    requires Runs(START, steps) && i < j <= |steps| && PutsOff(Exec(START, steps[..i]), steps[i], e) && NotPutOff(steps, e, i, j)
    ensures e in Exec(START, steps[..j]).rows && Exec(START, steps[..j]).rows[e].availableAt == steps[i].retryAt
    decreases j
  {
    hide Runs, Exec, Enabled, Apply, PutsOff;
    OneStep(steps, j - 1);
    if i + 1 < j {
      RetryTimeLasts(steps, e, i, j - 1);
      RetryTimeStays(Exec(START, steps[..j - 1]), steps[j - 1], e);
    } else {
      RetryTimeSet(Exec(START, steps[..i]), steps[i], e);
    }
  }

  /** A row that was given back is not claimed before its retry time, by the clock that stamps claims. */
  lemma RetryIsRespected(steps: seq<Step>, e: nat, i: nat, j: nat)
    requires Runs(START, steps) && i < j < |steps| && PutsOff(Exec(START, steps[..i]), steps[i], e) && Claims(steps[j], e)
    requires NotPutOff(steps, e, i, j)
    ensures steps[j].dbNow >= steps[i].retryAt
  {
    RetryTimeLasts(steps, e, i, j);
    OneStep(steps, j);
  }

  /** A process whose row was claimed again under another identity can no longer change it. */
  lemma SupersededMarksNothing(s: System, step: Step)
    requires Enabled(s, step) && (step.Publish? || step.Release?)
    requires var local := At(s, step.w);
             local.e in s.rows && s.rows[local.e].claim.Some? && s.rows[local.e].claim.value.holder != local.name
    ensures Apply(s, step) == Moved(s, step.w, Idle)
  {
  }

  /**
    Of a row that was claimed in step j, and not given up since, a mark takes effect exactly when its
    process has the identity of that claim, whichever process made it; otherwise it changes no row.
   */
  lemma MarkCountsExactly(steps: seq<Step>, e: nat, j: nat, k: nat)
    requires Runs(START, steps) && j < k < |steps| && Claims(steps[j], e) && Kept(steps, e, j, k)
    requires (steps[k].Publish? || steps[k].Release?) && !At(Exec(START, steps[..k]), steps[k].w).Idle?
    requires At(Exec(START, steps[..k]), steps[k].w).e == e
    ensures var s := Exec(START, steps[..k]);
            && (GivesUp(s, steps[k], e) <==>
                  (steps[k].Publish? || AcceptedFailure(steps[k].failure)) && At(s, steps[k].w).name == steps[j].name)
            && (!GivesUp(s, steps[k], e) ==> Exec(START, steps[..k + 1]).rows == s.rows)
  {
    hide Runs, Exec, Enabled, Apply, GivesUp, Kept, Inv, AcceptedFailure;
    ClaimLasts(steps, e, j, k);
    OneStep(steps, k);
    MarkCounts(Exec(START, steps[..k]), steps[k], e, steps[j].name);
  }

  lemma MarkCounts(s: System, step: Step, e: nat, name: string)
    requires Enabled(s, step) && (step.Publish? || step.Release?) && !At(s, step.w).Idle? && At(s, step.w).e == e
    requires e in s.rows && s.rows[e].published.None? && s.rows[e].claim.Some? && s.rows[e].claim.value.holder == name
    ensures GivesUp(s, step, e) <==> (step.Publish? || AcceptedFailure(step.failure)) && At(s, step.w).name == name
    ensures !GivesUp(s, step, e) ==> Apply(s, step).rows == s.rows
  {
  }

  // Two processes of one identity: the failure of the first, whose lease has run out, comes after the second's claim.
  const SHARED := [
    Insert(0, 0, "", 0), Take(0, "a", 1, {}, 0, 0, Some(0)), Send(0, 0, false),
    Take(1, "a", 1, {}, 2, 2, Some(0)), Release(0, "down", 2)]

  /** The late failure gives the row back under the second process, so a third can claim it at once, within the lease. */
  lemma SharedIdentityFreesRow()
    ensures Runs(START, SHARED)
    ensures var s := Exec(START, SHARED);
            && At(s, 1) == Holding(0, "a", 2) && 0 in s.rows && s.rows[0].attempts == 2 && s.rows[0].claim.None?
            && Enabled(s, Take(2, "b", 1, {}, 2, 2, Some(0)))
  {
    SharedTakes();
    CanonicalIsAccepted("down");
    Snoc(START, SHARED[..4], SHARED[4]);
    assert SHARED[..4] + [SHARED[4]] == SHARED;
    hide Exec, Runs, Trim, AcceptedFailure;
  }

  lemma CanonicalIsAccepted(failure: string)
    requires CanonicalText(failure) && |failure| <= 2048
    ensures AcceptedFailure(failure)
  {
    CanonicalExactly(failure);
  }

  lemma SharedTakes()
    ensures Runs(START, SHARED[..4])
    ensures var s := Exec(START, SHARED[..4]);
            && s.rows == map[0 := Row(0, "", None, 0, 2, Some(Lease(2, "a")), None)]
            && At(s, 0) == Unheard(0, "a", 1) && At(s, 1) == Holding(0, "a", 2) && At(s, 2).Idle?
  {
    SharedSends();
    var s := Exec(START, SHARED[..3]);
    hide Exec, Runs;
    assert Enabled(s, SHARED[3]);
    Snoc(START, SHARED[..3], SHARED[3]);
    assert SHARED[..3] + [SHARED[3]] == SHARED[..4];
  }

  lemma SharedSends()
    ensures Runs(START, SHARED[..3])
    ensures var s := Exec(START, SHARED[..3]);
            && s.rows == map[0 := Row(0, "", None, 0, 1, Some(Lease(0, "a")), None)]
            && At(s, 0) == Unheard(0, "a", 1) && At(s, 1).Idle? && At(s, 2).Idle?
  {
    assert SHARED[..0] == [] && SHARED[..1] == SHARED[..0] + [SHARED[0]];
    assert SHARED[..2] == SHARED[..1] + [SHARED[1]] && SHARED[..3] == SHARED[..2] + [SHARED[2]];
    Snoc(START, SHARED[..0], SHARED[0]);
    assert Exec(START, SHARED[..1]).rows == map[0 := Row(0, "", None, 0, 0, None, None)];
    Snoc(START, SHARED[..1], SHARED[1]);
    Snoc(START, SHARED[..2], SHARED[2]);
  }

  /** The ISR table's laxer check of the worker identity lets no further mark through. */
  lemma LaxCheckIsHarmless(steps: seq<Step>, e: nat, worker: string)
    requires Runs(START, steps) && AcceptedWorker(IsrOutbox, worker) && !AcceptedWorker(IncidentOutbox, worker)
    ensures !Owns(Exec(START, steps).rows, e, worker)
  {
    ReachableStates(steps);
    var s := Exec(START, steps);
    if e in s.rows {
      assert RowRight(s, e);
    }
  }

  // ---------------------------------------------------------------------------
  // No row is stranded
  // ---------------------------------------------------------------------------

  /** A claim that could take the row. */
  ghost predicate Turn(step: Step, e: nat) {
    step.Take? && e !in step.locked
  }

  /** A step that lets another row in front: an older row that comes in, or a row that is given back before the horizon. */
  ghost predicate Delays(step: Step, e: nat, createdAt: int, horizon: int) {
    || (step.Insert? && (step.createdAt < createdAt || (step.createdAt == createdAt && step.e < e)))
    || (step.Release? && step.retryAt <= horizon)
  }

  ghost function Turns(steps: seq<Step>, e: nat): nat {
    if steps == [] then 0 else Turns(steps[..|steps| - 1], e) + if Turn(steps[|steps| - 1], e) then 1 else 0
  }

  ghost function Delayed(steps: seq<Step>, e: nat, createdAt: int, horizon: int): nat {
    if steps == [] then 0
    else Delayed(steps[..|steps| - 1], e, createdAt, horizon) + if Delays(steps[|steps| - 1], e, createdAt, horizon) then 1 else 0
  }

  /** Every claim falls within the window: no claim made in it expires in it, and the row is due all the time. */
  ghost predicate InWindow(step: Step, r: Row, instant: int, horizon: int) {
    step.Take? ==>
      && instant <= step.dbNow <= horizon && step.appNow - step.lease <= instant
      && Claimable(r, step.dbNow, step.appNow - step.lease)
  }

  /** The rows that may be claimed before e. */
  ghost function Ahead(rows: Rows, e: nat, instant: int, horizon: int): set<nat>
    requires e in rows
  {
    set f | f in rows && MayPass(rows, f, e, instant, horizon)
  }

  ghost predicate MayPass(rows: Rows, f: nat, e: nat, instant: int, horizon: int)
    requires e in rows && f in rows
  {
    && rows[f].published.None? && rows[f].availableAt <= horizon && Precedes(rows, f, e)
    && (rows[f].claim.None? || rows[f].claim.value.at < instant)
  }

  lemma OneMore(a: set<nat>, b: set<nat>, f: nat)
    requires a <= b + {f}
    ensures |a| <= |b| + 1
  {
    assert a - {f} <= b;
    CardinalityWithin(a - {f}, b);
  }

  lemma {:induction false} CardinalityWithin(a: set<nat>, b: set<nat>)
    requires a <= b
    ensures |a| <= |b|
  {
    assert b == a + (b - a);
  }

  /** A turn that passes over e takes a row ahead of it; nothing but a delay lets a row in front. */
  lemma StepMovesUp(s: System, step: Step, e: nat, instant: int, horizon: int)
    requires Enabled(s, step) && e in s.rows && InWindow(step, s.rows[e], instant, horizon)
    requires !Claims(step, e) && !GivesUp(s, step, e)
    ensures e in Apply(s, step).rows && Apply(s, step).rows[e] == s.rows[e]
    ensures (if Turn(step, e) then 1 else 0) + |Ahead(Apply(s, step).rows, e, instant, horizon)|
            <= |Ahead(s.rows, e, instant, horizon)| + if Delays(step, e, s.rows[e].createdAt, horizon) then 1 else 0
  {
    RowStays(s, step, e);
    var before, after := Ahead(s.rows, e, instant, horizon), Ahead(Apply(s, step).rows, e, instant, horizon);
    if step.Take? {
      if step.pick.Some? {
        assert after <= before - {step.pick.value};
        CardinalityWithin(after, before - {step.pick.value});
      }
      assert Turn(step, e) ==> Candidate(s.rows, step.locked, step.dbNow, step.appNow - step.lease, e);
      assert Turn(step, e) ==> step.pick.Some? && step.pick.value in before;
    } else if step.Insert? {
      assert after <= before + {step.e};
      OneMore(after, before, step.e);
      assert !Delays(step, e, s.rows[e].createdAt, horizon) ==> after <= before;
      if after <= before {
        CardinalityWithin(after, before);
      }
    } else if step.Release? {
      var f := At(s, step.w).e;
      assert after <= before + {f};
      OneMore(after, before, f);
      assert !Delays(step, e, s.rows[e].createdAt, horizon) ==> after <= before;
      if after <= before {
        CardinalityWithin(after, before);
      }
    } else {
      assert after <= before;
      CardinalityWithin(after, before);
    }
  }

  lemma {:induction false} RunMovesUp(s: System, steps: seq<Step>, e: nat, instant: int, horizon: int)
    requires Runs(s, steps) && e in s.rows
    requires forall k :: 0 <= k < |steps| ==> InWindow(steps[k], s.rows[e], instant, horizon)
    requires forall k :: 0 <= k < |steps| ==> !Claims(steps[k], e) && !GivesUp(Exec(s, steps[..k]), steps[k], e)
    ensures e in Exec(s, steps).rows && Exec(s, steps).rows[e] == s.rows[e]
    ensures Turns(steps, e) + |Ahead(Exec(s, steps).rows, e, instant, horizon)|
            <= |Ahead(s.rows, e, instant, horizon)| + Delayed(steps, e, s.rows[e].createdAt, horizon)
    decreases |steps|
  {
    if steps != [] {
      var front, last := steps[..|steps| - 1], steps[|steps| - 1];
      forall k | 0 <= k < |front| ensures front[k] == steps[k] && front[..k] == steps[..k] {
      }
      RunMovesUp(s, front, e, instant, horizon);
      StepMovesUp(Exec(s, front), last, e, instant, horizon);
    }
  }

  /**
    A due row is claimed after at most as many claims as there are rows ahead of it, whatever else
    happens in between; every older row that comes in and every row given back early costs one more.
   */
  lemma NoRowIsStranded(s: System, steps: seq<Step>, e: nat, instant: int, horizon: int)
    requires Runs(s, steps) && e in s.rows
    requires forall k :: 0 <= k < |steps| ==> InWindow(steps[k], s.rows[e], instant, horizon)
    requires Turns(steps, e) > |Ahead(s.rows, e, instant, horizon)| + Delayed(steps, e, s.rows[e].createdAt, horizon)
    ensures exists k :: 0 <= k < |steps| && (Claims(steps[k], e) || GivesUp(Exec(s, steps[..k]), steps[k], e))
  {
    if forall k :: 0 <= k < |steps| ==> !Claims(steps[k], e) && !GivesUp(Exec(s, steps[..k]), steps[k], e) {
      RunMovesUp(s, steps, e, instant, horizon);
    }
  }

  // ---------------------------------------------------------------------------
  // A row that is delivered for ever
  // ---------------------------------------------------------------------------

  /** Two processes in turn, each with its own identity. */
  function NameOf(k: nat): (name: string)
    ensures CanonicalText(name)
  {
    if k % 2 == 0 then "a" else "b"
  }

  /** A claim by each clock: the one that stamps it and the one that measures leases. */
  datatype Clocks = Clocks(stamp: int, now: int)

  function TakeOldest(k: nat, lease: int, at: Clocks): Step {
    Take(k % 2, NameOf(k), lease, {}, at.stamp, at.now, Some(0))
  }

  function RoundSteps(k: nat, lease: int, at: Clocks): seq<Step>
    requires k > 0
  {
    [Send((k - 1) % 2, 1, true), TakeOldest(k, lease, at), Publish((k - 1) % 2, at.stamp)]
  }

  /** The older row is claimed; then it is sent, claimed by the other worker, and marked by the first, over and over. */
  function Overtaking(lease: int, clocks: seq<Clocks>): seq<Step>
    requires clocks != []
  {
    var k := |clocks| - 1;
    if k == 0 then [Insert(0, 0, "", clocks[0].stamp), Insert(1, 1, "", clocks[0].stamp), TakeOldest(0, lease, clocks[0])]
    else
      Overtaking(lease, clocks[..k]) + RoundSteps(k, lease, clocks[k])
  }

  /** Each claim finds the one before it expired. */
  ghost predicate Overtaken(lease: int, clocks: seq<Clocks>) {
    forall k :: 0 < k < |clocks| ==> clocks[k - 1].stamp < clocks[k].now - lease
  }

  ghost predicate Advancing(clocks: seq<Clocks>) {
    forall i, j :: 0 <= i <= j < |clocks| ==> clocks[i].stamp <= clocks[j].stamp
  }

  /** After n claims: each but the last was sent and heard of, no mark took effect, the younger row was never touched. */
  ghost predicate Starved(s: System, n: nat, first: int, last: int)
    requires n > 0
  {
    && s.rows == map[0 := Row(0, "", None, first, n, Some(Lease(last, NameOf(n - 1))), None), 1 := Row(1, "", None, first, 0, None, None)]
    && s.marks == [] && s.accepted == Copies(0, n - 1) && |s.sends| == n - 1
    && At(s, (n - 1) % 2) == Holding(0, NameOf(n - 1), n) && At(s, n % 2).Idle?
  }

  lemma Snoc(s: System, steps: seq<Step>, step: Step)
    ensures Runs(s, steps + [step]) <==> Runs(s, steps) && Enabled(Exec(s, steps), step)
    ensures Enabled(Exec(s, steps), step) ==> Exec(s, steps + [step]) == Apply(Exec(s, steps), step)
  {
    assert (steps + [step])[..|steps|] == steps;
  }

  lemma Opening(lease: int, at: Clocks)
    requires 0 < lease <= MAX_LEASE
    ensures Runs(START, Overtaking(lease, [at])) && Starved(Exec(START, Overtaking(lease, [at])), 1, at.stamp, at.stamp)
  {
    var first, second, third := Insert(0, 0, "", at.stamp), Insert(1, 1, "", at.stamp), TakeOldest(0, lease, at);
    Snoc(START, [], first);
    Snoc(START, [first], second);
    Snoc(START, [first, second], third);
    assert [] + [first] == [first] && [first] + [second] == [first, second] && [first, second] + [third] == [first, second, third];
  }

  /** The other process has claimed the row again, and the first one has heard of its message. */
  ghost predicate Overtook(s: System, k: nat, first: int, stamp: int)
    requires k > 0
  {
    && s.rows == map[0 := Row(0, "", None, first, k + 1, Some(Lease(stamp, NameOf(k))), None), 1 := Row(1, "", None, first, 0, None, None)]
    && s.marks == [] && s.accepted == Copies(0, k) && |s.sends| == k
    && At(s, k % 2) == Holding(0, NameOf(k), k + 1) && At(s, (k - 1) % 2) == Heard(0, NameOf(k - 1))
  }

  lemma RoundTakes(s: System, k: nat, first: int, last: int, lease: int, at: Clocks)
    requires k > 0 && Starved(s, k, first, last) && first <= at.stamp && 0 < lease <= MAX_LEASE
    ensures Enabled(s, Send((k - 1) % 2, 1, true))
    ensures var sent := Apply(s, Send((k - 1) % 2, 1, true));
            && (Enabled(sent, TakeOldest(k, lease, at)) <==> last < at.now - lease)
            && (last < at.now - lease ==> Overtook(Apply(sent, TakeOldest(k, lease, at)), k, first, at.stamp))
  {
    assert Copies(0, k - 1) + Copies(0, 1) == Copies(0, k);
  }

  lemma RoundMarks(s: System, k: nat, first: int, stamp: int)
    requires k > 0 && Overtook(s, k, first, stamp)
    ensures Enabled(s, Publish((k - 1) % 2, stamp)) && Starved(Apply(s, Publish((k - 1) % 2, stamp)), k + 1, first, stamp)
  {
  }

  /** One more round: the claim is possible exactly when it finds the last one expired; then the mark that follows is too late. */
  lemma Round(s: System, k: nat, first: int, last: int, lease: int, at: Clocks)
    requires k > 0 && Starved(s, k, first, last) && first <= at.stamp && 0 < lease <= MAX_LEASE
    ensures Enabled(s, Send((k - 1) % 2, 1, true))
    ensures var sent := Apply(s, Send((k - 1) % 2, 1, true));
            && (Enabled(sent, TakeOldest(k, lease, at)) <==> last < at.now - lease)
            && (last < at.now - lease ==>
                  var again := Apply(sent, TakeOldest(k, lease, at));
                  && Enabled(again, Publish((k - 1) % 2, at.stamp))
                  && Starved(Apply(again, Publish((k - 1) % 2, at.stamp)), k + 1, first, at.stamp))
  {
    hide Starved, Enabled, Apply, Overtook;
    RoundTakes(s, k, first, last, lease, at);
    if last < at.now - lease {
      RoundMarks(Apply(Apply(s, Send((k - 1) % 2, 1, true)), TakeOldest(k, lease, at)), k, first, at.stamp);
    }
  }

  lemma ThreeMore(s: System, steps: seq<Step>, a: Step, b: Step, c: Step)
    ensures Runs(s, steps + [a, b, c]) ==> Runs(s, steps) && Enabled(Exec(s, steps), a) && Enabled(Apply(Exec(s, steps), a), b)
    ensures var x := Exec(s, steps);
            Runs(s, steps) && Enabled(x, a) && Enabled(Apply(x, a), b) && Enabled(Apply(Apply(x, a), b), c) ==>
              Runs(s, steps + [a, b, c]) && Exec(s, steps + [a, b, c]) == Apply(Apply(Apply(x, a), b), c)
  {
    hide Runs, Exec, Enabled, Apply;
    assert steps + [a, b, c] == steps + [a] + [b] + [c];
    Snoc(s, steps, a);
    Snoc(s, steps + [a], b);
    Snoc(s, steps + [a] + [b], c);
  }

  lemma RoundRuns(steps: seq<Step>, k: nat, first: int, last: int, lease: int, at: Clocks)
    requires k > 0 && Starved(Exec(START, steps), k, first, last) && first <= at.stamp && 0 < lease <= MAX_LEASE
    requires Runs(START, steps)
    ensures Runs(START, steps + RoundSteps(k, lease, at)) <==> last < at.now - lease
    ensures last < at.now - lease ==> Starved(Exec(START, steps + RoundSteps(k, lease, at)), k + 1, first, at.stamp)
  {
    hide Runs, Exec, Enabled, Apply, Starved;
    Round(Exec(START, steps), k, first, last, lease, at);
    ThreeMore(START, steps, Send((k - 1) % 2, 1, true), TakeOldest(k, lease, at), Publish((k - 1) % 2, at.stamp));
  }

  /** The schedule is legal exactly when every claim finds the one before it expired, and then nothing is ever published. */
  lemma {:induction false} OvertakenForEver(lease: int, clocks: seq<Clocks>)
    requires clocks != [] && Advancing(clocks) && 0 < lease <= MAX_LEASE
    ensures Runs(START, Overtaking(lease, clocks)) <==> Overtaken(lease, clocks)
    ensures Overtaken(lease, clocks) ==>
              Starved(Exec(START, Overtaking(lease, clocks)), |clocks|, clocks[0].stamp, clocks[|clocks| - 1].stamp)
    decreases |clocks|
  {
    hide Runs, Exec, Enabled, Apply, Starved;
    var k := |clocks| - 1;
    if k == 0 {
      assert clocks == [clocks[0]];
      Opening(lease, clocks[0]);
    } else {
      var front, at := clocks[..k], clocks[k];
      OvertakenForEver(lease, front);
      var steps := Overtaking(lease, front);
      assert Overtaken(lease, clocks) <==> Overtaken(lease, front) && front[k - 1].stamp < at.now - lease;
      if Overtaken(lease, front) {
        RoundRuns(steps, k, clocks[0].stamp, front[k - 1].stamp, lease, at);
      } else {
        ThreeMore(START, steps, Send((k - 1) % 2, 1, true), TakeOldest(k, lease, at), Publish((k - 1) % 2, at.stamp));
      }
    }
  }

  /**
    So it goes on for ever, at any advancing clock, when the clock that measures leases runs ahead of
    the one that stamps them by more than the lease.
   */
  lemma SkewedClocksStarve(lease: int, skew: int, clocks: seq<Clocks>)
    requires clocks != [] && Advancing(clocks) && 0 < lease <= MAX_LEASE && skew > lease
    requires forall k :: 0 <= k < |clocks| ==> clocks[k].now == clocks[k].stamp + skew
    ensures Runs(START, Overtaking(lease, clocks))
    ensures Starved(Exec(START, Overtaking(lease, clocks)), |clocks|, clocks[0].stamp, clocks[|clocks| - 1].stamp)
  {
    OvertakenForEver(lease, clocks);
  }
}
