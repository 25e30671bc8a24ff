/** The account a watched transfer keeps and the snapshots it delivers (internal/transfer/progress.go). */
module Progress {
  import opened Base

  /** How many bytes of movement are worth a snapshot of their own. */
  const PROGRESS_STEP: int := 4 * 1024 * 1024

  /** Unstarted is Go's zero value, held only before begin. */
  datatype Phase = Unstarted | Resolving | Transferring | Finalizing | Done | Failed {
    predicate Terminal() {
      Done? || Failed?
    }

    /** The order phases advance in. The two terminal phases exclude each other. */
    function Rank(): nat {
      match this
      case Unstarted => 0
      case Resolving => 1
      case Transferring => 2
      case Finalizing => 3
      case Done => 4
      case Failed => 4
    }
  }

  datatype Snapshot = Snapshot(
    phase: Phase,
    totalBytes: int,
    totalParts: int,
    completedBytes: int,
    completedParts: int,
    skippedParts: int,
    wireBytes: int,
    hashedBytes: int,
    retries: int
  ) {
    /** Field by field, this snapshot is no further along than the other. */
    ghost predicate AtMost(other: Snapshot) {
      && phase.Rank() <= other.phase.Rank()
      && (phase.Terminal() ==> phase == other.phase)
      && totalBytes <= other.totalBytes
      && totalParts <= other.totalParts
      && completedBytes <= other.completedBytes
      && completedParts <= other.completedParts
      && skippedParts <= other.skippedParts
      && wireBytes <= other.wireBytes
      && hashedBytes <= other.hashedBytes
      && retries <= other.retries
    }
  }

  const ZERO_SNAPSHOT := Snapshot(Unstarted, 0, 0, 0, 0, 0, 0, 0, 0)

  /** The fields of a reporter, and every snapshot its callback has been handed. */
  datatype Account = Account(snap: Snapshot, credited: seq<bool>, pending: int, closed: bool, log: seq<Snapshot>) {
    function Deliver(): Account {
      this.(pending := 0, log := log + [snap])
    }

    function Coalesce(n: int): Account {
      var counted := this.(pending := pending + n);
      if counted.pending >= PROGRESS_STEP then counted.Deliver() else counted
    }

    function SetTotals(totalBytes: int, totalParts: int): Account {
      this.(
      snap := snap.(totalBytes := totalBytes, totalParts := totalParts),
      credited := if totalParts > 0 then seq(totalParts, _ => false) else credited)
    }

    function Begin(phase: Phase, totalBytes: int, totalParts: int): Account {
      this.(snap := snap.(phase := phase)).SetTotals(totalBytes, totalParts).Deliver()
    }

    function Measured(totalBytes: int, totalParts: int): Account {
      if closed then this
      else this.(snap := snap.(phase := Transferring)).SetTotals(totalBytes, totalParts).Deliver()
    }

    function Finalizing(): Account {
      if closed then this else this.(snap := snap.(phase := Phase.Finalizing)).Deliver()
    }

    function Complete(index: int, size: int, skipped: bool): Account {
      if closed || index < 0 || index >= |credited| || credited[index] then this
      else
        this.(
        credited := credited[index := true],
        snap := snap.(
        completedParts := snap.completedParts + 1,
        completedBytes := snap.completedBytes + size,
        skippedParts := snap.skippedParts + if skipped then 1 else 0)).Deliver()
    }

    function CompleteTwins(count: int, size: int): Account {
      if count <= 0 || closed then this
      else
        this.(snap := snap.(
        completedParts := snap.completedParts + count,
        skippedParts := snap.skippedParts + count,
        completedBytes := snap.completedBytes + size * count)).Deliver()
    }

    function Wire(n: int): Account {
      if n <= 0 || closed then this
      else this.(snap := snap.(wireBytes := snap.wireBytes + n)).Coalesce(n)
    }

    function Hashed(n: int): Account {
      if n <= 0 || closed then this
      else this.(snap := snap.(hashedBytes := snap.hashedBytes + n)).Coalesce(n)
    }

    function Retried(): Account {
      if closed then this else this.(snap := snap.(retries := snap.retries + 1)).Deliver()
    }

    function Finish(failed: bool): Account {
      if closed then this
      else this.(closed := true, snap := snap.(phase := if failed then Phase.Failed else Done)).Deliver()
    }

    /** What the account keeps between any two calls, with its lock free. */
    ghost predicate Kept() {
      && log != []
      && Ordered(log)
      && Last().AtMost(snap)
      && (closed ==> snap.phase.Terminal() && Last() == snap)
      && (!closed ==> !snap.phase.Terminal())
      && snap.phase == Last().phase
      && (snap.phase == Resolving ==> snap.totalBytes == 0 && snap.totalParts == 0)
      && pending == (snap.wireBytes - Last().wireBytes) + (snap.hashedBytes - Last().hashedBytes)
      && 0 <= pending < PROGRESS_STEP
    }

    ghost function Last(): Snapshot
      requires log != []
    {
      log[|log| - 1]
    }
  }

  /** Delivered snapshots only grow, and nothing follows a terminal one. */
  ghost predicate Ordered(log: seq<Snapshot>) {
    && (forall i, j :: 0 <= i < j < |log| ==> log[i].AtMost(log[j]))
    && (forall i :: 0 <= i < |log| - 1 ==> !log[i].phase.Terminal())
  }

  const EMPTY_ACCOUNT := Account(ZERO_SNAPSHOT, [], 0, false, [])

  /** Every recording a transfer can make after begin. */
  datatype Call =
    | CallMeasured(totalBytes: int, totalParts: int)
    | CallFinalizing
    | CallComplete(index: int, size: int, skipped: bool)
    | CallTwins(count: int, size: int)
    | CallWire(n: int)
    | CallHashed(n: int)
    | CallRetried
    | CallFinish(failed: bool)

  function Apply(a: Account, call: Call): Account {
    match call
    case CallMeasured(bytes, parts) => a.Measured(bytes, parts)
    case CallFinalizing => a.Finalizing()
    case CallComplete(index, size, skipped) => a.Complete(index, size, skipped)
    case CallTwins(count, size) => a.CompleteTwins(count, size)
    case CallWire(n) => a.Wire(n)
    case CallHashed(n) => a.Hashed(n)
    case CallRetried => a.Retried()
    case CallFinish(failed) => a.Finish(failed)
  }

  /** The orders push and pull can call in. Only the two phase changes are constrained: a pull
      measures once, while resolving, and either direction finalizes after transferring. All other
      recordings may come at any moment, stragglers after finish included. */
  ghost predicate InOrder(a: Account, call: Call) {
    match call
    case CallMeasured(bytes, parts) => (a.closed || a.snap.phase == Resolving) && 0 <= bytes && 0 <= parts
    case CallFinalizing => a.closed || a.snap.phase == Transferring
    case CallComplete(_, size, _) => 0 <= size
    case CallTwins(_, size) => 0 <= size
    case _ => true
  }

  ghost predicate AllInOrder(a: Account, calls: seq<Call>)
    decreases |calls|
  {
    calls == [] || (InOrder(a, calls[0]) && AllInOrder(Apply(a, calls[0]), calls[1..]))
  }

  function ApplyAll(a: Account, calls: seq<Call>): Account
    decreases |calls|
  {
    if calls == [] then a else ApplyAll(Apply(a, calls[0]), calls[1..])
  }

  /** A push begins transferring with both totals known; a pull begins resolving with neither. */
  ghost predicate BeginsWell(phase: Phase, totalBytes: int, totalParts: int) {
    && 0 <= totalBytes && 0 <= totalParts
    && (phase == Transferring || (phase == Resolving && totalBytes == 0 && totalParts == 0))
  }

  lemma AtMostTransitive(a: Snapshot, b: Snapshot, c: Snapshot)
    requires a.AtMost(b) && b.AtMost(c)
    ensures a.AtMost(c)
  {
  }

  /** Delivering a snapshot no smaller than the last one keeps the log ordered. */
  lemma AppendKeepsOrder(log: seq<Snapshot>, next: Snapshot)
    requires log != [] && Ordered(log)
    requires log[|log| - 1].AtMost(next) && !log[|log| - 1].phase.Terminal()
    ensures Ordered(log + [next])
  {
    var grown := log + [next];
    forall i, j | 0 <= i < j < |grown| ensures grown[i].AtMost(grown[j]) && !grown[i].phase.Terminal() {
      if j == |log| && i < |log| - 1 {
        AtMostTransitive(log[i], log[|log| - 1], next);
      }
    }
  }

  lemma BeginKept(phase: Phase, totalBytes: int, totalParts: int)
    requires BeginsWell(phase, totalBytes, totalParts)
    ensures EMPTY_ACCOUNT.Begin(phase, totalBytes, totalParts).Kept()
  {
  }

  lemma ProductNotNegative(size: int, count: int)
    requires 0 <= size && 0 <= count
    ensures 0 <= size * count
  {
  }

  lemma CallKept(a: Account, call: Call)
    requires a.Kept() && InOrder(a, call)
    ensures Apply(a, call).Kept()
    ensures a.log <= Apply(a, call).log
    ensures a.closed ==> Apply(a, call) == a
  {
    if !a.closed {
      if call.CallTwins? && 0 < call.count {
        ProductNotNegative(call.size, call.count);
      }
      var next := Apply(a, call);
      assert a.snap.AtMost(next.snap);
      if next.log != a.log {
        AtMostTransitive(a.Last(), a.snap, next.snap);
        AppendKeepsOrder(a.log, next.snap);
        assert next.log == a.log + [next.snap];
      }
    }
  }

  /** Every snapshot delivered is no further along than the account. */
  lemma LogAtMost(a: Account)
    requires a.Kept()
    ensures forall snap :: snap in a.log ==> snap.AtMost(a.snap)
  {
    forall snap | snap in a.log ensures snap.AtMost(a.snap) {
      var k :| 0 <= k < |a.log| && a.log[k] == snap;
      if k < |a.log| - 1 {
        AtMostTransitive(a.log[k], a.Last(), a.snap);
      }
    }
  }

  /** Over every order of calls a transfer can make, stragglers included: delivered snapshots only
      grow, a terminal one is last, and undelivered movement is what pending says and stays below
      the threshold. */
  lemma {:induction false} EveryOrderKept(a: Account, calls: seq<Call>)
    requires a.Kept() && AllInOrder(a, calls)
    ensures ApplyAll(a, calls).Kept()
    ensures a.log <= ApplyAll(a, calls).log
    ensures a.closed ==> ApplyAll(a, calls) == a
    decreases |calls|
  {
    if calls != [] {
      CallKept(a, calls[0]);
      EveryOrderKept(Apply(a, calls[0]), calls[1..]);
    }
  }

  ghost function Terminals(log: seq<Snapshot>): set<nat> {
    set i: nat | i < |log| && log[i].phase.Terminal()
  }

  /** A transfer that finishes delivers exactly one terminal snapshot, it is the last one, it says
      whether the transfer failed, and no later call adds another. */
  lemma OneTerminalSnapshot(
    phase: Phase, totalBytes: int, totalParts: int, before: seq<Call>, failed: bool, stragglers: seq<Call>)
    requires BeginsWell(phase, totalBytes, totalParts)
    requires AllInOrder(EMPTY_ACCOUNT.Begin(phase, totalBytes, totalParts), before)
    requires forall call :: call in before ==> !call.CallFinish?
    requires AllInOrder(
        ApplyAll(EMPTY_ACCOUNT.Begin(phase, totalBytes, totalParts), before).Finish(failed), stragglers)
    ensures
      var running := ApplyAll(EMPTY_ACCOUNT.Begin(phase, totalBytes, totalParts), before);
      var log := ApplyAll(running.Finish(failed), stragglers).log;
      && log != []
      && Terminals(log) == {|log| - 1}
      && log[|log| - 1].phase == (if failed then Phase.Failed else Done)
  {
    var begun := EMPTY_ACCOUNT.Begin(phase, totalBytes, totalParts);
    BeginKept(phase, totalBytes, totalParts);
    EveryOrderKept(begun, before);
    NotFinishedStaysOpen(begun, before);
    var running := ApplyAll(begun, before);
    CallKept(running, CallFinish(failed));
    EveryOrderKept(running.Finish(failed), stragglers);
  }

  lemma {:induction false} NotFinishedStaysOpen(a: Account, calls: seq<Call>)
    requires !a.closed
    requires forall call :: call in calls ==> !call.CallFinish?
    ensures !ApplyAll(a, calls).closed
    decreases |calls|
  {
    if calls != [] {
      assert calls[0] in calls;
      NotFinishedStaysOpen(Apply(a, calls[0]), calls[1..]);
    }
  }

  // ---- what the counts count ----

  function Positive(n: int): nat {
    if n > 0 then n else 0
  }

  function Moved(call: Call): nat {
    if call.CallWire? then Positive(call.n) else 0
  }

  function HashedBy(call: Call): nat {
    if call.CallHashed? then Positive(call.n) else 0
  }

  function RetriedBy(call: Call): nat {
    if call.CallRetried? then 1 else 0
  }

  function SumOf(calls: seq<Call>, weight: Call -> nat): nat {
    if calls == [] then 0 else weight(calls[0]) + SumOf(calls[1..], weight)
  }

  /** Until the transfer ends, wire bytes, hashed bytes and retries are what was recorded of each. */
  lemma {:induction false} CountsAddUp(a: Account, calls: seq<Call>)
    requires !a.closed && forall call :: call in calls ==> !call.CallFinish?
    ensures
      var b := ApplyAll(a, calls);
      && b.snap.wireBytes == a.snap.wireBytes + SumOf(calls, Moved)
      && b.snap.hashedBytes == a.snap.hashedBytes + SumOf(calls, HashedBy)
      && b.snap.retries == a.snap.retries + SumOf(calls, RetriedBy)
    decreases |calls|
  {
    if calls != [] {
      assert calls[0] in calls;
      CountsAddUp(Apply(a, calls[0]), calls[1..]);
    }
  }

  // ---- what one call records, and when it is delivered ----

  /** The snapshot after a call, from the one before and the parts credited so far. */
  ghost predicate Records(call: Call, credited: seq<bool>, s: Snapshot, t: Snapshot) {
    match call
    case CallMeasured(bytes, parts) => t == s.(phase := Transferring, totalBytes := bytes, totalParts := parts)
    case CallFinalizing => t == s.(phase := Phase.Finalizing)
    case CallComplete(index, size, skipped) =>
      t == if Counts(call, credited) then s.(
             completedParts := s.completedParts + 1, completedBytes := s.completedBytes + size,
             skippedParts := if skipped then s.skippedParts + 1 else s.skippedParts)
           else s
    case CallTwins(count, size) =>
      t == if Counts(call, credited) then s.(
             completedParts := s.completedParts + count, completedBytes := s.completedBytes + count * size,
             skippedParts := s.skippedParts + count)
           else s
    case CallWire(n) => t == if n > 0 then s.(wireBytes := s.wireBytes + n) else s
    case CallHashed(n) => t == if n > 0 then s.(hashedBytes := s.hashedBytes + n) else s
    case CallRetried => t == s.(retries := s.retries + 1)
    case CallFinish(failed) => t == s.(phase := if failed then Phase.Failed else Done)
  }

  /** A part counts once, twins when there are any, movement when there is some, and everything else always. */
  ghost predicate Counts(call: Call, credited: seq<bool>) {
    match call
    case CallComplete(index, _, _) => 0 <= index < |credited| && !credited[index]
    case CallTwins(count, _) => count > 0
    case CallWire(n) => n > 0
    case CallHashed(n) => n > 0
    case _ => true
  }

  /** Movement is worth a snapshot once four mebibytes have gone by since the last one; every other thing that counts
      is delivered at once, and what does not count changes nothing. */
  lemma WhatACallRecords(a: Account, call: Call)
    requires a.Kept() && !a.closed && InOrder(a, call)
    ensures
      var b := Apply(a, call);
      var unseen := (b.snap.wireBytes - a.Last().wireBytes) + (b.snap.hashedBytes - a.Last().hashedBytes);
      && Records(call, a.credited, a.snap, b.snap)
      && (b.closed <==> call.CallFinish?)
      && (!Counts(call, a.credited) ==> b == a)
      && b.log == if Counts(call, a.credited) && ((call.CallWire? || call.CallHashed?) ==> unseen >= 4_194_304)
                  then a.log + [b.snap] else a.log
    ensures
      var b := Apply(a, call);
      match call
      case CallMeasured(_, parts) => b.credited == if parts > 0 then seq(parts, _ => false) else a.credited
      case CallComplete(index, _, _) => b.credited == if Counts(call, a.credited) then a.credited[index := true] else a.credited
      case _ => b.credited == a.credited
  {
  }

  /** The reporter itself. Its lock is held for the whole of each method, so a method is one step of
      any interleaving; log stands for the calls made to the callback. */
  class Reporter {
    var snap: Snapshot
    var credited: seq<bool>
    var pending: int
    var closed: bool
    var log: seq<Snapshot>

    ghost function State(): Account
      reads this
    {
      Account(snap, credited, pending, closed, log)
    }

    constructor ()
      ensures State() == EMPTY_ACCOUNT
    {
      snap, credited, pending, closed, log := ZERO_SNAPSHOT, [], 0, false, [];
    }

    method Begin(phase: Phase, totalBytes: int, totalParts: int)
      modifies this
      ensures State() == old(State()).Begin(phase, totalBytes, totalParts)
    {
      snap := snap.(phase := phase);
      SetTotals(totalBytes, totalParts);
      Deliver();
    }

    method Measured(totalBytes: int, totalParts: int)
      modifies this
      ensures State() == old(State()).Measured(totalBytes, totalParts)
    {
      if closed {
        return;
      }
      snap := snap.(phase := Transferring);
      SetTotals(totalBytes, totalParts);
      Deliver();
    }

    method Finalizing()
      modifies this
      ensures State() == old(State()).Finalizing()
    {
      if closed {
        return;
      }
      snap := snap.(phase := Phase.Finalizing);
      Deliver();
    }

    method Complete(index: int, size: int, skipped: bool)
      modifies this
      ensures State() == old(State()).Complete(index, size, skipped)
    {
      if closed || index < 0 || index >= |credited| || credited[index] {
        return;
      }
      credited := credited[index := true];
      snap := snap.(completedParts := snap.completedParts + 1);
      snap := snap.(completedBytes := snap.completedBytes + size);
      if skipped {
        snap := snap.(skippedParts := snap.skippedParts + 1);
      }
      Deliver();
    }

    method CompleteTwins(count: int, size: int)
      modifies this
      ensures State() == old(State()).CompleteTwins(count, size)
    {
      if count <= 0 || closed {
        return;
      }
      snap := snap.(completedParts := snap.completedParts + count);
      snap := snap.(skippedParts := snap.skippedParts + count);
      snap := snap.(completedBytes := snap.completedBytes + size * count);
      Deliver();
    }

    method Wire(n: int)
      modifies this
      ensures State() == old(State()).Wire(n)
    {
      if n <= 0 || closed {
        return;
      }
      snap := snap.(wireBytes := snap.wireBytes + n);
      Coalesce(n);
    }

    method Hashed(n: int)
      modifies this
      ensures State() == old(State()).Hashed(n)
    {
      if n <= 0 || closed {
        return;
      }
      snap := snap.(hashedBytes := snap.hashedBytes + n);
      Coalesce(n);
    }

    method Retried()
      modifies this
      ensures State() == old(State()).Retried()
    {
      if closed {
        return;
      }
      snap := snap.(retries := snap.retries + 1);
      Deliver();
    }

    method Finish(failed: bool)
      modifies this
      ensures State() == old(State()).Finish(failed)
    {
      if closed {
        return;
      }
      closed := true;
      snap := snap.(phase := Done);
      if failed {
        snap := snap.(phase := Phase.Failed);
      }
      Deliver();
    }

    method SetTotals(totalBytes: int, totalParts: int)
      modifies this
      ensures State() == old(State()).SetTotals(totalBytes, totalParts)
    {
      snap := snap.(totalBytes := totalBytes, totalParts := totalParts);
      if totalParts > 0 {
        credited := seq(totalParts, _ => false);
      }
    }

    method Coalesce(n: int)
      modifies this
      ensures State() == old(State()).Coalesce(n)
    {
      pending := pending + n;
      if pending >= PROGRESS_STEP {
        Deliver();
      }
    }

    method Deliver()
      modifies this
      ensures State() == old(State()).Deliver()
    {
      pending := 0;
      log := log + [snap];
    }
  }
}
