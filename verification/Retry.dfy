/** How an operation is repeated: internal/retry/retry.go and internal/retry/policy.go. Durations are Go's
    int64 nanoseconds. */
module Retry {
  import opened Base

  datatype Policy = Policy(attempts: int64, base: int64, cap: int64)

  const DEFAULT := Policy(4, 1_000_000_000, 30_000_000_000)

  predicate Positive(p: Policy) {
    p.attempts > 0 && p.base > 0 && p.cap > 0
  }

  /** A field that is not positive takes its default. */
  function Normalized(p: Policy): (q: Policy)
    ensures Positive(q) && (Positive(p) ==> q == p)
    ensures q.attempts == if p.attempts <= 0 then 4 else p.attempts
    ensures q.base == if p.base <= 0 then 1_000_000_000 else p.base
    ensures q.cap == if p.cap <= 0 then 30_000_000_000 else p.cap
  {
    Policy(if p.attempts > 0 then p.attempts else DEFAULT.attempts,
           if p.base > 0 then p.base else DEFAULT.base,
           if p.cap > 0 then p.cap else DEFAULT.cap)
  }

  /** A failure, the wait the far end asked for, and whether some layer tagged it as worth repeating. */
  datatype Failure = Failure(transient: bool, after: int64)

  /** What happens around attempt k: whether the context has ended before it and after it, what the
      operation returns, the draw of the jitter below a ceiling, and whether the wait was interrupted. */
  datatype World = World(
    endedBefore: nat -> bool,
    op: nat -> Option<Failure>,
    endedAfter: nat -> bool,
    draw: (nat, int64) -> int64,
    sleepEnds: nat -> bool
  )

  /** The contract of math/rand/v2.Int64N. */
  ghost predicate FairDraw(w: World) {
    forall k, n :: n > 0 ==> 0 <= w.draw(k, n) < n
  }

  datatype Outcome =
    | Succeeded
    | Failed(last: Failure)
    | Exhausted(attempts: nat, last: Failure)
    | Interrupted(attempts: nat, retrying: Option<Failure>)

  /** What one run did: how it ended, how often the operation ran, and the waits it asked for. */
  datatype Run = Run(outcome: Outcome, runs: nat, waits: seq<int64>)

  // ---- the ceiling of a wait ----

  /** base doubled n times: base times 2 to the n. */
  function Twice(base: int, n: nat): int {
    if n == 0 then base else 2 * Twice(base, n - 1)
  }

  function Min(a: int, b: int): int {
    if a <= b then a else b
  }

  /** The ceiling after attempt k, as the design states it. */
  function Ceiling(p: Policy, k: nat): int
    requires Positive(p) && k >= 1
  {
    Min(p.cap as int, Twice(p.base as int, k - 1))
  }

  /** A ceiling from zero or from the cap on, doubled n times under the cap. */
  function Doubled(from: int, cap: int, n: nat): int {
    if from >= cap then from else Min(cap, Twice(from, n))
  }

  const LEAST: int := -MAX_INT64 - 1
  const SPAN: int := 2 * (MAX_INT64 + 1)

  /** Doubling base n times leaves int64, downward and for the first time at the j-th. */
  predicate LeavesAt(base: int, n: nat, j: nat) {
    1 <= j <= n && Twice(base, j) < LEAST <= Twice(base, j - 1)
  }

  /** What comes back from above meets the guard. */
  ghost predicate CameBack(from: int, cap: int, n: nat, ceiling: int) {
    exists j: nat :: LeavesAt(from, n, j) && ceiling == Doubled(Twice(from, j) + SPAN, cap, n - j)
  }

  /** Where n turns of the loop lead. The guard never catches a start below zero and below the cap: it
      doubles downward, out of int64. */
  ghost predicate Reaches(from: int, cap: int, n: nat, ceiling: int) {
    if from >= 0 || from >= cap then ceiling == Doubled(from, cap, n)
    else if Twice(from, n) >= LEAST then ceiling == Twice(from, n)
    else CameBack(from, cap, n, ceiling)
  }

  /** The ceiling after n doublings, whatever the policy. */
  ghost predicate CeilingIs(p: Policy, n: nat, ceiling: int64) {
    Reaches(Min(p.base as int, p.cap as int), p.cap as int, n, ceiling as int)
  }

  lemma {:induction false} PastTheCap(base: nat, cap: int, from: nat, n: nat)
    requires Twice(base, from) >= cap && from <= n
    ensures Twice(base, n) >= cap
    decreases n - from
  {
    if from < n {
      TwiceGrows(base, n - 1);
      PastTheCap(base, cap, from, n - 1);
    }
  }

  lemma {:induction false} TwiceGrows(base: nat, n: nat)
    ensures Twice(base, n) >= base
    decreases n
  {
    if n > 0 {
      TwiceGrows(base, n - 1);
    }
  }

  lemma {:induction false} NegativeFalls(base: int, from: nat, n: nat)
    requires base < 0 && from <= n
    ensures Twice(base, n) <= Twice(base, from) <= base
    decreases n - from, from
  {
    if from < n {
      NegativeFalls(base, from, n - 1);
    } else if from > 0 {
      NegativeFalls(base, from - 1, from - 1);
    }
  }

  lemma LeavesOnce(base: int, n: nat, i: nat, j: nat)
    requires base < 0 && LeavesAt(base, n, i) && LeavesAt(base, n, j)
    ensures i == j
  {
    if i < j {
      NegativeFalls(base, i, j - 1);
    } else if j < i {
      NegativeFalls(base, j, i - 1);
    }
  }

  /** What comes back is not negative, and zero exactly when the least int64 was on the way. */
  lemma ComesBack(base: int, n: nat, j: nat)
    requires base < 0 && LeavesAt(base, n, j)
    ensures 0 <= Twice(base, j) + SPAN <= MAX_INT64
    ensures Twice(base, j) + SPAN == 0 <==> Twice(base, j - 1) == LEAST
  {
  }

  lemma DoubledStays(from: int, cap: int, n: nat, more: nat)
    requires (from >= 0 || from >= cap) && n <= more && Doubled(from, cap, n) >= cap
    ensures Doubled(from, cap, more) == Doubled(from, cap, n)
  {
    if from < cap {
      PastTheCap(from, cap, n, more);
    }
  }

  lemma DoubledJumps(from: int, cap: int, n: nat, more: nat)
    requires (from >= 0 || from >= cap) && n < more && HalfOf(cap) < Doubled(from, cap, n) < cap
    ensures Doubled(from, cap, more) == cap
  {
    PastTheCap(from, cap, n + 1, more);
  }

  lemma DoubledOnce(from: int, cap: int, n: nat)
    requires (from >= 0 || from >= cap) && Doubled(from, cap, n) < cap && Doubled(from, cap, n) <= HalfOf(cap)
    ensures Doubled(from, cap, n + 1) == 2 * Doubled(from, cap, n)
  {
  }

  // ---- the three turns of the loop ----

  lemma BackStays(from: int, cap: int, n: nat, more: nat, ceiling: int)
    requires from < 0 && CameBack(from, cap, n, ceiling) && n <= more && ceiling >= cap
    ensures CameBack(from, cap, more, ceiling)
  {
    var j: nat :| LeavesAt(from, n, j) && ceiling == Doubled(Twice(from, j) + SPAN, cap, n - j);
    ComesBack(from, n, j);
    DoubledStays(Twice(from, j) + SPAN, cap, n - j, more - j);
    assert LeavesAt(from, more, j);
  }

  lemma BackJumps(from: int, cap: int, n: nat, more: nat, ceiling: int)
    requires from < 0 && CameBack(from, cap, n, ceiling) && n < more && HalfOf(cap) < ceiling < cap
    ensures CameBack(from, cap, more, cap)
  {
    var j: nat :| LeavesAt(from, n, j) && ceiling == Doubled(Twice(from, j) + SPAN, cap, n - j);
    ComesBack(from, n, j);
    DoubledJumps(Twice(from, j) + SPAN, cap, n - j, more - j);
    assert LeavesAt(from, more, j);
  }

  lemma BackDoubles(from: int, cap: int, n: nat, ceiling: int)
    requires from < 0 && CameBack(from, cap, n, ceiling) && ceiling < cap && ceiling <= HalfOf(cap)
    ensures CameBack(from, cap, n + 1, 2 * ceiling) && 0 <= ceiling
  {
    var j: nat :| LeavesAt(from, n, j) && ceiling == Doubled(Twice(from, j) + SPAN, cap, n - j);
    ComesBack(from, n, j);
    BackPositive(Twice(from, j) + SPAN, cap, n - j);
    DoubledOnce(Twice(from, j) + SPAN, cap, n - j);
    assert LeavesAt(from, n + 1, j);
  }

  lemma StartLeaves(from: int, cap: int, n: nat)
    requires from < 0 && Twice(from, n + 1) < LEAST <= Twice(from, n)
    ensures CameBack(from, cap, n + 1, Twice(from, n + 1) + SPAN)
    ensures Wrapped(Twice(from, n + 1)) as int == Twice(from, n + 1) + SPAN
  {
    assert LeavesAt(from, n + 1, n + 1);
    ComesBack(from, n + 1, n + 1);
    assert Doubled(Twice(from, n + 1) + SPAN, cap, 0) == Twice(from, n + 1) + SPAN;
  }

  lemma CeilingStays(p: Policy, n: nat, more: nat, ceiling: int64)
    requires CeilingIs(p, n, ceiling) && n <= more && ceiling >= p.cap
    ensures CeilingIs(p, more, ceiling)
  {
    var from, cap := Min(p.base as int, p.cap as int), p.cap as int;
    if from >= 0 || from >= cap {
      DoubledStays(from, cap, n, more);
    } else {
      NegativeFalls(from, n, more);
      BackStays(from, cap, n, more, ceiling as int);
    }
  }

  lemma CeilingJumps(p: Policy, n: nat, more: nat, ceiling: int64)
    requires CeilingIs(p, n, ceiling) && n < more && HalfOf(p.cap as int) < ceiling as int < p.cap as int
    ensures CeilingIs(p, more, p.cap)
  {
    var from, cap := Min(p.base as int, p.cap as int), p.cap as int;
    if from >= 0 || from >= cap {
      DoubledJumps(from, cap, n, more);
    } else {
      NegativeFalls(from, n, more);
      BackJumps(from, cap, n, more, ceiling as int);
    }
  }

  lemma CeilingDoubles(p: Policy, n: nat, ceiling: int64)
    requires CeilingIs(p, n, ceiling) && ceiling < p.cap && ceiling as int <= HalfOf(p.cap as int)
    ensures CeilingIs(p, n + 1, Wrapped(2 * ceiling as int))
  {
    var from, cap := Min(p.base as int, p.cap as int), p.cap as int;
    if from >= 0 || from >= cap {
      DoubledOnce(from, cap, n);
      if from >= 0 {
        BackPositive(from, cap, n);
      }
    } else if Twice(from, n) < LEAST {
      BackDoubles(from, cap, n, ceiling as int);
    } else if Twice(from, n + 1) < LEAST {
      StartLeaves(from, cap, n);
    }
  }

  /** The guarded doubling, for every policy and every attempt. When base and cap are positive it reaches
      exactly the stated ceiling, and no step of it leaves int64. */
  method CeilingAfter(p: Policy, attempt: int64) returns (ceiling: int64)
    requires attempt >= 1
    ensures CeilingIs(p, attempt as nat - 1, ceiling)
    ensures Positive(p) ==> ceiling as int == Ceiling(p, attempt as nat) && 0 < ceiling <= p.cap
  {
    ceiling := if p.base <= p.cap then p.base else p.cap;
    var made: int64 := 0;
    while made < attempt - 1
      invariant 0 <= made <= attempt - 1
      invariant CeilingIs(p, made as nat, ceiling)
    {
      if ceiling >= p.cap {
        CeilingStays(p, made as nat, attempt as nat - 1, ceiling);
        break;
      }
      if ceiling as int > HalfOf(p.cap as int) {
        CeilingJumps(p, made as nat, attempt as nat - 1, ceiling);
        ceiling := p.cap;
        break;
      }
      CeilingDoubles(p, made as nat, ceiling);
      ceiling := Wrapped(2 * ceiling as int);
      made := made + 1;
    }
    if Positive(p) {
      PositiveCeiling(p, attempt as nat, ceiling);
    }
  }

  lemma PositiveCeiling(p: Policy, k: nat, ceiling: int64)
    requires Positive(p) && k >= 1 && CeilingIs(p, k - 1, ceiling)
    ensures ceiling as int == Ceiling(p, k) && 0 < ceiling <= p.cap
  {
    CeilingPositive(p, k);
    if p.base >= p.cap {
      PastTheCap(p.base as nat, p.cap as nat, 0, k - 1);
    }
  }

  /** A policy has one ceiling for each attempt. */
  lemma CeilingIsOne(p: Policy, n: nat, a: int64, b: int64)
    requires CeilingIs(p, n, a) && CeilingIs(p, n, b)
    ensures a == b
  {
    var from, cap := Min(p.base as int, p.cap as int), p.cap as int;
    if from < 0 && from < cap && Twice(from, n) < LEAST {
      var i: nat :| LeavesAt(from, n, i) && a as int == Doubled(Twice(from, i) + SPAN, cap, n - i);
      var j: nat :| LeavesAt(from, n, j) && b as int == Doubled(Twice(from, j) + SPAN, cap, n - j);
      LeavesOnce(from, n, i, j);
    }
  }

  /** Doubling base n times never meets the least int64, as it does when base is the negative of a power
      of two. */
  ghost predicate MissesTheLeast(base: int, n: nat) {
    forall i: nat :: i <= n ==> Twice(base, i) != LEAST
  }

  lemma BackAboveZero(from: int, cap: int, n: nat, ceiling: int)
    requires from < 0 && CameBack(from, cap, n, ceiling)
    ensures ceiling > 0 <==> MissesTheLeast(from, n)
  {
    var j: nat :| LeavesAt(from, n, j) && ceiling == Doubled(Twice(from, j) + SPAN, cap, n - j);
    ComesBack(from, n, j);
    BackPositive(Twice(from, j) + SPAN, cap, n - j);
    forall i: nat | i <= n && Twice(from, i) == LEAST ensures i == j - 1 {
      NegativeFalls(from, j, n);
      assert i < n;
      assert LeavesAt(from, n, i + 1);
      LeavesOnce(from, n, i + 1, j);
    }
  }

  /** A policy with no room to wait in has a ceiling above zero exactly when its base is below its cap, has
      been doubled out of int64, and has not met the least int64 on the way. */
  lemma RoomlessCeiling(p: Policy, n: nat, ceiling: int64)
    requires CeilingIs(p, n, ceiling) && (p.base <= 0 || p.cap <= 0)
    ensures ceiling > 0 <==> p.base < p.cap && Twice(p.base as int, n) < LEAST && MissesTheLeast(p.base as int, n)
  {
    var base, cap := p.base as int, p.cap as int;
    if base < cap {
      if base == 0 {
        ZeroStays(n);
      } else {
        NegativeFalls(base, 0, n);
        if Twice(base, n) < LEAST {
          BackAboveZero(base, cap, n, ceiling as int);
        }
      }
    }
  }

  /** So the doubling can overflow into a wait that the cap does not bound. */
  lemma RoomlessPolicyWaits(cap: int64)
    requires 0 <= cap < 0x4000_0000_0000_0000
    ensures CeilingIs(Policy(3, -0x6000_0000_0000_0000, cap), 1, 0x4000_0000_0000_0000)
  {
    StartLeaves(-0x6000_0000_0000_0000, cap as int, 0);
  }

  lemma {:induction false} ZeroStays(n: nat)
    ensures Twice(0, n) == 0
    decreases n
  {
    if n > 0 {
      ZeroStays(n - 1);
    }
  }

  lemma BackPositive(from: int, cap: int, n: nat)
    requires from >= 0
    ensures Doubled(from, cap, n) >= 0
    ensures Doubled(from, cap, n) > 0 <==> from > 0
  {
    if from > 0 {
      TwiceGrows(from, n);
    } else {
      ZeroStays(n);
    }
  }

  /** The jittered wait after an attempt, raised to what the far end asked for, never past the cap. */
  function WaitAfter(w: World, p: Policy, attempt: nat, after: int64): int64
    requires Positive(p) && attempt >= 1
  {
    var drawn := w.draw(attempt, CeilingPositive(p, attempt); Ceiling(p, attempt) as int64);
    var floor := if after <= p.cap then after else p.cap;
    if after > 0 && floor > drawn then floor else drawn
  }

  lemma CeilingPositive(p: Policy, k: nat)
    requires Positive(p) && k >= 1
    ensures 0 < Ceiling(p, k) <= p.cap as int
  {
    TwiceGrows(p.base as nat, k - 1);
  }

  /** A ceiling of zero or less waits nothing; any other is the bound of the draw. */
  ghost predicate WaitIs(w: World, p: Policy, n: nat, wait: int64) {
    exists ceiling: int64 :: CeilingIs(p, n, ceiling) && wait == if ceiling <= 0 then 0 else w.draw(n + 1, ceiling)
  }

  method Backoff(w: World, p: Policy, attempt: int64) returns (wait: int64)
    requires FairDraw(w) && attempt >= 1
    ensures WaitIs(w, p, attempt as nat - 1, wait)
    ensures Positive(p) ==>
              wait == w.draw(attempt as nat, CeilingPositive(p, attempt as nat); Ceiling(p, attempt as nat) as int64)
    ensures wait >= 0 && (Positive(p) ==> wait as int < Ceiling(p, attempt as nat) <= p.cap as int)
  {
    var ceiling := CeilingAfter(p, attempt);
    if ceiling <= 0 {
      return 0;
    }
    wait := w.draw(attempt as nat, ceiling);
  }

  // ---- the run ----

  /** What attempt k comes to: it ends the run, or the run waits and goes on. */
  datatype Turn = Ends(run: Run) | Goes(failure: Failure, wait: int64)

  function OneTry(w: World, p: Policy, k: nat, last: Option<Failure>): Turn
    requires Positive(p) && 1 <= k <= p.attempts as nat
  {
    if w.endedBefore(k) then Ends(Run(Interrupted(k - 1, last), 0, []))
    else
      match w.op(k)
      case None => Ends(Run(Succeeded, 1, []))
      case Some(failure) =>
        if w.endedAfter(k) || !failure.transient then Ends(Run(Failed(failure), 1, []))
        else if k == p.attempts as nat then
          Ends(Run(if p.attempts > 1 then Exhausted(k, failure) else Failed(failure), 1, []))
        else
          var wait := WaitAfter(w, p, k, failure.after);
          if w.sleepEnds(k) then Ends(Run(Interrupted(k, Some(failure)), 1, [wait])) else Goes(failure, wait)
  }

  /** A run from attempt k on; last is the failure before it. */
  function From(w: World, p: Policy, k: nat, last: Option<Failure>): Run
    requires Positive(p) && 1 <= k <= p.attempts as nat
    decreases p.attempts as nat - k
  {
    match OneTry(w, p, k, last)
    case Ends(run) => run
    case Goes(failure, wait) => Onto(1, [wait], From(w, p, k + 1, Some(failure)))
  }

  function Onto(runs: nat, waits: seq<int64>, r: Run): Run {
    Run(r.outcome, runs + r.runs, waits + r.waits)
  }

  lemma OntoOnto(runs: nat, waits: seq<int64>, more: nat, later: seq<int64>, r: Run)
    ensures Onto(runs, waits, Onto(more, later, r)) == Onto(runs + more, waits + later, r)
  {
    assert waits + (later + r.waits) == (waits + later) + r.waits;
  }

  /** One turn of the loop of Do. */
  method TryOnce(w: World, p: Policy, attempt: int64, last: Option<Failure>) returns (t: Turn)
    requires FairDraw(w) && Positive(p) && 1 <= attempt <= p.attempts
    ensures t == OneTry(w, p, attempt as nat, last)
  {
    if w.endedBefore(attempt as nat) {
      return Ends(Run(Interrupted(attempt as nat - 1, last), 0, []));
    }
    var got := w.op(attempt as nat);
    if got.None? {
      return Ends(Run(Succeeded, 1, []));
    }
    if w.endedAfter(attempt as nat) {
      return Ends(Run(Failed(got.value), 1, []));
    }
    if !got.value.transient {
      return Ends(Run(Failed(got.value), 1, []));
    }
    if attempt == p.attempts {
      if p.attempts > 1 {
        return Ends(Run(Exhausted(p.attempts as nat, got.value), 1, []));
      }
      return Ends(Run(Failed(got.value), 1, []));
    }
    var wait := Backoff(w, p, attempt);
    var after := got.value.after;
    if after > 0 {
      var floor := if after <= p.cap then after else p.cap;
      wait := if wait >= floor then wait else floor;
    }
    if w.sleepEnds(attempt as nat) {
      return Ends(Run(Interrupted(attempt as nat, got), 1, [wait]));
    }
    return Goes(got.value, wait);
  }

  method Do(w: World, policy: Policy) returns (outcome: Outcome, runs: nat, waits: seq<int64>)
    requires FairDraw(w)
    ensures Run(outcome, runs, waits) == From(w, Normalized(policy), 1, None)
  {
    var p := Normalized(policy);
    var last: Option<Failure> := None;
    runs, waits := 0, [];
    var attempt: int64 := 1;
    while true
      invariant 1 <= attempt <= p.attempts
      invariant From(w, p, 1, None) == Onto(runs, waits, From(w, p, attempt as nat, last))
      decreases p.attempts - attempt
    {
      var turn := TryOnce(w, p, attempt, last);
      match turn
      case Ends(run) => return run.outcome, runs + run.runs, waits + run.waits;
      case Goes(failure, wait) =>
        OntoOnto(runs, waits, 1, [wait], From(w, p, attempt as nat + 1, Some(failure)));
        last, runs, waits, attempt := Some(failure), runs + 1, waits + [wait], attempt + 1;
    }
  }

  // ---- what every run keeps ----

  function Sum(waits: seq<int64>): int {
    if waits == [] then 0 else waits[0] as int + Sum(waits[1..])
  }

  /** The wait after attempt k. */
  predicate WaitKept(w: World, p: Policy, k: nat, wait: int64) {
    && 0 <= wait <= p.cap
    && w.op(k).Some? && w.op(k).value.transient
    && (w.op(k).value.after > 0 ==> wait as int >= Min(w.op(k).value.after as int, p.cap as int))
  }

  /** From attempt k on the operation runs at most the attempts that are left, only a transient failure
      is ever waited on, and each wait is within the cap and no shorter than the far end's, up to it. */
  lemma {:induction false} RunKept(w: World, p: Policy, k: nat, last: Option<Failure>)
    requires FairDraw(w) && Positive(p) && 1 <= k <= p.attempts as nat
    ensures
      var r := From(w, p, k, last);
      && r.runs <= p.attempts as nat - k + 1
      && r.runs - 1 <= |r.waits| <= r.runs
      && |r.waits| <= p.attempts as nat - k
      && (forall i :: 0 <= i < |r.waits| ==> WaitKept(w, p, k + i, r.waits[i]))
    decreases p.attempts as nat - k
  {
    var r := From(w, p, k, last);
    if r.waits != [] {
      WaitBounds(w, p, k, w.op(k).value.after);
    }
    match OneTry(w, p, k, last)
    case Ends(_) =>
    case Goes(failure, wait) =>
      RunKept(w, p, k + 1, Some(failure));
      WaitsOnto(w, p, k, wait, From(w, p, k + 1, Some(failure)).waits);
  }

  lemma WaitsOnto(w: World, p: Policy, k: nat, wait: int64, waits: seq<int64>)
    requires WaitKept(w, p, k, wait)
    requires forall i :: 0 <= i < |waits| ==> WaitKept(w, p, k + 1 + i, waits[i])
    ensures forall i :: 0 <= i < |[wait] + waits| ==> WaitKept(w, p, k + i, ([wait] + waits)[i])
  {
    forall i | 0 <= i < |[wait] + waits| ensures WaitKept(w, p, k + i, ([wait] + waits)[i]) {
      if i > 0 {
        assert WaitKept(w, p, k + 1 + (i - 1), waits[i - 1]);
      }
    }
  }

  lemma WaitBounds(w: World, p: Policy, k: nat, after: int64)
    requires FairDraw(w) && Positive(p) && k >= 1
    ensures 0 <= WaitAfter(w, p, k, after) <= p.cap
    ensures after > 0 ==> WaitAfter(w, p, k, after) as int >= Min(after as int, p.cap as int)
  {
    CeilingPositive(p, k);
    var n := Ceiling(p, k) as int64;
    assert 0 <= w.draw(k, n) < n;
  }

  lemma {:induction false} SumBounded(waits: seq<int64>, cap: int64)
    requires forall i :: 0 <= i < |waits| ==> 0 <= waits[i] <= cap
    ensures 0 <= Sum(waits) <= |waits| * cap as int
    decreases |waits|
  {
    if waits != [] {
      SumBounded(waits[1..], cap);
      assert |waits| * cap as int == |waits[1..]| * cap as int + cap as int;
    }
  }

  /** How a run from attempt k ends, told by its last run of the operation. */
  lemma {:induction false} HowItEnds(w: World, p: Policy, k: nat, last: Option<Failure>)
    requires FairDraw(w) && Positive(p) && 1 <= k <= p.attempts as nat
    ensures
      var r := From(w, p, k, last);
      var end := k + r.runs - 1;
      match r.outcome
      case Succeeded => r.runs > 0 && w.op(end) == None
      case Failed(f) =>
        && r.runs > 0 && w.op(end) == Some(f)
        && (w.endedAfter(end) || !f.transient || p.attempts == 1)
      case Exhausted(n, f) => n == p.attempts as nat == end && n > 1 && w.op(n) == Some(f) && f.transient
      case Interrupted(n, f) =>
        n == end && (if r.runs == 0 then f == last else f == w.op(n) && f.Some? && f.value.transient)
    decreases p.attempts as nat - k
  {
    match OneTry(w, p, k, last)
    case Ends(_) =>
    case Goes(failure, _) => HowItEnds(w, p, k + 1, Some(failure));
  }

  /** Under any policy a whole run makes at most its attempts, and waits at most the cap between them. */
  lemma RunBounds(w: World, policy: Policy)
    requires FairDraw(w)
    ensures
      var p := Normalized(policy);
      var r := From(w, p, 1, None);
      && r.runs <= p.attempts as int
      && (forall i :: 0 <= i < |r.waits| ==> WaitKept(w, p, 1 + i, r.waits[i]))
      && 0 <= Sum(r.waits) <= (p.attempts as int - 1) * p.cap as int
  {
    var p := Normalized(policy);
    var r := From(w, p, 1, None);
    RunKept(w, p, 1, None);
    forall i | 0 <= i < |r.waits| ensures 0 <= r.waits[i] <= p.cap {
      assert WaitKept(w, p, 1 + i, r.waits[i]);
    }
    SumBounded(r.waits, p.cap);
    MulMonotone(|r.waits|, p.attempts as int - 1, p.cap as int);
  }

  lemma MulMonotone(a: int, b: int, c: int)
    requires a <= b && 0 <= c
    ensures a * c <= b * c
  {
  }
}
