/** Which attempt ends a retried operation, and how long each wait before it was: a run of internal/retry/retry.go
    told by what its attempts come to. */
module RetryRuns {
  import opened Base
  import opened Retry

  /** Attempt k is followed by another: it failed in a way worth repeating, with attempts left, the context open
      around it, and a wait that was not cut short. */
  ghost predicate GoesOn(w: World, p: Policy, k: nat) {
    && !w.endedBefore(k) && !w.endedAfter(k) && !w.sleepEnds(k)
    && w.op(k).Some? && w.op(k).value.transient
    && k < p.attempts as int
  }

  /** The wait after attempt k: drawn below the base doubled with every attempt, up to the cap, and raised to what
      the far end asked for, up to the cap. */
  ghost predicate WaitedAfter(w: World, p: Policy, k: nat, wait: int64)
    requires k >= 1
  {
    && w.op(k).Some?
    && exists ceiling: int64 ::
         && ceiling as int == Min(p.cap as int, Twice(p.base as int, k - 1))
         && var drawn, after := w.draw(k, ceiling), Min(w.op(k).value.after as int, p.cap as int);
            wait as int == if w.op(k).value.after > 0 && after > drawn as int then after else drawn as int
  }

  lemma WaitIsDrawn(w: World, p: Policy, k: nat)
    requires Positive(p) && k >= 1 && w.op(k).Some?
    ensures WaitedAfter(w, p, k, WaitAfter(w, p, k, w.op(k).value.after))
  {
    CeilingPositive(p, k);
    var ceiling := Ceiling(p, k) as int64;
    assert ceiling as int == Min(p.cap as int, Twice(p.base as int, k - 1));
  }

  /** How a run ends at attempt k, having begun at attempt from after the failure before. */
  ghost predicate EndsAt(w: World, p: Policy, from: nat, before: Option<Failure>, k: nat, r: Run)
    requires 1 <= from <= k
  {
    && (forall i :: 0 <= i < |r.waits| ==> WaitedAfter(w, p, from + i, r.waits[i]))
    && if w.endedBefore(k) then
         && r.runs == |r.waits| == k - from
         && r.outcome == Interrupted(k - 1, if k == from then before else w.op(k - 1))
       else
         && r.runs == k - from + 1
         && match w.op(k)
            case None => r.outcome == Succeeded && |r.waits| == k - from
            case Some(failure) =>
              if w.endedAfter(k) || !failure.transient then r.outcome == Failed(failure) && |r.waits| == k - from
              else if k == p.attempts as int then
                && r.outcome == (if k > 1 then Exhausted(k, failure) else Failed(failure))
                && |r.waits| == k - from
              else r.outcome == Interrupted(k, Some(failure)) && |r.waits| == k - from + 1
  }

  lemma EndsLater(w: World, p: Policy, from: nat, before: Option<Failure>, k: nat, wait: int64, rest: Run)
    requires 1 <= from < k && w.op(from).Some? && WaitedAfter(w, p, from, wait)
    requires EndsAt(w, p, from + 1, w.op(from), k, rest)
    ensures EndsAt(w, p, from, before, k, Onto(1, [wait], rest))
  {
    var waits := [wait] + rest.waits;
    forall i | 0 <= i < |waits| ensures WaitedAfter(w, p, from + i, waits[i]) {
      if i > 0 {
        assert WaitedAfter(w, p, from + 1 + (i - 1), rest.waits[i - 1]);
      }
    }
  }

  lemma {:induction false} FromEndsAtFirst(w: World, p: Policy, from: nat, before: Option<Failure>, k: nat)
    requires Positive(p) && 1 <= from <= k <= p.attempts as nat
    requires !GoesOn(w, p, k) && forall j: nat :: from <= j < k ==> GoesOn(w, p, j)
    ensures EndsAt(w, p, from, before, k, From(w, p, from, before))
    decreases k - from
  {
    if w.op(from).Some? {
      WaitIsDrawn(w, p, from);
    }
    if from < k {
      assert GoesOn(w, p, from);
      FromEndsAtFirst(w, p, from + 1, w.op(from), k);
      var wait := WaitAfter(w, p, from, w.op(from).value.after);
      EndsLater(w, p, from, before, k, wait, From(w, p, from + 1, w.op(from)));
    }
  }

  /** Under any policy there is a first attempt that no other follows, and the run ends there: as that attempt says,
      with as many runs of the operation, and with the waits its failures ask for. */
  lemma RunEndsAtFirst(w: World, policy: Policy) returns (k: nat)
    ensures
      var p := Normalized(policy);
      && 1 <= k <= p.attempts as nat && !GoesOn(w, p, k) && (forall j: nat :: 1 <= j < k ==> GoesOn(w, p, j))
      && EndsAt(w, p, 1, None, k, From(w, p, 1, None))
  {
    var p := Normalized(policy);
    k := 1;
    while GoesOn(w, p, k)
      invariant 1 <= k <= p.attempts as nat && forall j: nat :: 1 <= j < k ==> GoesOn(w, p, j)
      decreases p.attempts as nat - k
    {
      k := k + 1;
    }
    FromEndsAtFirst(w, p, 1, None, k);
  }

  /** An operation that succeeds within the policy is seen to succeed, however often it failed before in ways worth
      repeating. */
  lemma SuccessIsReached(w: World, policy: Policy, k: nat)
    requires 1 <= k <= Normalized(policy).attempts as nat && w.op(k).None? && !w.endedBefore(k)
    requires forall j: nat :: 1 <= j < k ==> GoesOn(w, Normalized(policy), j)
    ensures
      var r := From(w, Normalized(policy), 1, None);
      r.outcome == Succeeded && r.runs == k && |r.waits| == k - 1
  {
    FromEndsAtFirst(w, Normalized(policy), 1, None, k);
  }
}
