/** What the code of one goroutine of a push does, as steps of PushProtocol. */
module PushRuns {
  import opened Base
  import opened PushProtocol
  import PushLedger
  import PushSucceeds

  datatype Goroutine = HashesFile | Uploads(w: nat)

  /** The steps of the hash pass, or those a worker takes with the part it holds. */
  ghost predicate StepOf(step: Step, who: Goroutine) {
    match who
    case HashesFile => step.HashChunk? || step.HashPart? || step.HashFinish? || step.HashFail?
    case Uploads(w) =>
      match step
      case Work(move, _) => !move.Enqueue? && !move.Receive? && !move.Leave? && move.w == w
      case WireBytes(_) => true
      case RetryNoted => true
      case _ => false
  }

  ghost predicate Ran(c: Config, who: Goroutine, s: State, steps: seq<Step>, t: State)
    requires c.Valid()
    decreases |steps|
  {
    if steps == [] then s == t
    else StepOf(steps[0], who) && Enabled(c, s, steps[0]) && Ran(c, who, Apply(c, s, steps[0]), steps[1..], t)
  }

  /** Some steps of this goroutine alone lead from s, which the push can reach, to t. */
  ghost predicate Led(c: Config, who: Goroutine, s: State, t: State)
    requires c.Valid()
  {
    PushSucceeds.Reachable(c, s) && exists steps :: Ran(c, who, s, steps, t)
  }

  lemma {:induction false} RanThen(
    c: Config, who: Goroutine, s: State, steps: seq<Step>, t: State, more: seq<Step>, u: State)
    requires c.Valid() && Ran(c, who, s, steps, t) && Ran(c, who, t, more, u)
    ensures Ran(c, who, s, steps + more, u)
    decreases |steps|
  {
    if steps == [] {
      assert steps + more == more;
    } else {
      assert (steps + more)[1..] == steps[1..] + more;
      RanThen(c, who, Apply(c, s, steps[0]), steps[1..], t, more, u);
    }
  }

  lemma LedNowhere(c: Config, who: Goroutine, s: State)
    requires PushSucceeds.Reachable(c, s)
    ensures Led(c, who, s, s)
  {
    assert Ran(c, who, s, [], s);
  }

  lemma LedOn(c: Config, who: Goroutine, s: State, t: State, step: Step)
    requires c.Valid() && Led(c, who, s, t) && StepOf(step, who) && Enabled(c, t, step)
    ensures Led(c, who, s, Apply(c, t, step))
  {
    var u := Apply(c, t, step);
    var steps :| Ran(c, who, s, steps, t);
    assert [step][1..] == [] && Ran(c, who, u, [], u);
    assert Ran(c, who, t, [step], u);
    RanThen(c, who, s, steps, t, [step], u);
  }

  lemma {:induction false} RanGoesOn(c: Config, who: Goroutine, s: State, steps: seq<Step>, t: State)
    requires PushSucceeds.Reachable(c, s) && Ran(c, who, s, steps, t)
    ensures PushSucceeds.Reachable(c, t)
    decreases |steps|
  {
    if steps != [] {
      PushSucceeds.ReachableOn(c, s, steps[0]);
      RanGoesOn(c, who, Apply(c, s, steps[0]), steps[1..], t);
    }
  }

  /** So the code keeps the push in states that some interleaving reaches. */
  lemma LedIsReachable(c: Config, who: Goroutine, s: State, t: State)
    requires c.Valid() && Led(c, who, s, t)
    ensures PushSucceeds.Reachable(c, t) && PushLedger.LedgerKept(t.ledger)
  {
    var steps :| Ran(c, who, s, steps, t);
    RanGoesOn(c, who, s, steps, t);
    PushSucceeds.ReachableKept(c, t);
  }
}
