/** No request waits for nothing: whoever waits on an exchange can be woken, and from everywhere every
    request can still end. */
module AuthProgress {
  import opened Base
  import opened AuthState
  import opened AuthProtocol
  import opened AuthSafety
  import opened AuthResults

  /** The requester that began entry e has still to close its channel. */
  ghost predicate AtWork(q: Request, e: nat) {
    (q.Minting? || q.Publishing?) && q.entry == e
  }

  /** A channel is closed, or whoever will close it is still at it. */
  ghost predicate Awake(s: State, e: nat)
    requires e < |s.auth.heap| && e < |s.minter| && s.minter[e] < |s.requests|
  {
    s.auth.heap[e].ready || AtWork(s.requests[s.minter[e]], e)
  }

  ghost predicate Woken(c: Config, s: State) {
    Shape(c, s) && forall e :: 0 <= e < |s.auth.heap| ==> Awake(s, e)
  }

  /** What a step does to a channel and to the requester who is to close it. */
  lemma AuthorizeAwake(c: Config, s: State, r: nat, now: int, e: nat)
    requires Core(c, s) && Enabled(c, s, Authorize(r, now)) && e < |s.auth.heap| && Awake(s, e)
    requires Shape(c, Apply(c, s, Authorize(r, now)))
    ensures |s.auth.heap| <= |Apply(c, s, Authorize(r, now)).auth.heap| && Awake(Apply(c, s, Authorize(r, now)), e)
  {
  }

  lemma RefuseAwake(c: Config, s: State, r: nat, asked: Challenge, e: nat)
    requires Core(c, s) && Enabled(c, s, Refuse(r, asked)) && e < |s.auth.heap| && Awake(s, e)
    requires Shape(c, Apply(c, s, Refuse(r, asked)))
    ensures |s.auth.heap| <= |Apply(c, s, Refuse(r, asked)).auth.heap| && Awake(Apply(c, s, Refuse(r, asked)), e)
  {
  }

  /** Steps that leave every channel as it is. */
  predicate LeavesChannels(step: Step) {
    step.WaitOver? || step.CancelWait? || step.Reply? || step.TransportFails? || step.Unanswerable? || step.LearnIt?
  }

  lemma QuietAwake(c: Config, s: State, step: Step, e: nat)
    requires Core(c, s) && Enabled(c, s, step) && e < |s.auth.heap| && Awake(s, e)
    requires LeavesChannels(step) && Shape(c, Apply(c, s, step))
    ensures |Apply(c, s, step).auth.heap| == |s.auth.heap| && Awake(Apply(c, s, step), e)
  {
  }

  lemma HearAwake(c: Config, s: State, r: nat, e: nat)
    requires Core(c, s) && Enabled(c, s, Hear(r)) && e < |s.auth.heap| && Awake(s, e)
    requires Shape(c, Apply(c, s, Hear(r)))
    ensures |Apply(c, s, Hear(r)).auth.heap| == |s.auth.heap| && Awake(Apply(c, s, Hear(r)), e)
  {
  }

  lemma ExchangeAwake(c: Config, s: State, step: Step, e: nat)
    requires Core(c, s) && Enabled(c, s, step) && e < |s.auth.heap| && Awake(s, e)
    requires (step.ExchangeEnds? || step.Close?) && Shape(c, Apply(c, s, step))
    ensures |Apply(c, s, step).auth.heap| == |s.auth.heap| && Awake(Apply(c, s, step), e)
  {
  }

  lemma DenyAwake(c: Config, s: State, r: nat, e: nat)
    requires Core(c, s) && Enabled(c, s, DenyIt(r)) && e < |s.auth.heap| && Awake(s, e)
    requires Shape(c, Apply(c, s, DenyIt(r)))
    ensures |Apply(c, s, DenyIt(r)).auth.heap| == |s.auth.heap| && Awake(Apply(c, s, DenyIt(r)), e)
  {
  }

  lemma OtherAwake(c: Config, s: State, step: Step, e: nat)
    requires Core(c, s) && Enabled(c, s, step) && e < |s.auth.heap| && Awake(s, e)
    requires !step.Authorize? && !step.Refuse? && Shape(c, Apply(c, s, step))
    ensures |Apply(c, s, step).auth.heap| == |s.auth.heap| && Awake(Apply(c, s, step), e)
  {
    if step.Hear? {
      HearAwake(c, s, step.r, e);
    } else if step.DenyIt? {
      DenyAwake(c, s, step.r, e);
    } else if LeavesChannels(step) {
      QuietAwake(c, s, step, e);
    } else {
      ExchangeAwake(c, s, step, e);
    }
  }

  /** An exchange that begins is made by the request that began it. */
  lemma BegunAwake(c: Config, s: State, step: Step)
    requires Core(c, s) && Enabled(c, s, step) && Shape(c, Apply(c, s, step))
    ensures
      var t := Apply(c, s, step);
      || |t.auth.heap| == |s.auth.heap|
      || (|t.auth.heap| == |s.auth.heap| + 1 && Awake(t, |s.auth.heap|))
  {
    if step.Authorize? {
      AuthorizeBegins(c, s, step.r, step.now);
    } else if step.Refuse? {
      RefuseBegins(c, s, step.r, step.asked);
    } else {
      OtherEnters(c, s, step);
    }
  }

  lemma AuthorizeBegins(c: Config, s: State, r: nat, now: int)
    requires Core(c, s) && Enabled(c, s, Authorize(r, now)) && Shape(c, Apply(c, s, Authorize(r, now)))
    ensures
      var t := Apply(c, s, Authorize(r, now));
      || |t.auth.heap| == |s.auth.heap|
      || (|t.auth.heap| == |s.auth.heap| + 1 && Awake(t, |s.auth.heap|))
  {
  }

  lemma RefuseBegins(c: Config, s: State, r: nat, asked: Challenge)
    requires Core(c, s) && Enabled(c, s, Refuse(r, asked)) && Shape(c, Apply(c, s, Refuse(r, asked)))
    ensures
      var t := Apply(c, s, Refuse(r, asked));
      || |t.auth.heap| == |s.auth.heap|
      || (|t.auth.heap| == |s.auth.heap| + 1 && Awake(t, |s.auth.heap|))
  {
  }

  lemma StepWoken(c: Config, s: State, step: Step)
    requires Core(c, s) && Woken(c, s) && Enabled(c, s, step)
    ensures Woken(c, Apply(c, s, step))
  {
    var t := Apply(c, s, step);
    StepKept(c, s, step);
    BegunAwake(c, s, step);
    forall e | 0 <= e < |t.auth.heap| ensures Awake(t, e) {
      if e < |s.auth.heap| {
        if step.Authorize? {
          AuthorizeAwake(c, s, step.r, step.now, e);
        } else if step.Refuse? {
          RefuseAwake(c, s, step.r, step.asked, e);
        } else {
          OtherAwake(c, s, step, e);
        }
      }
    }
  }

  lemma {:induction false} RunWoken(c: Config, s: State, steps: seq<Step>)
    requires Core(c, s) && Woken(c, s) && Runs(c, s, steps)
    ensures Core(c, Run(c, s, steps)) && Woken(c, Run(c, s, steps))
    decreases |steps|
  {
    if steps != [] {
      StepKept(c, s, steps[0]);
      StepWoken(c, s, steps[0]);
      RunWoken(c, Apply(c, s, steps[0]), steps[1..]);
    }
  }

  lemma ReachableWoken(c: Config, s: State)
    requires Reachable(c, s)
    ensures Core(c, s) && Woken(c, s)
  {
    var steps :| Runs(c, Initial(c), steps) && Run(c, Initial(c), steps) == s;
    InitialKept(c);
    RunWoken(c, Initial(c), steps);
  }

  /** No wakeup is lost: in every reachable state, the channel a request waits on is closed, or another
      request of the same scope is still making the exchange or about to close it. */
  lemma NoLostWakeup(c: Config, s: State, r: nat)
    requires Reachable(c, s) && r < |s.requests| && s.requests[r].Waiting?
    ensures
      var e := s.requests[r].entry;
      && e < |s.auth.heap| == |s.minter|
      && (s.auth.heap[e].ready ||
          (&& s.minter[e] < |s.requests| == |c.verbs| && s.minter[e] != r
           && c.Valid() && c.Scope(s.minter[e]) == c.Scope(r)
           && AtWork(s.requests[s.minter[e]], e)))
  {
    ReachableWoken(c, s);
    assert RequestKept(c, s, r);
    assert Awake(s, s.requests[r].entry);
  }

  // ---- every request can end ----

  /** No wait is cancelled and no transport fails. */
  ghost predicate Patient(steps: seq<Step>) {
    forall i :: 0 <= i < |steps| ==> !steps[i].CancelWait? && !steps[i].TransportFails?
  }

  /** Some such run leads from s to t. */
  ghost predicate Leads(c: Config, s: State, t: State) {
    exists steps :: Patient(steps) && Runs(c, s, steps) && Run(c, s, steps) == t
  }

  /** A run may lead from s to t, and nothing that had ended goes on. */
  ghost predicate Onward(c: Config, s: State, t: State) {
    && Reachable(c, t) && Leads(c, s, t) && |t.requests| == |s.requests|
    && forall v :: 0 <= v < |s.requests| && s.requests[v].Finished? ==> t.requests[v].Finished?
  }

  lemma OnwardHere(c: Config, s: State)
    requires Reachable(c, s)
    ensures Onward(c, s, s)
  {
    assert Patient([]) && Runs(c, s, []) && Run(c, s, []) == s;
  }

  lemma OnwardBy(c: Config, s: State, t: State, step: Step) returns (u: State)
    requires Onward(c, s, t) && Enabled(c, t, step) && !step.CancelWait? && !step.TransportFails?
    ensures u == Apply(c, t, step) && Onward(c, s, u)
  {
    u := Apply(c, t, step);
    var steps :| Patient(steps) && Runs(c, s, steps) && Run(c, s, steps) == t;
    OneMore(c, s, steps, step);
    assert Patient(steps + [step]);
    NextReachable(c, t, step);
    ReachableKept(c, t);
    EndedStaysEnded(c, t, step);
  }

  lemma EndedStaysEnded(c: Config, s: State, step: Step)
    requires Core(c, s) && Enabled(c, s, step)
    ensures |Apply(c, s, step).requests| == |s.requests|
    ensures forall v :: 0 <= v < |s.requests| && s.requests[v].Finished? ==> Apply(c, s, step).requests[v] == s.requests[v]
  {
    forall v | 0 <= v < |s.requests| && s.requests[v].Finished?
      ensures |Apply(c, s, step).requests| == |s.requests| && Apply(c, s, step).requests[v] == s.requests[v]
    {
      OthersStay(c, s, step, v);
    }
  }

  /** Past the lock with a header, or ended. */
  ghost predicate Sent(q: Request) {
    q.InFlight? || q.Finished?
  }

  lemma EndFlight(c: Config, s: State, t: State, r: nat) returns (u: State)
    requires Onward(c, s, t) && r < |t.requests| && Sent(t.requests[r])
    ensures Onward(c, s, u) && u.requests[r].Finished?
  {
    ReachableKept(c, t);
    u := t;
    if u.requests[r].InFlight? {
      u := OnwardBy(c, s, u, Reply(r, false));
      ReachableKept(c, u);
      u := OnwardBy(c, s, u, Hear(r));
    }
  }

  lemma CloseIt(c: Config, s: State, t: State, v: nat) returns (u: State)
    requires Onward(c, s, t) && v < |t.requests| && t.requests[v].Publishing?
    ensures Onward(c, s, u) && Sent(u.requests[v])
    ensures t.requests[v].entry < |u.auth.heap| && u.auth.heap[t.requests[v].entry].ready
    ensures forall w :: 0 <= w < |t.requests| && w != v ==> u.requests[w] == t.requests[w]
  {
    ReachableKept(c, t);
    assert RequestKept(c, t, v);
    u := OnwardBy(c, s, t, Close(v));
  }

  /** Whoever makes an exchange can end it. */
  lemma EndExchange(c: Config, s: State, t: State, v: nat) returns (u: State)
    requires Onward(c, s, t) && v < |t.requests| && (t.requests[v].Minting? || t.requests[v].Publishing?)
    ensures Onward(c, s, u) && Sent(u.requests[v])
    ensures t.requests[v].entry < |u.auth.heap| && u.auth.heap[t.requests[v].entry].ready
    ensures forall w :: 0 <= w < |t.requests| && w != v ==> u.requests[w] == t.requests[w]
  {
    u := t;
    if u.requests[v].Minting? {
      ReachableKept(c, t);
      assert RequestKept(c, t, v);
      u := OnwardBy(c, s, t, ExchangeEnds(v, BrokenExchange, 0));
    }
    u := CloseIt(c, s, u, v);
  }

  /** Whoever waits is woken by the end of that exchange, and told what it came to. */
  lemma EndWait(c: Config, s: State, t: State, r: nat) returns (u: State)
    requires Onward(c, s, t) && r < |t.requests| && t.requests[r].Waiting?
    ensures Onward(c, s, u) && Sent(u.requests[r])
  {
    NoLostWakeup(c, t, r);
    var e := t.requests[r].entry;
    u := t;
    if !u.auth.heap[e].ready {
      u := EndExchange(c, s, t, t.minter[e]);
    }
    ReachableKept(c, u);
    u := OnwardBy(c, s, u, WaitOver(r));
    WaitGives(c, t, e);
  }

  lemma WaitGives(c: Config, s: State, e: nat)
    requires e < |s.auth.heap|
    ensures WaitResult(s.auth, e).GiveUp? || WaitResult(s.auth, e).Present?
  {
  }

  lemma EndOne(c: Config, s: State, t: State, r: nat) returns (u: State)
    requires Onward(c, s, t) && r < |t.requests|
    ensures Onward(c, s, u) && u.requests[r].Finished?
  {
    ReachableKept(c, t);
    u := t;
    if u.requests[r].Idle? {
      u := OnwardBy(c, s, u, Authorize(r, 0));
      AsksOnce(c, t, r);
    } else if u.requests[r].Turned? {
      if u.requests[r].purpose.First? {
        u := OnwardBy(c, s, u, Unanswerable(r));
      } else {
        u := OnwardBy(c, s, u, DenyIt(r));
      }
    } else if u.requests[r].Heard? {
      u := OnwardBy(c, s, u, Hear(r));
    }
    if u.requests[r].Waiting? {
      u := EndWait(c, s, u, r);
    } else if u.requests[r].Minting? || u.requests[r].Publishing? {
      u := EndExchange(c, s, u, r);
    }
    u := EndFlight(c, s, u, r);
  }

  lemma AsksOnce(c: Config, s: State, r: nat)
    requires Core(c, s) && Enabled(c, s, Authorize(r, 0))
    ensures
      var t := Apply(c, s, Authorize(r, 0));
      && |t.requests| == |s.requests|
      && (Sent(t.requests[r]) || t.requests[r].Waiting? || t.requests[r].Minting?)
  {
  }

  lemma {:induction false} EndAll(c: Config, s: State, t: State, r: nat) returns (u: State)
    requires Onward(c, s, t) && r <= |t.requests|
    requires forall v :: 0 <= v < r ==> t.requests[v].Finished?
    ensures Onward(c, s, u) && forall v :: 0 <= v < |u.requests| ==> u.requests[v].Finished?
    decreases |t.requests| - r
  {
    if r == |t.requests| {
      u := t;
    } else {
      OnwardHere(c, t);
      u := EndOne(c, t, t, r);
      OnwardOnward(c, s, t, u);
      u := EndAll(c, s, u, r + 1);
    }
  }

  lemma {:induction false} RunsThen(c: Config, s: State, steps: seq<Step>, more: seq<Step>)
    requires Runs(c, s, steps) && Runs(c, Run(c, s, steps), more)
    ensures Runs(c, s, steps + more) && Run(c, s, steps + more) == Run(c, Run(c, s, steps), more)
    decreases |steps|
  {
    if steps == [] {
      assert steps + more == more;
    } else {
      assert (steps + more)[1..] == steps[1..] + more;
      RunsThen(c, Apply(c, s, steps[0]), steps[1..], more);
    }
  }

  lemma OnwardOnward(c: Config, s: State, t: State, u: State)
    requires Onward(c, s, t) && Onward(c, t, u)
    ensures Onward(c, s, u)
  {
    var steps :| Patient(steps) && Runs(c, s, steps) && Run(c, s, steps) == t;
    var more :| Patient(more) && Runs(c, t, more) && Run(c, t, more) == u;
    RunsThen(c, s, steps, more);
    assert Patient(steps + more);
  }

  /** Nobody is ever stuck: from every reachable state some run ends every request, with no wait cancelled and
      no transport failing. */
  lemma EveryRequestCanEnd(c: Config, s: State)
    requires Reachable(c, s)
    ensures exists t ::
              Leads(c, s, t) && |t.requests| == |s.requests|
              && forall v :: 0 <= v < |t.requests| ==> t.requests[v].Finished?
  {
    OnwardHere(c, s);
    var t := EndAll(c, s, s, 0);
  }
}
