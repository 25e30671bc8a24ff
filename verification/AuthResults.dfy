/** What the authentication of one repository promises about whole runs. */
module AuthResults {
  import opened Base
  import opened AuthState
  import opened AuthProtocol
  import opened AuthSafety

  /** Every state any interleaving can reach. */
  ghost predicate Reachable(c: Config, s: State) {
    c.Valid() && exists steps :: Runs(c, Initial(c), steps) && Run(c, Initial(c), steps) == s
  }

  lemma ReachableKept(c: Config, s: State)
    requires Reachable(c, s)
    ensures Core(c, s)
  {
    var steps :| Runs(c, Initial(c), steps) && Run(c, Initial(c), steps) == s;
    InitialKept(c);
    RunKept(c, Initial(c), steps);
  }

  /** Each scope has at most one exchange in flight. */
  lemma SingleFlight(c: Config, s: State, q: nat, r: nat)
    requires Reachable(c, s) && q < |s.requests| == |c.verbs| && r < |s.requests|
    requires s.requests[q].Minting? && s.requests[r].Minting? && c.Scope(q) == c.Scope(r)
    ensures q == r
  {
    ReachableKept(c, s);
    assert RequestKept(c, s, q) && RequestKept(c, s, r);
    assert EntryKept(c, s, s.requests[q].entry) && EntryKept(c, s, s.requests[r].entry);
  }

  // ---- the fate of the entry a scope holds ----

  /** One step leaves the entry a scope holds in place, with its state moved forward at most, or drops
      it because its own exchange broke, or replaces it: and it replaces only a token no longer usable,
      or a proven one just refused. */
  ghost predicate Fate(c: Config, s: State, step: Step, t: State, k: Scope)
    requires k in s.auth.entries && s.auth.entries[k] < |s.auth.heap| <= |t.auth.heap|
  {
    var e := s.auth.entries[k];
    var x := s.auth.heap[e];
    var y := t.auth.heap[e];
    if k !in t.auth.entries then x.state.Acquiring? && step.ExchangeEnds? && step.got.BrokenExchange?
    else if t.auth.entries[k] == e then
      || (x.state == y.state && x.err == y.err && x.header == y.header)
      || (x.state.Acquiring? && step.ExchangeEnds?)
      || (x.state.Unproven? && y.state.Proven? && x.header == y.header)
      || ((x.state.Unproven? || x.state.Proven?) && y.state.Denied? && y.err == Some(ScopeDenied(k)))
    else
      && t.auth.entries[k] == |s.auth.heap|
      && (|| (step.Authorize? && (x.state.Unproven? || x.state.Proven?) && !Usable(x, step.now))
          || (step.Refuse? && x.state.Proven?))
  }

  /** Nothing but a begun exchange, an ended one, a verdict or an answer touches the entries. */
  lemma QuietFate(c: Config, s: State, step: Step, k: Scope)
    requires Core(c, s) && Enabled(c, s, step) && k in s.auth.entries
    requires !step.ExchangeEnds? && !step.Authorize? && !step.Refuse? && !step.DenyIt?
    ensures |s.auth.heap| <= |Apply(c, s, step).auth.heap| && Fate(c, s, step, Apply(c, s, step), k)
  {
  }

  lemma AuthorizeFate(c: Config, s: State, r: nat, now: int, k: Scope)
    requires Core(c, s) && Enabled(c, s, Authorize(r, now)) && k in s.auth.entries
    ensures
      var t := Apply(c, s, Authorize(r, now));
      |s.auth.heap| <= |t.auth.heap| && Fate(c, s, Authorize(r, now), t, k)
  {
  }

  lemma RefuseFate(c: Config, s: State, r: nat, asked: Challenge, k: Scope)
    requires Core(c, s) && Enabled(c, s, Refuse(r, asked)) && k in s.auth.entries
    ensures
      var t := Apply(c, s, Refuse(r, asked));
      |s.auth.heap| <= |t.auth.heap| && Fate(c, s, Refuse(r, asked), t, k)
  {
    assert MapKept(c, s, k);
    if c.Scope(r) in s.auth.entries {
      assert MapKept(c, s, c.Scope(r));
    }
  }

  lemma DenyFate(c: Config, s: State, r: nat, k: Scope)
    requires Core(c, s) && Enabled(c, s, DenyIt(r)) && k in s.auth.entries
    ensures
      var t := Apply(c, s, DenyIt(r));
      |s.auth.heap| <= |t.auth.heap| && Fate(c, s, DenyIt(r), t, k)
  {
    assert MapKept(c, s, k) && EntryKept(c, s, s.auth.entries[k]) && RequestKept(c, s, r);
    if c.Scope(r) in s.auth.entries {
      assert MapKept(c, s, c.Scope(r));
    }
  }

  lemma ExchangeFate(c: Config, s: State, r: nat, got: Exchange, now: int, k: Scope)
    requires Core(c, s) && Enabled(c, s, ExchangeEnds(r, got, now)) && k in s.auth.entries
    ensures
      var t := Apply(c, s, ExchangeEnds(r, got, now));
      |s.auth.heap| <= |t.auth.heap| && Fate(c, s, ExchangeEnds(r, got, now), t, k)
  {
    assert RequestKept(c, s, r) && EntryKept(c, s, s.requests[r].entry);
  }

  lemma HeldFate(c: Config, s: State, step: Step, k: Scope)
    requires Core(c, s) && Enabled(c, s, step) && k in s.auth.entries
    ensures |s.auth.heap| <= |Apply(c, s, step).auth.heap| && Fate(c, s, step, Apply(c, s, step), k)
  {
    match step
    case Authorize(r, now) => AuthorizeFate(c, s, r, now, k);
    case Refuse(r, asked) => RefuseFate(c, s, r, asked, k);
    case DenyIt(r) => DenyFate(c, s, r, k);
    case ExchangeEnds(r, got, now) => ExchangeFate(c, s, r, got, now, k);
    case _ => QuietFate(c, s, step, k);
  }

  /** An acquiring entry is replaced by nothing: it stays its scope's entry until an exchange ends, and
      by FinishFindsItsEntry and SingleFlight that exchange is its own. */
  lemma AcquiringNeverReplaced(c: Config, s: State, step: Step, k: Scope)
    requires Core(c, s) && Enabled(c, s, step) && k in s.auth.entries
    requires s.auth.heap[s.auth.entries[k]].state.Acquiring? && !step.ExchangeEnds?
    ensures
      var t := Apply(c, s, step);
      && k in t.auth.entries && t.auth.entries[k] == s.auth.entries[k]
      && t.auth.entries[k] < |t.auth.heap| && t.auth.heap[t.auth.entries[k]].state.Acquiring?
  {
    HeldFate(c, s, step, k);
  }

  lemma FinishFindsItsEntry(c: Config, s: State, r: nat)
    requires Reachable(c, s) && r < |s.requests| == |c.verbs| && s.requests[r].Minting?
    ensures c.Scope(r) in s.auth.entries && s.auth.entries[c.Scope(r)] == s.requests[r].entry
  {
    ReachableKept(c, s);
    assert RequestKept(c, s, r) && EntryKept(c, s, s.requests[r].entry);
  }

  ghost predicate DeniedScope(s: State, k: Scope, err: AuthError) {
    && k in s.auth.entries
    && s.auth.entries[k] < |s.auth.heap|
    && s.auth.heap[s.auth.entries[k]].state == Denied
    && s.auth.heap[s.auth.entries[k]].err == Some(err)
  }

  lemma DeniedStays(c: Config, s: State, step: Step, k: Scope, err: AuthError)
    requires Core(c, s) && Enabled(c, s, step) && DeniedScope(s, k, err)
    ensures DeniedScope(Apply(c, s, step), k, err)
  {
    HeldFate(c, s, step, k);
  }

  /** Denied is absorbing: once a scope is denied it stays denied, with the same error. */
  lemma {:induction false} DeniedIsAbsorbing(c: Config, s: State, steps: seq<Step>, k: Scope, err: AuthError)
    requires Core(c, s) && Runs(c, s, steps) && DeniedScope(s, k, err)
    ensures DeniedScope(Run(c, s, steps), k, err)
    decreases |steps|
  {
    if steps != [] {
      StepKept(c, s, steps[0]);
      DeniedStays(c, s, steps[0], k, err);
      DeniedIsAbsorbing(c, Apply(c, s, steps[0]), steps[1..], k, err);
    }
  }

  /** A repository that holds an entry has been challenged. */
  ghost predicate Challenged(s: State) {
    s.auth.entries != map[] ==> s.auth.challenged
  }

  /** Of the entries begun for a scope, the one it holds is the last. */
  ghost predicate HoldsLast(c: Config, s: State)
    requires Shape(c, s)
  {
    forall e: nat :: e < |s.minter| && ScopeOf(c, s, e) in s.auth.entries ==> e <= s.auth.entries[ScopeOf(c, s, e)]
  }

  ghost predicate Sound(c: Config, s: State) {
    Core(c, s) && Challenged(s) && HoldsLast(c, s)
  }

  /** A step begins no exchange and gives no scope another entry, or begins one, which its scope then
      holds. */
  ghost predicate Entered(s: State, t: State) {
    && t.minter == s.minter && (s.auth.challenged ==> t.auth.challenged)
    && forall k :: k in t.auth.entries ==> k in s.auth.entries && t.auth.entries[k] == s.auth.entries[k]
  }

  ghost predicate Begun(c: Config, s: State, t: State, r: nat) {
    && r < |c.verbs| && t.minter == s.minter + [r] && t.auth.challenged
    && t.auth.entries == s.auth.entries[c.Scope(r) := |s.minter|]
  }

  lemma EnteredSound(c: Config, s: State, t: State)
    requires Sound(c, s) && Core(c, t) && Entered(s, t)
    ensures Sound(c, t)
  {
    forall e: nat | e < |t.minter| && ScopeOf(c, t, e) in t.auth.entries
      ensures e <= t.auth.entries[ScopeOf(c, t, e)]
    {
      assert ScopeOf(c, t, e) == ScopeOf(c, s, e);
    }
    if t.auth.entries != map[] {
      var k :| k in t.auth.entries;
      assert k in s.auth.entries;
    }
  }

  lemma BegunSound(c: Config, s: State, t: State, r: nat)
    requires Sound(c, s) && Core(c, t) && Begun(c, s, t, r)
    ensures Sound(c, t)
  {
    forall e: nat | e < |t.minter| && ScopeOf(c, t, e) in t.auth.entries
      ensures e <= t.auth.entries[ScopeOf(c, t, e)]
    {
      assert e < |s.minter| ==> ScopeOf(c, t, e) == ScopeOf(c, s, e);
    }
  }

  lemma StepSound(c: Config, s: State, step: Step)
    requires Sound(c, s) && Enabled(c, s, step)
    ensures Sound(c, Apply(c, s, step))
  {
    var t := Apply(c, s, step);
    StepKept(c, s, step);
    if step.Authorize? {
      AuthorizeEnters(c, s, step.r, step.now);
    } else if step.Refuse? {
      RefuseEnters(c, s, step.r, step.asked);
    } else {
      OtherEnters(c, s, step);
    }
    if Entered(s, t) {
      EnteredSound(c, s, t);
    } else {
      BegunSound(c, s, t, step.r);
    }
  }

  lemma AuthorizeEnters(c: Config, s: State, r: nat, now: int)
    requires Core(c, s) && Enabled(c, s, Authorize(r, now))
    ensures Entered(s, Apply(c, s, Authorize(r, now))) || Begun(c, s, Apply(c, s, Authorize(r, now)), r)
  {
  }

  lemma RefuseEnters(c: Config, s: State, r: nat, asked: Challenge)
    requires Core(c, s) && Enabled(c, s, Refuse(r, asked))
    ensures Entered(s, Apply(c, s, Refuse(r, asked))) || Begun(c, s, Apply(c, s, Refuse(r, asked)), r)
  {
  }

  lemma OtherEnters(c: Config, s: State, step: Step)
    requires Core(c, s) && Enabled(c, s, step) && !step.Authorize? && !step.Refuse?
    ensures Entered(s, Apply(c, s, step))
  {
  }

  lemma {:induction false} RunSound(c: Config, s: State, steps: seq<Step>)
    requires Sound(c, s) && Runs(c, s, steps)
    ensures Sound(c, Run(c, s, steps))
    decreases |steps|
  {
    if steps != [] {
      StepSound(c, s, steps[0]);
      RunSound(c, Apply(c, s, steps[0]), steps[1..]);
    }
  }

  lemma ReachableSound(c: Config, s: State)
    requires Reachable(c, s)
    ensures Sound(c, s)
  {
    var steps :| Runs(c, Initial(c), steps) && Run(c, Initial(c), steps) == s;
    InitialKept(c);
    RunSound(c, Initial(c), steps);
  }

  /** And a request that asks for a denied scope, before its first send or after a refusal of whatever it
      carried, is given up with the scope's error. It changes no entry, so it starts no exchange. */
  lemma DeniedGivesNothing(
    c: Config, s: State, steps: seq<Step>, k: Scope, err: AuthError, sent: Header, asked: Challenge, now: int)
    requires Reachable(c, s) && Runs(c, s, steps) && DeniedScope(s, k, err)
    ensures
      var a := Run(c, s, steps).auth;
      && WellFormed(a)
      && AuthState.Authorize(a, k, now) == Outcome(a, GiveUp(err))
      && var out := Refused(a, k, sent, asked);
      && out.decision == GiveUp(err) && out.auth.entries == a.entries && out.auth.heap == a.heap
  {
    ReachableSound(c, s);
    RunSound(c, s, steps);
    DeniedIsAbsorbing(c, s, steps, k, err);
  }

  /** Past the lock, waiting on an exchange or making one. */
  ghost predicate Pending(q: Request) {
    q.Waiting? || q.Minting? || q.Publishing?
  }

  /** A request for a scope that holds a denied entry, already past the lock, leaves with a header: it waited
      on an exchange that gave a token, earlier than the denied one and not itself denied, or its own
      exchange has just given one; and its body can still be sent. */
  ghost predicate Straggles(c: Config, s: State, step: Step, k: Scope, r: nat)
    requires Shape(c, s) && k in s.auth.entries && r < |s.requests|
  {
    var q := s.requests[r];
    match step
    case WaitOver(v) =>
      && v == r && q.Waiting? && q.entry < s.auth.entries[k]
      && s.outcome[q.entry].Some? && s.outcome[q.entry].value.Token?
      && s.auth.heap[q.entry].state != Denied
      && (q.purpose.First? || c.replayable[r])
    case Close(v) => v == r && q.Publishing? && q.got.Token? && (q.purpose.First? || c.replayable[r])
    case _ => false
  }

  /** The header a request that straggles leaves with: what the exchange it waited on or made gave. */
  ghost predicate GivenTo(s: State, q: Request, u: Request) {
    && (q.Waiting? || q.Publishing?) && q.entry < |s.outcome| && u.InFlight?
    && s.outcome[q.entry].Some? && s.outcome[q.entry].value.Token? && s.outcome[q.entry].value.header == u.header
  }

  /** So while a scope is denied, a step sends a request for it exactly when that request straggles, and no
      request joins those that may. */
  lemma OnlyStragglersAreSent(c: Config, s: State, step: Step, k: Scope, err: AuthError, r: nat)
    requires Reachable(c, s) && Enabled(c, s, step) && DeniedScope(s, k, err)
    requires r < |s.requests| == |c.verbs| && c.Scope(r) == k
    ensures Shape(c, s)
    ensures
      var q := s.requests[r];
      && r < |Apply(c, s, step).requests|
      && var u := Apply(c, s, step).requests[r];
      && (Pending(u) ==> Pending(q))
      && (!q.InFlight? && u.InFlight? <==> Straggles(c, s, step, k, r))
      && (!q.InFlight? && u.InFlight? ==> GivenTo(s, q, u))
  {
    ReachableSound(c, s);
    if step.LearnIt? || step.r != r {
      OthersStay(c, s, step, r);
    } else if step.WaitOver? {
      WaiterStraggles(c, s, k, err, r);
    } else if step.Authorize? || step.Refuse? {
      AskedIsGivenUp(c, s, step, k, err, r);
    } else if step.Close? {
      MinterStraggles(c, s, k, err, r);
    } else {
      RestIsNotSent(c, s, step, r);
    }
  }

  lemma OthersStay(c: Config, s: State, step: Step, r: nat)
    requires Core(c, s) && Enabled(c, s, step) && r < |s.requests|
    requires step.LearnIt? || step.r != r
    ensures |Apply(c, s, step).requests| == |s.requests| && Apply(c, s, step).requests[r] == s.requests[r]
  {
  }

  lemma RestIsNotSent(c: Config, s: State, step: Step, r: nat)
    requires Core(c, s) && Enabled(c, s, step) && r < |s.requests|
    requires !step.LearnIt? && !step.WaitOver? && !step.Authorize? && !step.Refuse? && !step.Close? && step.r == r
    ensures
      var t := Apply(c, s, step);
      && |t.requests| == |s.requests|
      && (Pending(t.requests[r]) ==> Pending(s.requests[r]))
      && !t.requests[r].InFlight?
  {
  }

  lemma MinterStraggles(c: Config, s: State, k: Scope, err: AuthError, r: nat)
    requires Sound(c, s) && Enabled(c, s, Close(r)) && DeniedScope(s, k, err)
    ensures
      var t := Apply(c, s, Close(r));
      && |t.requests| == |s.requests| && !Pending(t.requests[r])
      && (t.requests[r].InFlight? <==> Straggles(c, s, Close(r), k, r))
      && (t.requests[r].InFlight? ==> GivenTo(s, s.requests[r], t.requests[r]))
  {
    assert RequestKept(c, s, r);
  }

  lemma WaiterStraggles(c: Config, s: State, k: Scope, err: AuthError, r: nat)
    requires Sound(c, s) && Enabled(c, s, WaitOver(r)) && DeniedScope(s, k, err) && c.Scope(r) == k
    ensures
      var t := Apply(c, s, WaitOver(r));
      && |t.requests| == |s.requests|
      && (t.requests[r].InFlight? <==> Straggles(c, s, WaitOver(r), k, r))
      && (t.requests[r].InFlight? ==> GivenTo(s, s.requests[r], t.requests[r]))
  {
    assert RequestKept(c, s, r) && EntryKept(c, s, s.requests[r].entry);
  }

  lemma AskedIsGivenUp(c: Config, s: State, step: Step, k: Scope, err: AuthError, r: nat)
    requires Sound(c, s) && Enabled(c, s, step) && DeniedScope(s, k, err)
    requires step.Authorize? || step.Refuse?
    requires r < |s.requests| && c.Scope(r) == k
    ensures
      var t := Apply(c, s, step);
      |t.requests| == |s.requests| && t.requests[r] == if step.r == r then Finished(Failed(err)) else s.requests[r]
  {
  }

  /** A refused replay ends its request. If the scope still holds what it carried, that is the scope's
      verdict; if not, the request ends as transient and changes nothing else. */
  lemma RefusedReplayEnds(c: Config, s: State, r: nat)
    requires Reachable(c, s) && Enabled(c, s, DenyIt(r))
    ensures
      var t := Apply(c, s, DenyIt(r));
      var k := c.Scope(r);
      if k in s.auth.entries && s.auth.heap[s.auth.entries[k]].header == s.requests[r].header
      then DeniedScope(t, k, ScopeDenied(k)) && t.requests[r] == Finished(Failed(ScopeDenied(k)))
      else t == s.(requests := s.requests[r := Finished(Failed(AlreadyReplaced))])
  {
    ReachableKept(c, s);
    assert RequestKept(c, s, r);
    if c.Scope(r) in s.auth.entries {
      assert MapKept(c, s, c.Scope(r)) && EntryKept(c, s, s.auth.entries[c.Scope(r)]);
    }
  }

  /** A repository ever holds at most two entries. */
  lemma AtMostTwoKeys(c: Config, s: State)
    requires Reachable(c, s)
    ensures s.auth.entries.Keys <= {ScopeFor("GET", c.name), ScopeFor("PUT", c.name)}
    ensures |s.auth.entries| <= 2
  {
    ReachableKept(c, s);
    forall k | k in s.auth.entries ensures k in {ScopeFor("GET", c.name), ScopeFor("PUT", c.name)} {
      assert MapKept(c, s, k);
    }
    var both := {ScopeFor("GET", c.name), ScopeFor("PUT", c.name)};
    SubsetAtMost(s.auth.entries.Keys, both);
  }

  lemma {:induction false} SubsetAtMost<T>(a: set<T>, b: set<T>)
    requires a <= b
    ensures |a| <= |b|
    decreases |a|
  {
    if a != {} {
      var x :| x in a;
      SubsetAtMost(a - {x}, b - {x});
    }
  }

  /** No call sends the registry request more than twice, and none whose body is spent more than once. */
  lemma AtMostTwoSends(c: Config, s: State, r: nat)
    requires Reachable(c, s) && r < |s.sends|
    ensures r < |c.replayable| && s.sends[r] <= if c.replayable[r] then 2 else 1
  {
    ReachableKept(c, s);
    assert RequestKept(c, s, r);
  }

  /** With tokens that are never issued twice, the second send carries another header than the first. */
  lemma SecondSendDiffers(c: Config, s: State, r: nat)
    requires Reachable(c, s) && c.newTokens && r < |s.requests|
    requires s.requests[r].InFlight? && s.requests[r].purpose.Replay?
    ensures s.requests[r].header != s.requests[r].purpose.sent
  {
    ReachableKept(c, s);
    assert RequestKept(c, s, r);
  }

  // ---- waiters ----

  /** Exactly what a waiter is given: the outcome of the exchange it waited on, unless the token that
      exchange produced has been denied before the waiter took the lock again. */
  lemma WaiterGets(c: Config, s: State, r: nat)
    requires Reachable(c, s) && Enabled(c, s, WaitOver(r))
    ensures
      var e := s.requests[r].entry;
      && s.outcome[e].Some?
      && (WaitResult(s.auth, e) == Produced(s.outcome[e].value)
          <==> !(s.outcome[e].value.Token? && s.auth.heap[e].state == Denied))
      && (s.outcome[e].value.Token? && s.auth.heap[e].state == Denied ==>
            WaitResult(s.auth, e) == GiveUp(ScopeDenied(c.Scope(r))))
  {
    ReachableKept(c, s);
    assert RequestKept(c, s, r) && EntryKept(c, s, s.requests[r].entry);
  }

  lemma {:induction false} OneMore(c: Config, s: State, steps: seq<Step>, step: Step)
    requires Runs(c, s, steps) && Enabled(c, Run(c, s, steps), step)
    ensures Runs(c, s, steps + [step]) && Run(c, s, steps + [step]) == Apply(c, Run(c, s, steps), step)
    decreases |steps|
  {
    if steps == [] {
      assert steps + [step] == [step];
    } else {
      OneMore(c, Apply(c, s, steps[0]), steps[1..], step);
      assert (steps + [step])[1..] == steps[1..] + [step];
    }
  }

  lemma NextReachable(c: Config, s: State, step: Step)
    requires Reachable(c, s) && Enabled(c, s, step)
    ensures Reachable(c, Apply(c, s, step))
  {
    var steps :| Runs(c, Initial(c), steps) && Run(c, Initial(c), steps) == s;
    OneMore(c, Initial(c), steps, step);
  }

  ghost predicate TwoReaders(c: Config) {
    c.Valid() && c.verbs == ["GET", "GET"] && c.replayable == [true, true]
  }

  /** Both requests of a pair, after one exchange was begun or none. */
  ghost function Pair(
    a: Auth, q0: Request, q1: Request, sends: seq<nat>, issued: set<Header>, begun: seq<Option<Exchange>>): State
  {
    State(a, [q0, q1], sends, issued, {}, seq(|begun|, _ => 0), seq(|begun|, _ => Some("")), begun)
  }

  ghost function OneEntry(c: Config, e: Entry): Auth
    requires TwoReaders(c)
  {
    Auth("", true, true, map[c.Scope(0) := 0], [e])
  }

  lemma BothSent(c: Config)
    requires TwoReaders(c)
    ensures Reachable(c, Pair(Auth("", false, false, map[], []), InFlight("", First), InFlight("", First), [1, 1], {}, []))
  {
    var s := Initial(c);
    assert Runs(c, s, []) && Run(c, s, []) == s;
    s := After(c, s, Authorize(0, 0));
    s := After(c, s, Authorize(1, 0));
    assert s == Pair(Auth("", false, false, map[], []), InFlight("", First), InFlight("", First), [1, 1], {}, []);
  }

  lemma BothTurned(c: Config)
    requires TwoReaders(c)
    ensures Reachable(c, Pair(Auth("", false, false, map[], []), Turned("", First), Turned("", First), [1, 1], {}, []))
  {
    BothSent(c);
    var s := Pair(Auth("", false, false, map[], []), InFlight("", First), InFlight("", First), [1, 1], {}, []);
    s := After(c, s, Reply(0, true));
    s := After(c, s, Reply(1, true));
    assert s == Pair(Auth("", false, false, map[], []), Turned("", First), Turned("", First), [1, 1], {}, []);
  }

  lemma FirstMints(c: Config)
    requires TwoReaders(c)
    ensures Reachable(c, Pair(OneEntry(c, FRESH_ENTRY), Minting(0, Replay("")), Turned("", First), [1, 1], {}, [None]))
  {
    BothTurned(c);
    var s := Pair(Auth("", false, false, map[], []), Turned("", First), Turned("", First), [1, 1], {}, []);
    s := After(c, s, Refuse(0, ""));
    assert s == Pair(OneEntry(c, FRESH_ENTRY), Minting(0, Replay("")), Turned("", First), [1, 1], {}, [None]);
  }

  /** The first is minting, the second waits for it. */
  lemma BothRefused(c: Config)
    requires TwoReaders(c)
    ensures Reachable(c, Pair(OneEntry(c, FRESH_ENTRY), Minting(0, Replay("")), Waiting(0, Replay("")), [1, 1], {}, [None]))
  {
    FirstMints(c);
    var s := Pair(OneEntry(c, FRESH_ENTRY), Minting(0, Replay("")), Turned("", First), [1, 1], {}, [None]);
    s := After(c, s, Refuse(1, ""));
    assert s == Pair(OneEntry(c, FRESH_ENTRY), Minting(0, Replay("")), Waiting(0, Replay("")), [1, 1], {}, [None]);
  }

  /** The exchange has given a token, which the first has not sent yet. */
  lemma FirstIsGiven(c: Config)
    requires TwoReaders(c)
    ensures Reachable(c, Pair(OneEntry(c, Entry("t", 0, 0, Unproven, None, false)),
                              Publishing(0, Replay(""), Token("t", 0)), Waiting(0, Replay("")),
                              [1, 1], {"t"}, [Some(Token("t", 0))]))
  {
    BothRefused(c);
    var s := Pair(OneEntry(c, FRESH_ENTRY), Minting(0, Replay("")), Waiting(0, Replay("")), [1, 1], {}, [None]);
    s := After(c, s, ExchangeEnds(0, Token("t", 0), 0));
    assert s == Pair(OneEntry(c, Entry("t", 0, 0, Unproven, None, false)),
                     Publishing(0, Replay(""), Token("t", 0)), Waiting(0, Replay("")),
                     [1, 1], {"t"}, [Some(Token("t", 0))]);
  }

  lemma FirstReplays(c: Config)
    requires TwoReaders(c)
    ensures Reachable(c, Pair(OneEntry(c, Entry("t", 0, 0, Unproven, None, true)),
                              InFlight("t", Replay("")), Waiting(0, Replay("")), [2, 1], {"t"}, [Some(Token("t", 0))]))
  {
    FirstIsGiven(c);
    var s := Pair(OneEntry(c, Entry("t", 0, 0, Unproven, None, false)),
                  Publishing(0, Replay(""), Token("t", 0)), Waiting(0, Replay("")),
                  [1, 1], {"t"}, [Some(Token("t", 0))]);
    s := After(c, s, Close(0));
    assert s == Pair(OneEntry(c, Entry("t", 0, 0, Unproven, None, true)),
                     InFlight("t", Replay("")), Waiting(0, Replay("")), [2, 1], {"t"}, [Some(Token("t", 0))]);
  }

  lemma FirstIsTurned(c: Config)
    requires TwoReaders(c)
    ensures Reachable(c, Pair(OneEntry(c, Entry("t", 0, 0, Unproven, None, true)),
                              Turned("t", Replay("")), Waiting(0, Replay("")), [2, 1], {"t"}, [Some(Token("t", 0))]))
  {
    FirstReplays(c);
    var s := Pair(OneEntry(c, Entry("t", 0, 0, Unproven, None, true)),
                  InFlight("t", Replay("")), Waiting(0, Replay("")), [2, 1], {"t"}, [Some(Token("t", 0))]);
    s := After(c, s, Reply(0, true));
    assert s == Pair(OneEntry(c, Entry("t", 0, 0, Unproven, None, true)),
                     Turned("t", Replay("")), Waiting(0, Replay("")), [2, 1], {"t"}, [Some(Token("t", 0))]);
  }

  /** The corner WaiterGets leaves out does occur: the requester that minted a token replays with it, is
      refused and denies the scope before a waiter takes the lock, so the waiter of an exchange that
      gave a token leaves with the denial. */
  lemma WaiterOvertaken(c: Config)
    requires TwoReaders(c)
    ensures exists s ::
              && Reachable(c, s) && |s.requests| == 2 && |s.outcome| == 1
              && s.outcome[0] == Some(Token("t", 0))
              && s.requests[1] == Finished(Failed(ScopeDenied(c.Scope(1))))
  {
    FirstIsTurned(c);
    var s := Pair(OneEntry(c, Entry("t", 0, 0, Unproven, None, true)),
                  Turned("t", Replay("")), Waiting(0, Replay("")), [2, 1], {"t"}, [Some(Token("t", 0))]);
    s := After(c, s, DenyIt(0));
    s := After(c, s, WaitOver(1));
  }

  // ---- a request for a denied scope that is sent ----

  lemma FirstAlone(c: Config)
    requires TwoReaders(c)
    ensures Reachable(c, Pair(Auth("", false, false, map[], []), Turned("", First), Idle, [1, 0], {}, []))
  {
    var s := Initial(c);
    assert Runs(c, s, []) && Run(c, s, []) == s;
    s := After(c, s, Authorize(0, 0));
    s := After(c, s, Reply(0, true));
    assert s == Pair(Auth("", false, false, map[], []), Turned("", First), Idle, [1, 0], {}, []);
  }

  lemma FirstMintsAlone(c: Config)
    requires TwoReaders(c)
    ensures Reachable(c, Pair(OneEntry(c, FRESH_ENTRY), Minting(0, Replay("")), Idle, [1, 0], {}, [None]))
  {
    FirstAlone(c);
    var s := Pair(Auth("", false, false, map[], []), Turned("", First), Idle, [1, 0], {}, []);
    s := After(c, s, Refuse(0, ""));
    assert s == Pair(OneEntry(c, FRESH_ENTRY), Minting(0, Replay("")), Idle, [1, 0], {}, [None]);
  }

  /** The first request's exchange has given a token that the first has not taken yet. */
  ghost function Given(c: Config, e: Entry, second: Request, sends: nat): State
    requires TwoReaders(c)
  {
    Pair(OneEntry(c, e), Publishing(0, Replay(""), Token("t", 0)), second, [1, sends], {"t"}, [Some(Token("t", 0))])
  }

  lemma GivenAlone(c: Config)
    requires TwoReaders(c)
    ensures Reachable(c, Given(c, Entry("t", 0, 0, Unproven, None, false), Idle, 0))
  {
    FirstMintsAlone(c);
    var s := Pair(OneEntry(c, FRESH_ENTRY), Minting(0, Replay("")), Idle, [1, 0], {}, [None]);
    s := After(c, s, ExchangeEnds(0, Token("t", 0), 0));
    assert s == Given(c, Entry("t", 0, 0, Unproven, None, false), Idle, 0);
  }

  lemma SecondTakesIt(c: Config)
    requires TwoReaders(c)
    ensures Reachable(c, Given(c, Entry("t", 0, 0, Unproven, None, false), InFlight("t", First), 1))
  {
    GivenAlone(c);
    var s := Given(c, Entry("t", 0, 0, Unproven, None, false), Idle, 0);
    s := After(c, s, Authorize(1, 0));
    assert s == Given(c, Entry("t", 0, 0, Unproven, None, false), InFlight("t", First), 1);
  }

  lemma SecondDenies(c: Config)
    requires TwoReaders(c)
    ensures
      var denied := ScopeDenied(c.Scope(0));
      Reachable(c, Given(c, Entry("t", 0, 0, Denied, Some(denied), false), Finished(Failed(denied)), 1))
  {
    SecondTakesIt(c);
    var s := Given(c, Entry("t", 0, 0, Unproven, None, false), InFlight("t", First), 1);
    s := After(c, s, Reply(1, true));
    assert s == Given(c, Entry("t", 0, 0, Unproven, None, false), Turned("t", First), 1);
    s := After(c, s, Refuse(1, ""));
    var denied := ScopeDenied(c.Scope(0));
    assert s == Given(c, Entry("t", 0, 0, Denied, Some(denied), false), Finished(Failed(denied)), 1);
  }

  /** It does happen: between the end of an exchange and the close of its channel another request is sent
      with the token, refused, and denies the scope; then the requester that minted it is sent all the same. */
  lemma DeniedYetSent(c: Config)
    requires TwoReaders(c)
    ensures exists s ::
              && Reachable(c, s) && DeniedScope(s, c.Scope(0), ScopeDenied(c.Scope(0)))
              && Enabled(c, s, Close(0)) && |s.requests| == 2 && !s.requests[0].InFlight?
              && Apply(c, s, Close(0)).requests == s.requests[0 := InFlight("t", Replay(""))]
  {
    SecondDenies(c);
    var denied := ScopeDenied(c.Scope(0));
    var s := Given(c, Entry("t", 0, 0, Denied, Some(denied), false), Finished(Failed(denied)), 1);
    assert Apply(c, s, Close(0)).requests == s.requests[0 := InFlight("t", Replay(""))];
  }

  lemma After(c: Config, s: State, step: Step) returns (t: State)
    requires Reachable(c, s) && Enabled(c, s, step)
    ensures t == Apply(c, s, step) && Reachable(c, t)
  {
    NextReachable(c, s, step);
    t := Apply(c, s, step);
  }
}
