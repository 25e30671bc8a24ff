/** However many requests are refused with one token, they start one exchange for it, and the next one
    is started only by a refusal of a token that had been answered. */
module AuthStampede {
  import opened Base
  import opened AuthState
  import opened AuthProtocol
  import opened AuthSafety
  import opened AuthResults

  ghost predicate Broke(s: State, e: nat)
    requires e < |s.outcome|
  {
    s.outcome[e] == Some(BrokenExchange)
  }

  /** No exchange from e on, up to limit, broke for e's scope. */
  ghost predicate NoneBroke(c: Config, s: State, e: nat, limit: nat)
    requires Shape(c, s) && e < |s.minter| && limit <= |s.minter|
  {
    forall b :: e <= b < limit && ScopeOf(c, s, b) == ScopeOf(c, s, e) ==> !Broke(s, b)
  }

  /** Unless an exchange since e broke, the scope holds e or what replaced it. */
  ghost predicate StillHeld(c: Config, s: State, e: nat)
    requires Shape(c, s) && e < |s.minter|
  {
    NoneBroke(c, s, e, |s.minter|) ==> ScopeOf(c, s, e) in s.auth.entries && e <= s.auth.entries[ScopeOf(c, s, e)]
  }

  ghost predicate Gave(s: State, e: nat, h: Header)
    requires e < |s.outcome|
  {
    s.outcome[e].Some? && s.outcome[e].value.Token? && s.outcome[e].value.header == h
  }

  /** The refused header that began exchange e was known, and no exchange since gave it again. */
  ghost predicate Newer(c: Config, s: State, e: nat)
    requires Shape(c, s) && e < |s.minter|
  {
    s.begunBy[e].Some? ==>
      && Known(s, s.begunBy[e].value)
      && (c.newTokens ==> forall b :: e <= b < |s.outcome| ==> !Gave(s, b, s.begunBy[e].value))
  }

  /** Of two refusal-begun exchanges of one scope with none broken between, the second was begun by the
      refusal of a token that an exchange in between gave and that the registry had answered. */
  ghost predicate Generations(c: Config, s: State, e1: nat, e2: nat)
    requires Shape(c, s) && e1 < e2 < |s.minter|
  {
    s.begunBy[e1].Some? && s.begunBy[e2].Some? && ScopeOf(c, s, e1) == ScopeOf(c, s, e2) && NoneBroke(c, s, e1, e2) ==>
      && s.begunBy[e2].value in s.answered
      && exists b :: e1 <= b < e2 && ScopeOf(c, s, b) == ScopeOf(c, s, e1) && Gave(s, b, s.begunBy[e2].value)
  }

  ghost predicate Order(c: Config, s: State) {
    && Core(c, s)
    && (forall e :: 0 <= e < |s.minter| ==> StillHeld(c, s, e))
    && (forall e :: 0 <= e < |s.minter| ==> Newer(c, s, e))
    && (forall e1, e2 :: 0 <= e1 < e2 < |s.minter| ==> Generations(c, s, e1, e2))
  }

  // ---- what a step carries over ----

  /** Exchanges already ended keep their outcome, and an entry keeps its scope and its cause. */
  ghost predicate Extends(c: Config, s: State, t: State) {
    && Shape(c, s) && Shape(c, t) && |s.minter| <= |t.minter| && s.answered <= t.answered
    && (forall e :: 0 <= e < |s.minter| ==> t.minter[e] == s.minter[e] && t.begunBy[e] == s.begunBy[e])
    && (forall e :: 0 <= e < |s.minter| ==> s.outcome[e].Some? ==> t.outcome[e] == s.outcome[e])
  }

  /** A break stays a break. */
  lemma BreaksStay(c: Config, s: State, t: State, e: nat, limit: nat)
    requires Extends(c, s, t) && e < |s.minter| && limit <= |s.minter| && NoneBroke(c, t, e, limit)
    ensures NoneBroke(c, s, e, limit)
  {
    forall b | e <= b < limit && ScopeOf(c, s, b) == ScopeOf(c, s, e) ensures !Broke(s, b) {
      assert ScopeOf(c, t, b) == ScopeOf(c, t, e) && !Broke(t, b);
    }
  }

  lemma Shorter(c: Config, s: State, e: nat, limit: nat, shorter: nat)
    requires Shape(c, s) && e < |s.minter| && shorter <= limit <= |s.minter| && NoneBroke(c, s, e, limit)
    ensures NoneBroke(c, s, e, shorter)
  {
    forall b | e <= b < shorter && ScopeOf(c, s, b) == ScopeOf(c, s, e) ensures !Broke(s, b) {
      assert b < limit;
    }
  }

  lemma GenerationsStay(c: Config, s: State, t: State, e1: nat, e2: nat)
    requires Extends(c, s, t) && e1 < e2 < |s.minter| && Generations(c, s, e1, e2)
    ensures Generations(c, t, e1, e2)
  {
    if t.begunBy[e1].Some? && t.begunBy[e2].Some? && ScopeOf(c, t, e1) == ScopeOf(c, t, e2) && NoneBroke(c, t, e1, e2) {
      BreaksStay(c, s, t, e1, e2);
      var h := s.begunBy[e2].value;
      var b :| e1 <= b < e2 && ScopeOf(c, s, b) == ScopeOf(c, s, e1) && Gave(s, b, h);
      assert ScopeOf(c, t, b) == ScopeOf(c, t, e1) && Gave(t, b, h);
    }
  }

  /** What is left to show of a step is about the entries held and the exchange it began. */
  lemma OrderCarried(c: Config, s: State, t: State)
    requires Order(c, s) && Core(c, t) && Extends(c, s, t)
    requires forall e :: 0 <= e < |t.minter| ==> StillHeld(c, t, e)
    requires forall e :: 0 <= e < |t.minter| ==> Newer(c, t, e)
    requires forall e1, e2 :: 0 <= e1 < e2 < |t.minter| && |s.minter| <= e2 ==> Generations(c, t, e1, e2)
    ensures Order(c, t)
  {
    forall e1, e2 | 0 <= e1 < e2 < |t.minter| ensures Generations(c, t, e1, e2) {
      if e2 < |s.minter| {
        GenerationsStay(c, s, t, e1, e2);
      }
    }
  }

  // ---- steps that begin and end no exchange ----

  lemma QuietOrder(c: Config, s: State, t: State)
    requires Order(c, s) && Core(c, t) && s.answered <= t.answered && t.auth.entries == s.auth.entries
    requires t.minter == s.minter && t.begunBy == s.begunBy && t.outcome == s.outcome && t.issued == s.issued
    ensures Order(c, t)
  {
    forall e | 0 <= e < |t.minter| ensures StillHeld(c, t, e) {
      assert StillHeld(c, s, e);
      if NoneBroke(c, t, e, |t.minter|) {
        BreaksStay(c, s, t, e, |t.minter|);
      }
    }
    forall e | 0 <= e < |t.minter| ensures Newer(c, t, e) {
      assert Newer(c, s, e);
      if t.begunBy[e].Some? && c.newTokens {
        forall b | e <= b < |t.outcome| ensures !Gave(t, b, t.begunBy[e].value) {
          assert !Gave(s, b, s.begunBy[e].value);
        }
      }
    }
    OrderCarried(c, s, t);
  }

  // ---- an exchange ends ----

  lemma EndStillHeld(c: Config, s: State, r: nat, got: Exchange, now: int, e: nat)
    requires Core(c, s) && Enabled(c, s, ExchangeEnds(r, got, now)) && e < |s.minter| && StillHeld(c, s, e)
    requires Extends(c, s, Apply(c, s, ExchangeEnds(r, got, now)))
    ensures StillHeld(c, Apply(c, s, ExchangeEnds(r, got, now)), e)
  {
    var t := Apply(c, s, ExchangeEnds(r, got, now));
    var x := s.requests[r].entry;
    assert RequestKept(c, s, r) && EntryKept(c, s, x);
    if got.BrokenExchange? && ScopeOf(c, s, e) == c.Scope(r) && e <= x {
      assert Broke(t, x) && ScopeOf(c, t, x) == ScopeOf(c, t, e);
      assert !NoneBroke(c, t, e, |t.minter|);
    }
    if NoneBroke(c, t, e, |t.minter|) {
      BreaksStay(c, s, t, e, |s.minter|);
    }
  }

  lemma EndNewer(c: Config, s: State, r: nat, got: Exchange, now: int, e: nat)
    requires Core(c, s) && Enabled(c, s, ExchangeEnds(r, got, now)) && e < |s.minter| && Newer(c, s, e)
    requires Shape(c, Apply(c, s, ExchangeEnds(r, got, now)))
    ensures Newer(c, Apply(c, s, ExchangeEnds(r, got, now)), e)
  {
    var t := Apply(c, s, ExchangeEnds(r, got, now));
    var x := s.requests[r].entry;
    if t.begunBy[e].Some? && c.newTokens {
      var h := t.begunBy[e].value;
      forall b | e <= b < |t.outcome| ensures !Gave(t, b, h) {
        assert !Gave(s, b, h);
      }
    }
  }

  lemma EndExtends(c: Config, s: State, r: nat, got: Exchange, now: int)
    requires Core(c, s) && Enabled(c, s, ExchangeEnds(r, got, now))
    ensures Extends(c, s, Apply(c, s, ExchangeEnds(r, got, now)))
  {
    assert RequestKept(c, s, r);
  }

  lemma EndOrder(c: Config, s: State, r: nat, got: Exchange, now: int)
    requires Order(c, s) && Enabled(c, s, ExchangeEnds(r, got, now))
    ensures Order(c, Apply(c, s, ExchangeEnds(r, got, now)))
  {
    var t := Apply(c, s, ExchangeEnds(r, got, now));
    ExchangeKept(c, s, r, got, now);
    EndExtends(c, s, r, got, now);
    forall e | 0 <= e < |t.minter| ensures StillHeld(c, t, e) && Newer(c, t, e) {
      EndStillHeld(c, s, r, got, now, e);
      EndNewer(c, s, r, got, now, e);
    }
    OrderCarried(c, s, t);
  }

  // ---- an exchange begins ----

  /** s became t by beginning exchange |s.minter| for scope k. */
  ghost predicate Began(c: Config, s: State, t: State, k: Scope) {
    && Extends(c, s, t)
    && |t.minter| == |s.minter| + 1 && t.issued == s.issued
    && ScopeOf(c, t, |s.minter|) == k
    && t.auth.entries == s.auth.entries[k := |s.minter|]
    && t.outcome == s.outcome + [None]
  }

  lemma BeginStillHeld(c: Config, s: State, t: State, k: Scope, e: nat)
    requires Began(c, s, t, k) && e < |t.minter| && (e < |s.minter| ==> StillHeld(c, s, e))
    ensures StillHeld(c, t, e)
  {
    if e < |s.minter| && NoneBroke(c, t, e, |t.minter|) {
      Shorter(c, t, e, |t.minter|, |s.minter|);
      BreaksStay(c, s, t, e, |s.minter|);
    }
  }

  lemma BeginNewer(c: Config, s: State, t: State, k: Scope, e: nat)
    requires Began(c, s, t, k) && e < |t.minter|
    requires if e < |s.minter| then Newer(c, s, e) else t.begunBy[e].Some? ==> Known(s, t.begunBy[e].value)
    ensures Newer(c, t, e)
  {
    if e < |s.minter| && t.begunBy[e].Some? && c.newTokens {
      forall b | e <= b < |t.outcome| ensures !Gave(t, b, t.begunBy[e].value) {
        assert b < |s.outcome| ==> !Gave(s, b, s.begunBy[e].value);
      }
    }
  }

  /** The exchange that begins was begun by no refusal, or the scope had no entry, or the refused header
      is the one its entry gave and it is proven. */
  ghost predicate Cause(c: Config, s: State, cause: Option<Header>, k: Scope)
    requires Shape(c, s)
  {
    cause.Some? && k in s.auth.entries ==>
      && s.auth.heap[s.auth.entries[k]].state.Proven?
      && s.auth.heap[s.auth.entries[k]].header == cause.value
  }

  lemma BeginGenerations(c: Config, s: State, t: State, k: Scope, e1: nat)
    requires Core(c, s) && Began(c, s, t, k) && e1 < |s.minter| && StillHeld(c, s, e1)
    requires Cause(c, s, t.begunBy[|s.minter|], k)
    ensures Generations(c, t, e1, |s.minter|)
  {
    var n := |s.minter|;
    if t.begunBy[n].Some? && ScopeOf(c, t, e1) == k && NoneBroke(c, t, e1, n) {
      BreaksStay(c, s, t, e1, n);
      assert k == ScopeOf(c, s, e1);
      var b := s.auth.entries[k];
      assert MapKept(c, s, k) && EntryKept(c, s, b);
      assert e1 <= b < n && ScopeOf(c, t, b) == ScopeOf(c, t, e1) && Gave(t, b, t.begunBy[n].value);
    }
  }

  lemma BeginOrder(c: Config, s: State, t: State, k: Scope)
    requires Order(c, s) && Core(c, t) && Began(c, s, t, k)
    requires Cause(c, s, t.begunBy[|s.minter|], k)
    requires t.begunBy[|s.minter|].Some? ==> Known(s, t.begunBy[|s.minter|].value)
    ensures Order(c, t)
  {
    forall e | 0 <= e < |t.minter| ensures StillHeld(c, t, e) && Newer(c, t, e) {
      BeginStillHeld(c, s, t, k, e);
      BeginNewer(c, s, t, k, e);
    }
    forall e1, e2 | 0 <= e1 < e2 < |t.minter| && |s.minter| <= e2 ensures Generations(c, t, e1, e2) {
      BeginGenerations(c, s, t, k, e1);
    }
    OrderCarried(c, s, t);
  }

  // ---- every step ----

  lemma AuthorizeOrder(c: Config, s: State, r: nat, now: int)
    requires Order(c, s) && Enabled(c, s, Authorize(r, now))
    ensures Order(c, Apply(c, s, Authorize(r, now)))
  {
    var t := Apply(c, s, Authorize(r, now));
    AuthorizeKept(c, s, r, now);
    if AuthState.Authorize(s.auth, c.Scope(r), now).decision.Mint? {
      BeginOrder(c, s, t, c.Scope(r));
    } else {
      QuietOrder(c, s, t);
    }
  }

  lemma RefuseBegins(c: Config, s: State, r: nat, asked: Challenge)
    requires Core(c, s) && Enabled(c, s, Refuse(r, asked))
    requires Refused(s.auth, c.Scope(r), s.requests[r].header, asked).decision.Mint?
    requires Core(c, Apply(c, s, Refuse(r, asked)))
    ensures
      var t := Apply(c, s, Refuse(r, asked));
      && Began(c, s, t, c.Scope(r))
      && t.begunBy[|s.minter|] == Some(s.requests[r].header)
      && Known(s, s.requests[r].header)
      && Cause(c, s, Some(s.requests[r].header), c.Scope(r))
  {
    assert RequestKept(c, s, r);
    RefusalStartsOnlyFromProven(s.auth, c.Scope(r), s.requests[r].header, asked);
  }

  lemma RefuseQuiet(c: Config, s: State, r: nat, asked: Challenge)
    requires Order(c, s) && Enabled(c, s, Refuse(r, asked))
    requires !Refused(s.auth, c.Scope(r), s.requests[r].header, asked).decision.Mint?
    requires Core(c, Apply(c, s, Refuse(r, asked)))
    ensures Order(c, Apply(c, s, Refuse(r, asked)))
  {
    QuietOrder(c, s, Apply(c, s, Refuse(r, asked)));
  }

  lemma RefuseOrder(c: Config, s: State, r: nat, asked: Challenge)
    requires Order(c, s) && Enabled(c, s, Refuse(r, asked))
    ensures Order(c, Apply(c, s, Refuse(r, asked)))
  {
    RefuseKept(c, s, r, asked);
    if Refused(s.auth, c.Scope(r), s.requests[r].header, asked).decision.Mint? {
      RefuseBegins(c, s, r, asked);
      BeginOrder(c, s, Apply(c, s, Refuse(r, asked)), c.Scope(r));
    } else {
      RefuseQuiet(c, s, r, asked);
    }
  }

  lemma OtherOrder(c: Config, s: State, step: Step)
    requires Order(c, s) && Enabled(c, s, step)
    requires !step.Authorize? && !step.Refuse? && !step.ExchangeEnds?
    ensures Order(c, Apply(c, s, step))
  {
    StepKept(c, s, step);
    QuietOrder(c, s, Apply(c, s, step));
  }

  lemma StepOrder(c: Config, s: State, step: Step)
    requires Order(c, s) && Enabled(c, s, step)
    ensures Order(c, Apply(c, s, step))
  {
    match step
    case Authorize(r, now) => AuthorizeOrder(c, s, r, now);
    case Refuse(r, asked) => RefuseOrder(c, s, r, asked);
    case ExchangeEnds(r, got, now) => EndOrder(c, s, r, got, now);
    case _ => OtherOrder(c, s, step);
  }

  lemma {:induction false} RunOrder(c: Config, s: State, steps: seq<Step>)
    requires Order(c, s) && Runs(c, s, steps)
    ensures Order(c, Run(c, s, steps))
    decreases |steps|
  {
    if steps != [] {
      StepOrder(c, s, steps[0]);
      RunOrder(c, Apply(c, s, steps[0]), steps[1..]);
    }
  }

  lemma ReachableOrder(c: Config, s: State)
    requires Reachable(c, s)
    ensures Order(c, s)
  {
    var steps :| Runs(c, Initial(c), steps) && Run(c, Initial(c), steps) == s;
    InitialKept(c);
    RunOrder(c, Initial(c), steps);
  }

  // ---- what it comes to ----

  /** Two exchanges of one scope begun by refusals of the same header have one between them that broke or
      gave that very header again; and when tokens are never issued twice, one that broke: one refused
      token buys one exchange. */
  lemma OneExchangePerToken(c: Config, s: State, e1: nat, e2: nat)
    requires Reachable(c, s) && e1 < e2 < |s.minter| == |s.begunBy| == |s.outcome|
    requires s.begunBy[e1].Some? && s.begunBy[e2] == s.begunBy[e1]
    requires Shape(c, s) && ScopeOf(c, s, e1) == ScopeOf(c, s, e2)
    ensures exists b :: e1 <= b < e2 && ScopeOf(c, s, b) == ScopeOf(c, s, e1)
                        && (Broke(s, b) || (!c.newTokens && Gave(s, b, s.begunBy[e1].value)))
  {
    ReachableOrder(c, s);
    assert Generations(c, s, e1, e2) && Newer(c, s, e1);
    if NoneBroke(c, s, e1, e2) {
      var b :| e1 <= b < e2 && ScopeOf(c, s, b) == ScopeOf(c, s, e1) && Gave(s, b, s.begunBy[e2].value);
      assert !c.newTokens;
    }
  }

  /** Between two refusal-begun exchanges of one scope, none broken, the registry answered a request that
      carried a token one of the exchanges in between had given. */
  lemma AnsweredInBetween(c: Config, s: State, e1: nat, e2: nat)
    requires Reachable(c, s) && Shape(c, s) && e1 < e2 < |s.minter|
    requires s.begunBy[e1].Some? && s.begunBy[e2].Some? && ScopeOf(c, s, e1) == ScopeOf(c, s, e2)
    requires NoneBroke(c, s, e1, e2)
    ensures s.begunBy[e2].value in s.answered
    ensures exists b :: e1 <= b < e2 && ScopeOf(c, s, b) == ScopeOf(c, s, e1) && Gave(s, b, s.begunBy[e2].value)
  {
    ReachableOrder(c, s);
    assert Generations(c, s, e1, e2);
  }

  /** Once a refusal of sent has begun exchange e and none has broken since, another request refused with
      sent leaves with a token given since, waits for one, or leaves with the scope's error; and it
      changes no entry. Only a scope that was given sent again, as with a Basic header, buys a new exchange
      when that has been proven anew, and is denied when not; with tokens never issued twice, none is. */
  lemma LatecomersShare(c: Config, s: State, e: nat, r: nat, asked: Challenge)
    requires Reachable(c, s) && Enabled(c, s, Refuse(r, asked)) && Shape(c, s) && e < |s.minter|
    requires s.begunBy[e] == Some(s.requests[r].header) && ScopeOf(c, s, e) == c.Scope(r) && NoneBroke(c, s, e, |s.minter|)
    ensures
      var sent := s.requests[r].header;
      var out := Refused(s.auth, c.Scope(r), sent, asked);
      && c.Scope(r) in s.auth.entries
      && var held := s.auth.entries[c.Scope(r)];
      && e <= held
      && (c.newTokens ==> !Gave(s, held, sent))
      && (!Gave(s, held, sent) ==> out.auth.heap == s.auth.heap && out.auth.entries == s.auth.entries)
      && match out.decision
         case WaitOn(b) => b == held && s.outcome[b].None?
         case Present(h) => h != sent && Gave(s, held, h)
         case GiveUp(err) => out.auth.heap[held].state.Denied? && out.auth.heap[held].err == Some(err)
         case Mint(_) => Gave(s, held, sent) && s.auth.heap[held].state.Proven?
         case NoHeader => false
  {
    ReachableOrder(c, s);
    assert StillHeld(c, s, e) && Newer(c, s, e);
    var held := s.auth.entries[c.Scope(r)];
    assert MapKept(c, s, c.Scope(r)) && EntryKept(c, s, held);
    assert c.newTokens ==> !Gave(s, held, s.requests[r].header);
  }
}
