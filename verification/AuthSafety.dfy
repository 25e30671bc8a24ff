/** What every step of every request keeps: single flight, absorbing denial, and one exchange for
    each refused token. */
module AuthSafety {
  import opened Base
  import opened AuthState
  import opened AuthProtocol

  ghost predicate Shape(c: Config, s: State) {
    && c.Valid()
    && |s.requests| == |s.sends| == |c.verbs|
    && |s.minter| == |s.begunBy| == |s.outcome| == |s.auth.heap|
    && (forall e :: 0 <= e < |s.minter| ==> s.minter[e] < |s.requests|)
    && WellFormed(s.auth)
  }

  ghost function ScopeOf(c: Config, s: State, e: nat): Scope
    requires Shape(c, s) && e < |s.minter|
  {
    c.Scope(s.minter[e])
  }

  /** An entry is what its exchange made of it, and later verdicts only prove or deny it. */
  ghost predicate EntryKept(c: Config, s: State, e: nat)
    requires Shape(c, s) && e < |s.auth.heap|
  {
    var x := s.auth.heap[e];
    match s.outcome[e]
    case None =>
      && x == FRESH_ENTRY
      && s.requests[s.minter[e]].Minting? && s.requests[s.minter[e]].entry == e
      && ScopeOf(c, s, e) in s.auth.entries && s.auth.entries[ScopeOf(c, s, e)] == e
    case Some(Token(h, _)) =>
      && h != "" && h in s.issued && x.header == h
      && (|| (x.state == Unproven && x.err.None?)
          || (x.state == Proven && x.err.None? && h in s.answered)
          || (x.state == Denied && x.err == Some(ScopeDenied(ScopeOf(c, s, e)))))
    case Some(RefusedExchange) => x.header == "" && x.state == Denied && x.err == Some(ExchangeRefused)
    case Some(BrokenExchange) => x.header == "" && x.state == Acquiring && x.err == Some(ExchangeFailed)
  }

  /** A scope's current entry was begun for that scope, and its exchange did not break. */
  ghost predicate MapKept(c: Config, s: State, k: Scope)
    requires Shape(c, s) && k in s.auth.entries
  {
    var e := s.auth.entries[k];
    ScopeOf(c, s, e) == k && s.outcome[e] != Some(BrokenExchange)
  }

  ghost predicate Known(s: State, h: Header) {
    h == "" || h in s.issued
  }

  ghost predicate Differs(c: Config, s: State, e: nat, sent: Header)
    requires e < |s.outcome|
  {
    c.newTokens && s.outcome[e].Some? && s.outcome[e].value.Token? ==> s.outcome[e].value.header != sent
  }

  ghost predicate RequestKept(c: Config, s: State, r: nat)
    requires Shape(c, s) && r < |s.requests|
  {
    match s.requests[r]
    case Idle => s.sends[r] == 0
    case Minting(e, p) =>
      && e < |s.minter| && s.minter[e] == r && s.outcome[e].None? && PurposeKept(c, s, r, p)
      && (p.Replay? ==> Differs(c, s, e, p.sent))
    case Publishing(e, p, got) =>
      && e < |s.minter| && s.minter[e] == r && s.outcome[e] == Some(got) && PurposeKept(c, s, r, p)
      && (p.Replay? ==> Differs(c, s, e, p.sent))
    case Waiting(e, p) =>
      && e < |s.minter| && ScopeOf(c, s, e) == c.Scope(r) && PurposeKept(c, s, r, p)
      && (p.Replay? ==> Differs(c, s, e, p.sent))
    case InFlight(h, p) => Known(s, h) && SentKept(c, s, r, h, p)
    case Turned(h, p) => Known(s, h) && SentKept(c, s, r, h, p)
    case Heard(h, p) => Known(s, h) && SentKept(c, s, r, h, p)
    case Finished(_) => s.sends[r] <= SendsAtMost(c, r)
  }

  ghost predicate PurposeKept(c: Config, s: State, r: nat, p: Purpose)
    requires r < |s.sends|
  {
    match p
    case First => s.sends[r] == 0
    case Replay(sent) => s.sends[r] == 1 && Known(s, sent)
  }

  ghost predicate SentKept(c: Config, s: State, r: nat, h: Header, p: Purpose)
    requires r < |s.sends|
  {
    match p
    case First => s.sends[r] == 1
    case Replay(sent) => s.sends[r] == 2 && Known(s, sent) && h != "" && (c.newTokens ==> h != sent) && SendsAtMost(c, r) == 2
  }

  /** A body that cannot be produced again is sent once. */
  ghost function SendsAtMost(c: Config, r: nat): nat {
    if r < |c.replayable| && !c.replayable[r] then 1 else 2
  }

  ghost predicate Core(c: Config, s: State) {
    && Shape(c, s)
    && (forall e :: 0 <= e < |s.auth.heap| ==> EntryKept(c, s, e))
    && (forall k :: k in s.auth.entries ==> MapKept(c, s, k))
    && (forall r :: 0 <= r < |s.requests| ==> RequestKept(c, s, r))
  }

  lemma InitialKept(c: Config)
    requires c.Valid()
    ensures Core(c, Initial(c))
  {
  }

  /** A request moves on; neither the entries nor the exchanges change. */
  lemma MoveKept(c: Config, s: State, r: nat, to: Request)
    requires Core(c, s) && r < |s.requests| && !s.requests[r].Minting?
    requires RequestKept(c, Move(s, r, to), r)
    ensures Core(c, Move(s, r, to))
  {
    var t := Move(s, r, to);
    forall e | 0 <= e < |t.auth.heap| ensures EntryKept(c, t, e) { assert EntryKept(c, s, e); }
    forall k | k in t.auth.entries ensures MapKept(c, t, k) { assert MapKept(c, s, k); }
    forall v | 0 <= v < |t.requests| ensures RequestKept(c, t, v) { assert RequestKept(c, s, v); }
  }

  /** Flags and challenges say nothing about entries. */
  lemma FlagsKept(c: Config, s: State, a: Auth)
    requires Core(c, s) && a.heap == s.auth.heap && a.entries == s.auth.entries
    ensures Core(c, s.(auth := a))
  {
    var t := s.(auth := a);
    forall e | 0 <= e < |t.auth.heap| ensures EntryKept(c, t, e) { assert EntryKept(c, s, e); }
    forall k | k in t.auth.entries ensures MapKept(c, t, k) { assert MapKept(c, s, k); }
    forall v | 0 <= v < |t.requests| ensures RequestKept(c, t, v) { assert RequestKept(c, s, v); }
  }

  /** Proving a token, denying a scope, or closing a channel: one entry changes, within its outcome. */
  lemma HeapKept(c: Config, s: State, a: Auth, answered: set<Header>)
    requires Core(c, s) && a.entries == s.auth.entries && |a.heap| == |s.auth.heap| && s.answered <= answered
    requires forall e :: 0 <= e < |a.heap| ==> EntryKept(c, s.(auth := a, answered := answered), e)
    ensures Core(c, s.(auth := a, answered := answered))
  {
    var t := s.(auth := a, answered := answered);
    forall k | k in t.auth.entries ensures MapKept(c, t, k) { assert MapKept(c, s, k); }
    forall v | 0 <= v < |t.requests| ensures RequestKept(c, t, v) { assert RequestKept(c, s, v); }
  }

  /** Among the entries held, acquiring means that an exchange is in flight. */
  lemma AcquiringIsInFlight(c: Config, s: State, k: Scope)
    requires Core(c, s) && k in s.auth.entries
    ensures s.auth.heap[s.auth.entries[k]].state.Acquiring? <==> s.outcome[s.auth.entries[k]].None?
  {
    assert MapKept(c, s, k) && EntryKept(c, s, s.auth.entries[k]);
  }

  ghost function BeginState(c: Config, s: State, r: nat, p: Purpose, cause: Option<Header>, out: Outcome): State
    requires Shape(c, s) && r < |s.requests| && out.decision.Mint?
  {
    s.(requests := s.requests[r := Minting(out.decision.entry, p)],
    auth := out.auth,
    minter := s.minter + [r], begunBy := s.begunBy + [cause], outcome := s.outcome + [None])
  }

  lemma BeginEntryKept(c: Config, s: State, r: nat, p: Purpose, cause: Option<Header>, e: nat)
    requires Core(c, s) && r < |s.requests| && !s.requests[r].Minting? && e <= |s.auth.heap|
    requires c.Scope(r) in s.auth.entries ==> s.outcome[s.auth.entries[c.Scope(r)]].Some?
    requires Shape(c, BeginState(c, s, r, p, cause, Begin(s.auth, c.Scope(r))))
    ensures EntryKept(c, BeginState(c, s, r, p, cause, Begin(s.auth, c.Scope(r))), e)
  {
    assert e < |s.auth.heap| ==> EntryKept(c, s, e);
  }

  lemma BeginRequestKept(c: Config, s: State, r: nat, p: Purpose, cause: Option<Header>, v: nat)
    requires Core(c, s) && r < |s.requests| && PurposeKept(c, s, r, p) && v < |s.requests|
    requires Shape(c, BeginState(c, s, r, p, cause, Begin(s.auth, c.Scope(r))))
    ensures RequestKept(c, BeginState(c, s, r, p, cause, Begin(s.auth, c.Scope(r))), v)
  {
    assert RequestKept(c, s, v);
  }

  /** A new exchange takes the place of an entry that is not in flight. */
  lemma BeginKept(c: Config, s: State, r: nat, p: Purpose, cause: Option<Header>)
    requires Core(c, s) && r < |s.requests| && !s.requests[r].Minting? && PurposeKept(c, s, r, p)
    requires c.Scope(r) in s.auth.entries ==> s.outcome[s.auth.entries[c.Scope(r)]].Some?
    ensures Core(c, BeginState(c, s, r, p, cause, Begin(s.auth, c.Scope(r))))
  {
    var t := BeginState(c, s, r, p, cause, Begin(s.auth, c.Scope(r)));
    forall e | 0 <= e < |t.auth.heap| ensures EntryKept(c, t, e) {
      BeginEntryKept(c, s, r, p, cause, e);
    }
    forall k | k in t.auth.entries ensures MapKept(c, t, k) { assert k in s.auth.entries ==> MapKept(c, s, k); }
    forall v | 0 <= v < |t.requests| ensures RequestKept(c, t, v) {
      BeginRequestKept(c, s, r, p, cause, v);
    }
  }

  lemma ExchangeEntries(c: Config, s: State, r: nat, got: Exchange, now: int)
    requires Core(c, s) && Enabled(c, s, ExchangeEnds(r, got, now))
    ensures
      var t := Apply(c, s, ExchangeEnds(r, got, now));
      && Shape(c, t)
      && (forall e :: 0 <= e < |t.auth.heap| ==> EntryKept(c, t, e))
      && (forall k :: k in t.auth.entries ==> MapKept(c, t, k))
  {
    var t := Apply(c, s, ExchangeEnds(r, got, now));
    assert RequestKept(c, s, r) && EntryKept(c, s, s.requests[r].entry);
    forall e | 0 <= e < |t.auth.heap| ensures EntryKept(c, t, e) { assert EntryKept(c, s, e); }
    forall k | k in t.auth.entries ensures MapKept(c, t, k) { assert MapKept(c, s, k); }
  }

  /** A token that was never issued before differs from everything already sent. */
  lemma ExchangeKept(c: Config, s: State, r: nat, got: Exchange, now: int)
    requires Core(c, s) && Enabled(c, s, ExchangeEnds(r, got, now))
    ensures Core(c, Apply(c, s, ExchangeEnds(r, got, now)))
  {
    var t := Apply(c, s, ExchangeEnds(r, got, now));
    ExchangeEntries(c, s, r, got, now);
    assert RequestKept(c, s, r);
    forall v | 0 <= v < |t.requests| ensures RequestKept(c, t, v) { assert RequestKept(c, s, v); }
  }

  lemma AuthorizeKept(c: Config, s: State, r: nat, now: int)
    requires Core(c, s) && Enabled(c, s, Authorize(r, now))
    ensures Core(c, Apply(c, s, Authorize(r, now)))
  {
    var k := c.Scope(r);
    var out := AuthState.Authorize(s.auth, k, now);
    var t := Apply(c, s, Authorize(r, now));
    assert RequestKept(c, s, r);
    if k in s.auth.entries {
      AcquiringIsInFlight(c, s, k);
      assert MapKept(c, s, k) && EntryKept(c, s, s.auth.entries[k]);
    }
    if out.decision.Mint? {
      BeginKept(c, s, r, First, None);
      assert t == BeginState(c, s, r, First, None, out);
    } else {
      MoveKept(c, s, r, Next(c.replayable[r], First, out.decision));
      assert t == Move(s, r, Next(c.replayable[r], First, out.decision));
    }
  }

  lemma DenyEntryKept(c: Config, s: State, k: Scope)
    requires Core(c, s) && k in s.auth.entries
    requires s.outcome[s.auth.entries[k]].Some? && s.outcome[s.auth.entries[k]].value.Token?
    ensures Core(c, s.(auth := DenyEntry(s.auth, s.auth.entries[k], k)))
  {
    var a := DenyEntry(s.auth, s.auth.entries[k], k);
    assert MapKept(c, s, k);
    forall e | 0 <= e < |a.heap| ensures EntryKept(c, s.(auth := a, answered := s.answered), e) {
      assert EntryKept(c, s, e);
    }
    HeapKept(c, s, a, s.answered);
    assert s.(auth := a, answered := s.answered) == s.(auth := a);
  }

  /** The state with the flags a refusal sets. */
  ghost function Flagged(s: State, asked: Challenge): State {
    s.(auth := s.auth.(challenge := asked, challenged := true, replied := true))
  }

  lemma RefuseMintKept(c: Config, s: State, r: nat, asked: Challenge)
    requires Core(c, s) && Enabled(c, s, Refuse(r, asked))
    requires Refused(s.auth, c.Scope(r), s.requests[r].header, asked).decision.Mint?
    ensures Core(c, Apply(c, s, Refuse(r, asked)))
  {
    var k := c.Scope(r);
    var sent := s.requests[r].header;
    assert RequestKept(c, s, r);
    FlagsKept(c, s, Flagged(s, asked).auth);
    if k in s.auth.entries {
      AcquiringIsInFlight(c, s, k);
    }
    BeginKept(c, Flagged(s, asked), r, Replay(sent), Some(sent));
    assert Apply(c, s, Refuse(r, asked))
        == BeginState(c, Flagged(s, asked), r, Replay(sent), Some(sent), Refused(s.auth, k, sent, asked));
  }

  lemma RefuseKept(c: Config, s: State, r: nat, asked: Challenge)
    requires Core(c, s) && Enabled(c, s, Refuse(r, asked))
    ensures Core(c, Apply(c, s, Refuse(r, asked)))
  {
    var k := c.Scope(r);
    var sent := s.requests[r].header;
    var out := Refused(s.auth, k, sent, asked);
    if out.decision.Mint? {
      RefuseMintKept(c, s, r, asked);
    } else {
      var to := Next(c.replayable[r], Replay(sent), out.decision);
      RefuseAnswerKept(c, s, r, asked);
      MoveKept(c, Flagged(s, asked), r, to);
      var moved := Move(Flagged(s, asked), r, to);
      if out.auth == Flagged(s, asked).auth {
        assert Apply(c, s, Refuse(r, asked)) == moved;
      } else {
        assert MapKept(c, s, k) && EntryKept(c, s, s.auth.entries[k]);
        DenyEntryKept(c, moved, k);
        assert Apply(c, s, Refuse(r, asked)) == moved.(auth := DenyEntry(moved.auth, moved.auth.entries[k], k));
      }
    }
  }

  /** What a refused request goes on with is a header it has not been refused with, the wait for one,
      or the end. */
  lemma RefuseAnswerKept(c: Config, s: State, r: nat, asked: Challenge)
    requires Core(c, s) && Enabled(c, s, Refuse(r, asked))
    requires !Refused(s.auth, c.Scope(r), s.requests[r].header, asked).decision.Mint?
    ensures
      var sent := s.requests[r].header;
      var out := Refused(s.auth, c.Scope(r), sent, asked);
      var to := Next(c.replayable[r], Replay(sent), out.decision);
      && Core(c, Flagged(s, asked))
      && RequestKept(c, Move(Flagged(s, asked), r, to), r)
  {
    var k := c.Scope(r);
    FlagsKept(c, s, Flagged(s, asked).auth);
    assert RequestKept(c, s, r);
    if k in s.auth.entries {
      AcquiringIsInFlight(c, s, k);
      assert MapKept(c, s, k) && EntryKept(c, s, s.auth.entries[k]);
    }
  }

  lemma DenyKept(c: Config, s: State, r: nat)
    requires Core(c, s) && Enabled(c, s, DenyIt(r))
    ensures Core(c, Apply(c, s, DenyIt(r)))
  {
    var k := c.Scope(r);
    var out := Deny(s.auth, k, s.requests[r].header);
    var to := Next(c.replayable[r], s.requests[r].purpose, out.decision);
    assert RequestKept(c, s, r);
    MoveKept(c, s, r, to);
    var moved := Move(s, r, to);
    var t := Apply(c, s, DenyIt(r));
    if k in s.auth.entries {
      assert EntryKept(c, s, s.auth.entries[k]) && MapKept(c, s, k);
    }
    if out.auth == s.auth {
      assert t == moved;
    } else {
      DenyEntryKept(c, moved, k);
      assert t == moved.(auth := DenyEntry(moved.auth, moved.auth.entries[k], k));
    }
  }

  lemma WaitKept(c: Config, s: State, r: nat)
    requires Core(c, s) && Enabled(c, s, WaitOver(r))
    ensures Core(c, Apply(c, s, WaitOver(r)))
  {
    var q := s.requests[r];
    assert RequestKept(c, s, r) && EntryKept(c, s, q.entry);
    MoveKept(c, s, r, Next(c.replayable[r], q.purpose, WaitResult(s.auth, q.entry)));
  }

  lemma CloseKept(c: Config, s: State, r: nat)
    requires Core(c, s) && Enabled(c, s, Close(r))
    ensures Core(c, Apply(c, s, Close(r)))
  {
    var q := s.requests[r];
    var to := Next(c.replayable[r], q.purpose, Produced(q.got));
    assert RequestKept(c, s, r) && EntryKept(c, s, q.entry);
    MoveKept(c, s, r, to);
    var moved := Move(s, r, to);
    var a := Publish(moved.auth, q.entry);
    forall e | 0 <= e < |a.heap| ensures EntryKept(c, moved.(auth := a, answered := moved.answered), e) {
      assert EntryKept(c, moved, e);
    }
    HeapKept(c, moved, a, moved.answered);
    assert Apply(c, s, Close(r)) == moved.(auth := a, answered := moved.answered);
  }

  lemma HearKept(c: Config, s: State, r: nat)
    requires Core(c, s) && Enabled(c, s, Hear(r))
    ensures Core(c, Apply(c, s, Hear(r)))
  {
    var q := s.requests[r];
    assert RequestKept(c, s, r);
    MoveKept(c, s, r, Finished(Accepted));
    var moved := Move(s, r, Finished(Accepted));
    var a := Answered(moved.auth, q.header);
    var answered := moved.answered + {q.header};
    forall e | 0 <= e < |a.heap| ensures EntryKept(c, moved.(auth := a, answered := answered), e) {
      assert EntryKept(c, moved, e);
    }
    HeapKept(c, moved, a, answered);
    assert Apply(c, s, Hear(r)) == moved.(auth := a, answered := answered);
  }

  /** Every step of every request keeps the entries, the exchanges and the requests in step. */
  lemma StepKept(c: Config, s: State, step: Step)
    requires Core(c, s) && Enabled(c, s, step)
    ensures Core(c, Apply(c, s, step))
  {
    match step
    case Authorize(r, now) => AuthorizeKept(c, s, r, now);
    case WaitOver(r) => WaitKept(c, s, r);
    case ExchangeEnds(r, got, now) => ExchangeKept(c, s, r, got, now);
    case Close(r) => CloseKept(c, s, r);
    case Hear(r) => HearKept(c, s, r);
    case Refuse(r, asked) => RefuseKept(c, s, r, asked);
    case DenyIt(r) => DenyKept(c, s, r);
    case LearnIt(stated) => FlagsKept(c, s, Learn(s.auth, stated));
    case CancelWait(r) => EndKept(c, s, r, Failed(Cancelled));
    case Reply(r, refused) => ReplyKept(c, s, r, refused);
    case TransportFails(r) => EndKept(c, s, r, TransportFailed);
    case Unanswerable(r) => EndKept(c, s, r, Refusal);
  }

  lemma EndKept(c: Config, s: State, r: nat, answer: Answer)
    requires Core(c, s) && r < |s.requests|
    requires s.requests[r].Waiting? || s.requests[r].InFlight? || s.requests[r].Turned?
    ensures Core(c, Move(s, r, Finished(answer)))
  {
    assert RequestKept(c, s, r);
    MoveKept(c, s, r, Finished(answer));
  }

  lemma ReplyKept(c: Config, s: State, r: nat, refused: bool)
    requires Core(c, s) && Enabled(c, s, Reply(r, refused))
    ensures Core(c, Apply(c, s, Reply(r, refused)))
  {
    var q := s.requests[r];
    assert RequestKept(c, s, r);
    MoveKept(c, s, r, if refused then Turned(q.header, q.purpose) else Heard(q.header, q.purpose));
  }

  lemma {:induction false} RunKept(c: Config, s: State, steps: seq<Step>)
    requires Core(c, s) && Runs(c, s, steps)
    ensures Core(c, Run(c, s, steps))
    decreases |steps|
  {
    if steps != [] {
      StepKept(c, s, steps[0]);
      RunKept(c, Apply(c, s, steps[0]), steps[1..]);
    }
  }
}
