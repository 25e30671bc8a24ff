/** Any number of requests authenticating against one repository at once: the locked sections of
    internal/oci/authstate.go, interleaved with exchanges, waits and the sends of
    internal/oci/repository.go on the direct path, where no redirect is followed. */
module AuthProtocol {
  import opened Base
  import opened AuthState

  /** Request r needs the access scopes[r]; replayable[r] says its body can be sent twice. newTokens says
      that an exchange never yields a header a second time, which holds of minted bearer tokens and not of
      a Basic header or of a registry token presented as it is. */
  datatype Config = Config(name: string, verbs: seq<string>, replayable: seq<bool>, newTokens: bool) {
    ghost predicate Valid() {
      |replayable| == |verbs|
    }

    ghost function Scope(r: nat): Scope
      requires r < |verbs|
    {
      ScopeFor(verbs[r], name)
    }
  }

  /** First is the request as built; a replay follows the refusal of sent. */
  datatype Purpose = First | Replay(sent: Header)

  datatype Answer = Accepted | TransportFailed | Refusal | Failed(err: AuthError)

  /** Where one request is. */
  datatype Request =
    | Idle
    | Waiting(entry: nat, purpose: Purpose)
    | Minting(entry: nat, purpose: Purpose)
    | Publishing(entry: nat, purpose: Purpose, got: Exchange)
    | InFlight(header: Header, purpose: Purpose)
    | Turned(header: Header, purpose: Purpose)
    | Heard(header: Header, purpose: Purpose)
    | Finished(answer: Answer)

  /** The fields after requests are history: how often each request was sent, every token issued,
      every token a request was answered with, and for each entry who began it, which refused header
      began it if any, and what its exchange produced. */
  datatype State = State(
    auth: Auth,
    requests: seq<Request>,
    sends: seq<nat>,
    issued: set<Header>,
    answered: set<Header>,
    minter: seq<nat>,
    begunBy: seq<Option<Header>>,
    outcome: seq<Option<Exchange>>
  )

  datatype Step =
    | Authorize(r: nat, now: int)
    | WaitOver(r: nat)
    | CancelWait(r: nat)
    | ExchangeEnds(r: nat, got: Exchange, now: int)
    | Close(r: nat)
    | Reply(r: nat, refused: bool)
    | TransportFails(r: nat)
    | Hear(r: nat)
    | Refuse(r: nat, asked: Challenge)
    | Unanswerable(r: nat)
    | DenyIt(r: nat)
    | LearnIt(stated: Option<Challenge>)

  ghost function Initial(c: Config): State {
    State(
      Auth("", false, false, map[], []), seq(|c.verbs|, _ => Idle), seq(|c.verbs|, _ => 0), {}, {}, [], [], [])
  }

  ghost predicate At(c: Config, s: State, r: nat) {
    && c.Valid()
    && r < |s.requests| == |c.verbs| == |s.sends|
    && WellFormed(s.auth)
    && |s.minter| == |s.begunBy| == |s.outcome| == |s.auth.heap|
  }

  ghost predicate Enabled(c: Config, s: State, step: Step) {
    match step
    case Authorize(r, _) => At(c, s, r) && s.requests[r].Idle?
    case WaitOver(r) =>
      && At(c, s, r) && s.requests[r].Waiting?
      && s.requests[r].entry < |s.auth.heap| && s.auth.heap[s.requests[r].entry].ready
    case CancelWait(r) => At(c, s, r) && s.requests[r].Waiting?
    case ExchangeEnds(r, got, _) =>
      && At(c, s, r) && s.requests[r].Minting? && s.requests[r].entry < |s.auth.heap|
      && (got.Token? ==> got.header != "" && (c.newTokens ==> got.header !in s.issued))
    case Close(r) => At(c, s, r) && s.requests[r].Publishing? && s.requests[r].entry < |s.auth.heap|
    case Reply(r, _) => At(c, s, r) && s.requests[r].InFlight?
    case TransportFails(r) => At(c, s, r) && s.requests[r].InFlight?
    case Hear(r) => At(c, s, r) && s.requests[r].Heard?
    case Refuse(r, _) => At(c, s, r) && s.requests[r].Turned? && s.requests[r].purpose.First?
    case Unanswerable(r) => At(c, s, r) && s.requests[r].Turned? && s.requests[r].purpose.First?
    case DenyIt(r) => At(c, s, r) && s.requests[r].Turned? && s.requests[r].purpose.Replay?
    case LearnIt(_) => true
  }

  /** What a request does with what a locked section or a wait told it. */
  ghost function Next(replayable: bool, purpose: Purpose, decision: Decision): Request {
    match decision
    case NoHeader => InFlight("", purpose)
    case WaitOn(e) => Waiting(e, purpose)
    case GiveUp(err) => Finished(Failed(err))
    case Present(header) =>
      if purpose.Replay? && !replayable then Finished(Failed(BodySpent)) else InFlight(header, purpose)
    case Mint(e) => Minting(e, purpose)
  }

  ghost function Move(s: State, r: nat, to: Request): State
    requires r < |s.requests| == |s.sends|
  {
    s.(requests := s.requests[r := to], sends := if to.InFlight? then s.sends[r := s.sends[r] + 1] else s.sends)
  }

  /** Take over what a locked section returned; cause is the refused header when a refusal asked. */
  ghost function Adopt(c: Config, s: State, r: nat, purpose: Purpose, cause: Option<Header>, out: Outcome): State
    requires At(c, s, r)
  {
    var t := Move(s, r, Next(c.replayable[r], purpose, out.decision)).(auth := out.auth);
    if out.decision.Mint? then
      t.(minter := s.minter + [r], begunBy := s.begunBy + [cause], outcome := s.outcome + [None])
    else t
  }

  ghost function Produced(got: Exchange): Decision {
    match got
    case Token(header, _) => Present(header)
    case RefusedExchange => GiveUp(ExchangeRefused)
    case BrokenExchange => GiveUp(ExchangeFailed)
  }

  ghost function Apply(c: Config, s: State, step: Step): State
    requires Enabled(c, s, step)
  {
    match step
    case Authorize(r, now) => Adopt(c, s, r, First, None, AuthState.Authorize(s.auth, c.Scope(r), now))
    case WaitOver(r) =>
      var q := s.requests[r];
      Move(s, r, Next(c.replayable[r], q.purpose, WaitResult(s.auth, q.entry)))
    case CancelWait(r) => Move(s, r, Finished(Failed(Cancelled)))
    case ExchangeEnds(r, got, now) =>
      var q := s.requests[r];
      Move(s, r, Publishing(q.entry, q.purpose, got)).(
      auth := Finish(s.auth, q.entry, c.Scope(r), got, now),
      issued := if got.Token? then s.issued + {got.header} else s.issued,
      outcome := s.outcome[q.entry := Some(got)])
    case Close(r) =>
      var q := s.requests[r];
      Move(s, r, Next(c.replayable[r], q.purpose, Produced(q.got))).(auth := Publish(s.auth, q.entry))
    case Reply(r, refused) =>
      var q := s.requests[r];
      Move(s, r, if refused then Turned(q.header, q.purpose) else Heard(q.header, q.purpose))
    case TransportFails(r) => Move(s, r, Finished(TransportFailed))
    case Hear(r) =>
      var q := s.requests[r];
      Move(s, r, Finished(Accepted)).(auth := Answered(s.auth, q.header), answered := s.answered + {q.header})
    case Refuse(r, asked) =>
      var q := s.requests[r];
      Adopt(c, s, r, Replay(q.header), Some(q.header), Refused(s.auth, c.Scope(r), q.header, asked))
    case Unanswerable(r) => Move(s, r, Finished(Refusal))
    case DenyIt(r) =>
      var q := s.requests[r];
      Adopt(c, s, r, q.purpose, None, Deny(s.auth, c.Scope(r), q.header))
    case LearnIt(stated) => s.(auth := Learn(s.auth, stated))
  }

  ghost predicate Runs(c: Config, s: State, steps: seq<Step>)
    decreases |steps|
  {
    steps == [] || (Enabled(c, s, steps[0]) && Runs(c, Apply(c, s, steps[0]), steps[1..]))
  }

  ghost function Run(c: Config, s: State, steps: seq<Step>): State
    requires Runs(c, s, steps)
    decreases |steps|
  {
    if steps == [] then s else Run(c, Apply(c, s, steps[0]), steps[1..])
  }
}
