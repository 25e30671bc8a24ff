/** One repository's authentication: the token held for each scope, and what each locked section of
    internal/oci/authstate.go does to it. An entry's identity, which is its address in Go, is its
    index in heap. */
module AuthState {
  import opened Base

  type Header = string
  type Scope = string

  /** A verdict ends the scope, an exchange failure ends one attempt, and a replaced credential or a
      request's own context ends one request. */
  datatype AuthError = ScopeDenied(scope: Scope) | ExchangeRefused | ExchangeFailed | AlreadyReplaced | Cancelled | BodySpent

  datatype EntryState = Acquiring | Unproven | Proven | Denied

  /** ready is the entry's channel: true once closed. */
  datatype Entry = Entry(
    header: Header,
    acquired: int,
    lifetime: int,
    state: EntryState,
    err: Option<AuthError>,
    ready: bool
  )

  const FRESH_ENTRY := Entry("", 0, 0, Acquiring, None, false)

  /** What the registry challenged with; only its presence matters to this state. */
  type Challenge = string

  datatype Auth = Auth(
    challenge: Challenge,
    challenged: bool,
    replied: bool,
    entries: map<Scope, nat>,
    heap: seq<Entry>
  )

  /** What a locked section tells the request to do next. */
  datatype Decision =
    | NoHeader
    | WaitOn(entry: nat)
    | GiveUp(err: AuthError)
    | Present(header: Header)
    | Mint(entry: nat)

  datatype Outcome = Outcome(auth: Auth, decision: Decision)

  /** What an exchange produced. */
  datatype Exchange = Token(header: Header, lifetime: int) | RefusedExchange | BrokenExchange

  const TOKEN_MARGIN: int := 30_000_000_000

  /** Half of a short lifetime, rounded toward zero, and thirty seconds of a long one, in nanoseconds. */
  function MarginFor(lifetime: int): (margin: int)
    ensures 0 <= lifetime ==> 0 <= margin <= TOKEN_MARGIN && 2 * margin <= lifetime
    ensures 0 <= lifetime ==> margin == TOKEN_MARGIN || 2 * margin + 1 >= lifetime
    ensures lifetime < 0 ==> lifetime <= 2 * margin <= 0
  {
    if HalfOf(lifetime) < TOKEN_MARGIN then HalfOf(lifetime) else TOKEN_MARGIN
  }

  predicate Usable(e: Entry, now: int) {
    e.lifetime == 0 || now - e.acquired < e.lifetime - MarginFor(e.lifetime)
  }

  const SECOND: int := 1_000_000_000
  const DEFAULT_LIFETIME: int := 60 * SECOND

  /** lifetimeOf, which multiplies without a check. */
  function LifetimeOf(expiresIn: int64): int64 {
    if expiresIn <= 0 then DEFAULT_LIFETIME as int64 else Wrapped(expiresIn as int * SECOND)
  }

  /** The access an HTTP method needs, which is the key its token is held under. */
  function ScopeFor(verb: string, name: string): Scope {
    if verb == "GET" || verb == "HEAD" then "repository:" + name + ":pull" else "repository:" + name + ":pull,push"
  }

  ghost predicate WellFormed(a: Auth) {
    forall k :: k in a.entries ==> a.entries[k] < |a.heap|
  }

  /** beginLocked. */
  function Begin(a: Auth, scope: Scope): Outcome {
    Outcome(a.(entries := a.entries[scope := |a.heap|], heap := a.heap + [FRESH_ENTRY]), Mint(|a.heap|))
  }

  /** The locked section of authorize. */
  function Authorize(a: Auth, scope: Scope, now: int): Outcome
    requires WellFormed(a)
  {
    if !a.challenged then Outcome(a, NoHeader)
    else if scope !in a.entries then Begin(a, scope)
    else
      var held := a.heap[a.entries[scope]];
      match held.state
      case Acquiring => Outcome(a, WaitOn(a.entries[scope]))
      case Denied => Outcome(a, GiveUp(ErrorOf(held)))
      case _ => if Usable(held, now) then Outcome(a, Present(held.header)) else Begin(a, scope)
  }

  function ErrorOf(e: Entry): AuthError {
    if e.err.Some? then e.err.value else ExchangeFailed
  }

  /** answered: whichever held token the request carried is proven. */
  function Answered(a: Auth, header: Header): (b: Auth)
    requires WellFormed(a)
    ensures WellFormed(b) && b.entries == a.entries && |b.heap| == |a.heap|
  {
    if header == "" then a.(replied := true)
    else
      a.(
      replied := true,
      heap := seq(|a.heap|, i requires 0 <= i < |a.heap| => ProvenBy(a.heap[i], i in a.entries.Values, header)))
  }

  function ProvenBy(e: Entry, held: bool, header: Header): Entry {
    if held && e.state == Unproven && e.header == header then e.(state := Proven) else e
  }

  /** The locked section of refused. */
  function Refused(a: Auth, scope: Scope, sent: Header, asked: Challenge): Outcome
    requires WellFormed(a)
  {
    var b := a.(challenge := asked, challenged := true, replied := true);
    if scope !in b.entries then Begin(b, scope)
    else
      var e := b.entries[scope];
      var held := b.heap[e];
      if held.state == Acquiring then Outcome(b, WaitOn(e))
      else if held.state == Denied then Outcome(b, GiveUp(ErrorOf(held)))
      else if held.header != sent then Outcome(b, Present(held.header))
      else if held.state == Unproven then
        Outcome(DenyEntry(b, e, scope), GiveUp(ScopeDenied(scope)))
      else Begin(b, scope)
  }

  function DenyEntry(a: Auth, e: nat, scope: Scope): Auth
    requires e < |a.heap|
  {
    a.(heap := a.heap[e := a.heap[e].(state := Denied, err := Some(ScopeDenied(scope)))])
  }

  /** deny. */
  function Deny(a: Auth, scope: Scope, sent: Header): Outcome
    requires WellFormed(a)
  {
    if scope !in a.entries || a.heap[a.entries[scope]].header != sent then Outcome(a, GiveUp(AlreadyReplaced))
    else
      var e := a.entries[scope];
      if a.heap[e].state == Denied then Outcome(a, GiveUp(ErrorOf(a.heap[e])))
      else Outcome(DenyEntry(a, e, scope), GiveUp(ScopeDenied(scope)))
  }

  /** finishLocked. An exchange that broke leaves its entry's state as it was and drops the entry. */
  function Finish(a: Auth, e: nat, scope: Scope, got: Exchange, now: int): Auth
    requires e < |a.heap|
  {
    match got
    case Token(header, lifetime) =>
      a.(heap := a.heap[e := a.heap[e].(header := header, acquired := now, lifetime := lifetime, state := Unproven)])
    case RefusedExchange => a.(heap := a.heap[e := a.heap[e].(err := Some(ExchangeRefused), state := Denied)])
    case BrokenExchange =>
      a.(heap := a.heap[e := a.heap[e].(err := Some(ExchangeFailed))],
      entries := if scope in a.entries && a.entries[scope] == e then a.entries - {scope} else a.entries)
  }

  /** close(held.ready). */
  function Publish(a: Auth, e: nat): Auth
    requires e < |a.heap|
  {
    a.(heap := a.heap[e := a.heap[e].(ready := true)])
  }

  /** What wait reports once the channel is closed. */
  function WaitResult(a: Auth, e: nat): Decision
    requires e < |a.heap|
  {
    if a.heap[e].err.Some? then GiveUp(a.heap[e].err.value) else Present(a.heap[e].header)
  }

  /** learn: only the first requirement counts, and no scope is read from it. */
  function Learn(a: Auth, stated: Option<Challenge>): Auth {
    if a.challenged || stated.None? then a.(replied := true)
    else a.(replied := true, challenge := stated.value, challenged := true)
  }

  // ---- facts about one locked section ----

  /** A refusal starts an exchange only when the scope has no entry, or the refused header is the one
      held and it has been proven. */
  lemma RefusalStartsOnlyFromProven(a: Auth, scope: Scope, sent: Header, asked: Challenge)
    requires WellFormed(a)
    ensures Refused(a, scope, sent, asked).decision.Mint? <==>
            (scope !in a.entries || (a.heap[a.entries[scope]].header == sent && a.heap[a.entries[scope]].state == Proven))
  {
  }

  /** The lifetime is the seconds the endpoint stated exactly when they fit; past that the product wraps. */
  lemma LifetimeIsExact(expiresIn: int64)
    ensures expiresIn > 0 ==> (LifetimeOf(expiresIn) as int == expiresIn as int * SECOND <==> expiresIn <= 9_223_372_036)
    ensures LifetimeOf(9_223_372_037) < 0
  {
  }

  /** The state itself. Each method is one locked section: mu is held from its start to its end, and an
      exchange or a wait happens between two of them. */
  class AuthCell {
    var challenge: Challenge
    var challenged: bool
    var replied: bool
    var entries: map<Scope, nat>
    var heap: seq<Entry>

    ghost function State(): Auth
      reads this
    {
      Auth(challenge, challenged, replied, entries, heap)
    }

    constructor ()
      ensures State() == Auth("", false, false, map[], [])
    {
      challenge, challenged, replied, entries, heap := "", false, false, map[], [];
    }

    method BeginLocked(scope: Scope) returns (made: nat)
      modifies this
      ensures Outcome(State(), Mint(made)) == Begin(old(State()), scope)
    {
      made := |heap|;
      heap := heap + [FRESH_ENTRY];
      entries := entries[scope := made];
    }

    method AuthorizeLocked(scope: Scope, now: int) returns (decision: Decision)
      requires WellFormed(State())
      modifies this
      ensures Outcome(State(), decision) == Authorize(old(State()), scope, now)
    {
      if !challenged {
        return NoHeader;
      }
      if scope in entries {
        var held := heap[entries[scope]];
        if held.state == Acquiring {
          return WaitOn(entries[scope]);
        }
        if held.state == Denied {
          return GiveUp(ErrorOf(held));
        }
        if Usable(held, now) {
          return Present(held.header);
        }
      }
      var made := BeginLocked(scope);
      decision := Mint(made);
    }

    method AnsweredLocked(header: Header)
      requires WellFormed(State())
      modifies this
      ensures State() == Answered(old(State()), header)
    {
      replied := true;
      if header == "" {
        return;
      }
      var todo := entries.Keys;
      while todo != {}
        invariant todo <= entries.Keys && entries == old(entries)
        invariant challenge == old(challenge) && challenged == old(challenged) && replied
        invariant |heap| == |old(heap)|
        invariant forall i :: 0 <= i < |heap| ==>
                    || heap[i] == old(heap)[i]
                    || (i in entries.Values && heap[i] == ProvenBy(old(heap)[i], true, header))
        invariant forall k :: k in entries.Keys - todo ==>
                    heap[entries[k]] == ProvenBy(old(heap)[entries[k]], true, header)
        decreases todo
      {
        var k :| k in todo;
        var e := entries[k];
        if heap[e].state == Unproven && heap[e].header == header {
          heap := heap[e := heap[e].(state := Proven)];
        }
        todo := todo - {k};
      }
    }

    method RefusedLocked(scope: Scope, sent: Header, asked: Challenge) returns (decision: Decision)
      requires WellFormed(State())
      modifies this
      ensures Outcome(State(), decision) == Refused(old(State()), scope, sent, asked)
    {
      challenge, challenged, replied := asked, true, true;
      if scope in entries {
        var e := entries[scope];
        var held := heap[e];
        if held.state == Acquiring {
          return WaitOn(e);
        }
        if held.state == Denied {
          return GiveUp(ErrorOf(held));
        }
        if held.header != sent {
          return Present(held.header);
        }
        if held.state == Unproven {
          heap := heap[e := held.(state := Denied, err := Some(ScopeDenied(scope)))];
          return GiveUp(ScopeDenied(scope));
        }
      }
      var made := BeginLocked(scope);
      decision := Mint(made);
    }

    method DenyLocked(scope: Scope, sent: Header) returns (decision: Decision)
      requires WellFormed(State())
      modifies this
      ensures Outcome(State(), decision) == Deny(old(State()), scope, sent)
    {
      if scope !in entries || heap[entries[scope]].header != sent {
        return GiveUp(AlreadyReplaced);
      }
      var e := entries[scope];
      if heap[e].state == Denied {
        return GiveUp(ErrorOf(heap[e]));
      }
      heap := heap[e := heap[e].(state := Denied, err := Some(ScopeDenied(scope)))];
      decision := GiveUp(ScopeDenied(scope));
    }

    method LearnLocked(stated: Option<Challenge>)
      modifies this
      ensures State() == Learn(old(State()), stated)
    {
      replied := true;
      if challenged || stated.None? {
        return;
      }
      challenge := stated.value;
      challenged := true;
    }

    method CloseReady(held: nat)
      requires held < |heap|
      modifies this
      ensures State() == Publish(old(State()), held)
    {
      heap := heap[held := heap[held].(ready := true)];
    }

    /** The end of a wait whose channel has closed. */
    method WaitLocked(held: nat) returns (decision: Decision)
      requires held < |heap|
      ensures decision == WaitResult(State(), held)
    {
      if heap[held].err.Some? {
        return GiveUp(heap[held].err.value);
      }
      return Present(heap[held].header);
    }

    method FinishLocked(held: nat, scope: Scope, got: Exchange, now: int)
      requires held < |heap|
      modifies this
      ensures State() == Finish(old(State()), held, scope, got, now)
    {
      match got {
        case Token(header, lifetime) =>
          var e := heap[held];
          e := e.(header := header);
          e := e.(acquired := now);
          e := e.(lifetime := lifetime);
          e := e.(state := Unproven);
          heap := heap[held := e];
        case RefusedExchange =>
          heap := heap[held := heap[held].(err := Some(ExchangeRefused))];
          heap := heap[held := heap[held].(state := Denied)];
        case BrokenExchange =>
          heap := heap[held := heap[held].(err := Some(ExchangeFailed))];
          if scope in entries && entries[scope] == held {
            entries := entries - {scope};
          }
      }
    }
  }
}
