/** What the locked sections of internal/oci/authstate.go answer, in terms of what a scope holds: when a token is
    presented, what an exchange's outcome is worth to the next request, and which answers prove what. */
module AuthAnswers {
  import opened Base
  import opened AuthState
  import P = AuthProtocol

  /** The scope's entry. */
  ghost function HeldBy(a: Auth, scope: Scope): Entry
    requires WellFormed(a) && scope in a.entries
  {
    a.heap[a.entries[scope]]
  }

  /** Nothing but the scope's entry is replaced, by a new one for whose exchange the request is responsible. */
  ghost predicate StartsOver(a: Auth, scope: Scope, out: Outcome) {
    && out.decision == Mint(|a.heap|)
    && out.auth.entries == a.entries[scope := |a.heap|]
    && |out.auth.heap| == |a.heap| + 1 && out.auth.heap[..|a.heap|] == a.heap
    && out.auth.heap[|a.heap|].state == Acquiring && !out.auth.heap[|a.heap|].ready
    && out.auth.heap[|a.heap|].err.None? && out.auth.heap[|a.heap|].header == ""
  }

  // ---- when a token is presented ----

  /** A token without a stated end, or with more than thirty seconds left, or with more than half of its lifetime
      left. A lifetime below zero, which only a product that wrapped can be, is halved toward zero. */
  ghost predicate Live(e: Entry, now: int) {
    var left := e.acquired + e.lifetime - now;
    || e.lifetime == 0
    || left > 30_000_000_000
    || 2 * left > e.lifetime + if e.lifetime < 0 then 1 else 0
  }

  /** Every answer of authorize. */
  lemma WhatIsPresented(a: Auth, scope: Scope, now: int)
    requires WellFormed(a)
    ensures
      var out := Authorize(a, scope, now);
      if !a.challenged then out == Outcome(a, NoHeader)
      else if scope !in a.entries then StartsOver(a, scope, out)
      else
        match HeldBy(a, scope).state
        case Acquiring => out == Outcome(a, WaitOn(a.entries[scope]))
        case Denied =>
          out.auth == a && out.decision.GiveUp?
          && (HeldBy(a, scope).err.Some? ==> Some(out.decision.err) == HeldBy(a, scope).err)
        case _ =>
          if Live(HeldBy(a, scope), now) then out == Outcome(a, Present(HeldBy(a, scope).header))
          else StartsOver(a, scope, out)
  {
  }

  /** From the seconds a token endpoint states to the moment the token is given up: of 60 seconds or less half are
      used, of more all but thirty seconds, and an endpoint that states none is taken to have said 60. The bound is
      the largest number of seconds whose nanoseconds an int64 holds. */
  lemma TokenIsGivenUp(a: Auth, e: nat, scope: Scope, header: Header, expiresIn: int64, at: int, now: int)
    requires WellFormed(a) && a.challenged && scope in a.entries && a.entries[scope] == e && expiresIn <= 9_223_372_036
    ensures
      var stated := if expiresIn <= 0 then 60 else expiresIn as int;
      var b := Finish(a, e, scope, Token(header, LifetimeOf(expiresIn) as int), at);
      var used := if stated <= 60 then stated * 500_000_000 else (stated - 30) * 1_000_000_000;
      && WellFormed(b)
      && if now - at < used then Authorize(b, scope, now) == Outcome(b, Present(header))
         else StartsOver(b, scope, Authorize(b, scope, now))
  {
    var b := Finish(a, e, scope, Token(header, LifetimeOf(expiresIn) as int), at);
    WhatIsPresented(b, scope, now);
  }

  /** A credential without a stated end is presented whatever the clock says. */
  lemma BasicNeverEnds(a: Auth, e: nat, scope: Scope, header: Header, at: int, now: int)
    requires WellFormed(a) && a.challenged && scope in a.entries && a.entries[scope] == e
    ensures
      var b := Finish(a, e, scope, Token(header, 0), at);
      WellFormed(b) && Authorize(b, scope, now) == Outcome(b, Present(header))
  {
  }

  /** A token below zero is never presented again once its clock has not gone back. */
  lemma WrappedLifetimeIsNeverPresented(a: Auth, scope: Scope, now: int)
    requires WellFormed(a) && a.challenged && scope in a.entries
    requires HeldBy(a, scope).lifetime < 0 && HeldBy(a, scope).acquired <= now
    ensures !Authorize(a, scope, now).decision.Present?
  {
  }

  // ---- what a failed exchange is worth ----

  /** A refused credential is kept, and fails every later request for the scope; any other failure is forgotten, and
      the next request starts over. */
  lemma FailedExchangeIsWorth(a: Auth, e: nat, scope: Scope, at: int, now: int)
    requires WellFormed(a) && a.challenged && scope in a.entries && a.entries[scope] == e
    ensures
      var b := Finish(a, e, scope, RefusedExchange, at);
      WellFormed(b) && Authorize(b, scope, now) == Outcome(b, GiveUp(ExchangeRefused))
    ensures
      var b := Finish(a, e, scope, BrokenExchange, at);
      WellFormed(b) && scope !in b.entries && StartsOver(b, scope, Authorize(b, scope, now))
  {
  }

  // ---- what an answer proves, and a refusal after it ----

  /** An answer proves the held tokens the request carried, and nothing else changes but that the registry has
      replied. */
  lemma AnswerProves(a: Auth, header: Header)
    requires WellFormed(a)
    ensures
      var b := Answered(a, header);
      && b.replied && b.challenged == a.challenged && b.challenge == a.challenge && b.entries == a.entries
      && |b.heap| == |a.heap|
      && forall i :: 0 <= i < |a.heap| ==>
           b.heap[i] ==
           if header != "" && a.heap[i].header == header && a.heap[i].state.Unproven? && (exists k :: k in a.entries && a.entries[k] == i)
           then a.heap[i].(state := Proven) else a.heap[i]
  {
    assert forall i :: i in a.entries.Values <==> exists k :: k in a.entries && a.entries[k] == i;
  }

  /** The two-send rule in the life of one token: refused before any answer, it is the scope's verdict; refused
      after one, it is renewed, and with that entry the scope may have another token. */
  lemma TokenRefused(a: Auth, e: nat, scope: Scope, header: Header, lifetime: int, at: int, asked: Challenge)
    requires WellFormed(a) && scope in a.entries && a.entries[scope] == e && header != ""
    ensures
      var b := Finish(a, e, scope, Token(header, lifetime), at);
      && WellFormed(b)
      && Refused(b, scope, header, asked).decision == GiveUp(ScopeDenied(scope))
      && Deny(b, scope, header).decision == GiveUp(ScopeDenied(scope))
      && Refused(Answered(b, header), scope, header, asked).decision == Mint(|a.heap|)
      && Deny(Answered(b, header), scope, header).decision == GiveUp(ScopeDenied(scope))
  {
    var b := Finish(a, e, scope, Token(header, lifetime), at);
    AnswerProves(b, header);
  }

  /** Another header than the one refused has been put there since: it is presented in place of a second exchange,
      and a re-issued request ends as one worth repeating. */
  lemma ReplacedHeader(a: Auth, scope: Scope, sent: Header, asked: Challenge)
    requires WellFormed(a) && scope in a.entries && HeldBy(a, scope).header != sent
    requires HeldBy(a, scope).state.Unproven? || HeldBy(a, scope).state.Proven?
    ensures
      var out := Refused(a, scope, sent, asked);
      && out.decision == Present(HeldBy(a, scope).header)
      && out.auth.entries == a.entries && out.auth.heap == a.heap
    ensures Deny(a, scope, sent) == Outcome(a, GiveUp(AlreadyReplaced))
  {
  }

  // ---- what the registry is known to ask ----

  /** A refusal is heeded whatever was known before; the version check is heeded only while nothing was. */
  lemma WhatIsAsked(c: P.Config, s: P.State, step: P.Step)
    requires P.Enabled(c, s, step)
    ensures
      var t := P.Apply(c, s, step);
      match step
      case Refuse(_, asked) => t.auth.challenged && t.auth.challenge == asked && t.auth.replied
      case LearnIt(stated) =>
        && t.auth.replied
        && (if stated.Some? && !s.auth.challenged then t.auth.challenged && t.auth.challenge == stated.value
            else t.auth.challenged == s.auth.challenged && t.auth.challenge == s.auth.challenge)
      case _ =>
        && t.auth.challenged == s.auth.challenged && t.auth.challenge == s.auth.challenge
        && (t.auth.replied <==> s.auth.replied || step.Hear?)
  {
  }

  /** Reads share one token and everything else another: so a repository holds at most two. */
  lemma ScopesOfVerbs(v: string, w: string, name: string)
    ensures ScopeFor(v, name) == ScopeFor(w, name) <==> (v in {"GET", "HEAD"} <==> w in {"GET", "HEAD"})
    ensures ScopeFor("GET", name) == "repository:" + name + ":pull"
    ensures ScopeFor("PUT", name) == "repository:" + name + ":pull,push"
  {
    assert |":pull"| != |":pull,push"|;
  }
}
