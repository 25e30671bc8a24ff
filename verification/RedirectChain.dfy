/** A chain of redirects from the outside: where each hop goes, what it carries, and what comes back, in terms of
    the answers alone. */
module RedirectChain {
  import opened Base
  import opened Redirect

  /** The port a URL is on: the one written, or the one its scheme implies. */
  ghost function EffectivePort(u: Url): string {
    match (u.port, u.scheme)
    case ("", "https") => "443"
    case ("", "http") => "80"
    case (written, _) => written
  }

  /** One scheme, one host name whatever its case, and one port. */
  ghost predicate Agrees(w: World, a: Url, b: Url) {
    a.scheme == b.scheme && w.fold(a.hostname) == w.fold(b.hostname) && EffectivePort(a) == EffectivePort(b)
  }

  /** None of the first n requests goes anywhere else. */
  ghost predicate StaysAt(w: World, at: Url, sent: seq<Request>, n: nat)
    requires n <= |sent|
  {
    forall j :: 0 <= j < n ==> Agrees(w, at, sent[j].url)
  }

  lemma {:induction false} AllAtIsStays(w: World, at: Url, sent: seq<Request>)
    ensures AllAt(w, at, sent) <==> StaysAt(w, at, sent, |sent|)
  {
    if sent != [] {
      AllAtIsStays(w, at, sent[1..]);
      assert Agrees(w, at, sent[0].url) <==> SameOrigin(w, at, sent[0].url);
      assert forall j :: 0 <= j < |sent| - 1 ==> sent[1..][j] == sent[j + 1];
      if StaysAt(w, at, sent[1..], |sent| - 1) && Agrees(w, at, sent[0].url) {
        forall j | 0 <= j < |sent| ensures Agrees(w, at, sent[j].url) {
          assert j > 0 ==> sent[j] == sent[1..][j - 1];
        }
      }
    }
  }

  /** The registry's credential goes with a hop exactly when neither that hop nor one before it left the registry's
      scheme, host name or port. */
  lemma CredentialGoesNowhereElse(w: World, current: Request, resp: Response, hops: nat, away: bool, k: nat)
    requires Agrees(w, w.registry, current.url) && k < |Chase(w, current, resp, hops, away).sent|
    ensures
      var sent := Chase(w, current, resp, hops, away).sent;
      Get(sent[k].headers, "Authorization") ==
      if StaysAt(w, w.registry, sent, k + 1) then Get(current.headers, "Authorization") else ""
  {
    var sent := Chase(w, current, resp, hops, away).sent;
    RegistryCredentialStaysHome(w, current, resp, hops, away, k);
    AllAtIsStays(w, w.registry, sent[..k + 1]);
    assert forall j :: 0 <= j < k + 1 ==> sent[..k + 1][j] == sent[j];
  }

  // ---- where a chain goes and how it ends ----

  ghost predicate Redirects(status: int) {
    status == 301 || status == 302 || status == 303 || status == 307 || status == 308
  }

  /** The request that was redirected to the j-th hop, and the answer that redirected it. */
  ghost function From(current: Request, sent: seq<Request>, j: nat): Request
    requires j <= |sent|
  {
    if j == 0 then current else sent[j - 1]
  }

  ghost function Naming(w: World, resp: Response, hops: nat, j: nat): Hop {
    if j == 0 then Answered(resp) else w.answer(hops + j - 1)
  }

  /** This redirect may be followed, and this request follows it. */
  ghost predicate Follows(w: World, from: Request, told: Hop, to: Request) {
    && told.Answered? && told.resp.location != "" && w.resolve(from.url, told.resp.location) == Some(to.url)
    && to.verb == from.verb && (from.verb == "GET" || (from.verb == "HEAD" && told.resp.status != 303))
  }

  /** Why a redirect is not followed. */
  ghost predicate Refuses(w: World, from: Request, told: Response, hops: nat, left: bool, e: ChainError) {
    if hops >= 3 then e == TooManyHops
    else if from.verb != "GET" && (from.verb != "HEAD" || told.status == 303) then
      e == if left then OffOrigin(told.status, false) else StatusAt(told.status)
    else if told.location == "" then e == NoLocation
    else
      match w.resolve(from.url, told.location)
      case None => e == NotUrl
      case Some(to) =>
        if to.scheme !in {"http", "https"} then e == NotHttp
        else if to.host == "" then e == NoHost
        else if to.scheme == "http" && w.registry.scheme == "https" then e == Downgrade
        else to.userinfo && e == Userinfo
  }

  /** Of an answer that does not redirect: the registry's own is returned as it is, another party's only when it is
      the content. */
  ghost predicate Returns(reply: Response, left: bool, result: Result<Response, ChainError>) {
    if !left || reply.status == 200 || reply.status == 206 then result == Ok(reply)
    else
      var again := reply.status in {401, 403, 404, 410, 429} || 500 <= reply.status <= 599;
      result == Err(OffOrigin(reply.status, again))
  }

  /** Each hop follows the redirect before it. */
  ghost predicate Linked(w: World, current: Request, resp: Response, hops: nat, sent: seq<Request>) {
    forall j :: 0 <= j < |sent| ==> LinkedAt(w, current, resp, hops, sent, j)
  }

  ghost predicate LinkedAt(w: World, current: Request, resp: Response, hops: nat, sent: seq<Request>, j: nat)
    requires j < |sent|
  {
    var told := Naming(w, resp, hops, j);
    Follows(w, From(current, sent, j), told, sent[j]) && (j > 0 ==> Redirects(told.resp.status))
  }

  /** And the last answer says how the chain ends. */
  ghost predicate EndsWith(w: World, current: Request, resp: Response, hops: nat, away: bool, c: Chain) {
    var n := |c.sent|;
    var left := away || !StaysAt(w, w.registry, c.sent, n);
    match Naming(w, resp, hops, n)
    case Broken(transient) => c.result == Err(HopBroken(transient))
    case Answered(last) =>
      if n > 0 && !Redirects(last.status) then Returns(last, left, c.result)
      else c.result.Err? && Refuses(w, From(current, c.sent, n), last, hops + n, left, c.result.error)
  }

  lemma StaysFirst(w: World, at: Url, next: Request, rest: seq<Request>)
    ensures StaysAt(w, at, [next] + rest, 1 + |rest|) <==> Agrees(w, at, next.url) && StaysAt(w, at, rest, |rest|)
  {
    var all := [next] + rest;
    assert all[0] == next;
    if StaysAt(w, at, all, |all|) {
      forall j | 0 <= j < |rest| ensures Agrees(w, at, rest[j].url) {
        assert rest[j] == all[j + 1];
      }
    }
    if Agrees(w, at, next.url) && StaysAt(w, at, rest, |rest|) {
      forall j | 0 <= j < |all| ensures Agrees(w, at, all[j].url) {
        assert j > 0 ==> all[j] == rest[j - 1];
      }
    }
  }

  lemma LinkedFirst(
    w: World, current: Request, resp: Response, hops: nat, next: Request, reply: Response, rest: seq<Request>)
    requires Follows(w, current, Answered(resp), next) && w.answer(hops) == Answered(reply) && Redirects(reply.status)
    requires Linked(w, next, reply, hops + 1, rest)
    ensures Linked(w, current, resp, hops, [next] + rest)
  {
    var all := [next] + rest;
    forall j | 0 <= j < |all| ensures LinkedAt(w, current, resp, hops, all, j) {
      if j > 0 {
        assert LinkedAt(w, next, reply, hops + 1, rest, j - 1);
        assert From(current, all, j) == From(next, rest, j - 1);
        assert Naming(w, resp, hops, j) == Naming(w, reply, hops + 1, j - 1);
      }
    }
  }

  lemma EndsFirst(
    w: World, current: Request, resp: Response, hops: nat, away: bool, next: Request, reply: Response, rest: Chain)
    requires w.answer(hops) == Answered(reply) && Redirects(reply.status)
    requires EndsWith(w, next, reply, hops + 1, away || !Agrees(w, w.registry, next.url), rest)
    ensures EndsWith(w, current, resp, hops, away, Chain(rest.result, [next] + rest.sent))
  {
    var n := |rest.sent|;
    StaysFirst(w, w.registry, next, rest.sent);
    assert Naming(w, resp, hops, n + 1) == Naming(w, reply, hops + 1, n);
    assert From(current, [next] + rest.sent, n + 1) == From(next, rest.sent, n);
  }

  /** A redirect is followed to where it points, as long as it may be, and the chain comes to what its last answer
      says. hops are the hops made before, and away whether one of them left the registry. */
  lemma {:induction false} ChainFollowsItsAnswers(w: World, current: Request, resp: Response, hops: nat, away: bool)
    requires hops <= 3
    ensures
      var c := Chase(w, current, resp, hops, away);
      Linked(w, current, resp, hops, c.sent) && EndsWith(w, current, resp, hops, away, c)
    decreases 3 - hops
  {
    OneTurnFollows(w, current, resp, hops, away);
    match TakeTurn(w, current, resp, hops, away)
    case Ends(chain) =>
    case Goes(next, reply, left) =>
      ChainFollowsItsAnswers(w, next, reply, hops + 1, left);
      var rest := Chase(w, next, reply, hops + 1, left);
      LinkedFirst(w, current, resp, hops, next, reply, rest.sent);
      EndsFirst(w, current, resp, hops, away, next, reply, rest);
  }

  lemma OneTurnFollows(w: World, current: Request, resp: Response, hops: nat, away: bool)
    requires hops <= 3
    ensures
      match TakeTurn(w, current, resp, hops, away)
      case Ends(chain) => Linked(w, current, resp, hops, chain.sent) && EndsWith(w, current, resp, hops, away, chain)
      case Goes(next, reply, left) =>
        && Follows(w, current, Answered(resp), next) && w.answer(hops) == Answered(reply) && Redirects(reply.status)
        && (left <==> away || !Agrees(w, w.registry, next.url))
  {
    OriginsAgree(w);
    var t := TakeTurn(w, current, resp, hops, away);
    if t.Ends? && t.chain.sent != [] {
      var next := t.chain.sent[0];
      assert t.chain.sent == [next] + [];
      StaysFirst(w, w.registry, next, []);
      assert LinkedAt(w, current, resp, hops, t.chain.sent, 0);
    }
  }

  /** Leaving the registry is leaving its scheme, host name or port. */
  lemma OriginsAgree(w: World)
    ensures forall a, b :: SameOrigin(w, a, b) <==> Agrees(w, a, b)
  {
  }
}
