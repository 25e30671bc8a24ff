/** The redirect chain of internal/oci/redirect.go. Parsing and resolving a Location is a parameter, and
    what each hop is answered with is arbitrary. */
module Redirect {
  import opened Base

  /** What the code asks a URL. host is the raw authority, hostname and port its parts; rest is the path
      and query. */
  datatype Url = Url(scheme: string, host: string, hostname: string, port: string, userinfo: bool, rest: string)

  type Headers = map<string, seq<string>>

  datatype Request = Request(verb: string, url: Url, headers: Headers)

  /** location is empty when the response carried none. */
  datatype Response = Response(status: int, location: string)

  /** What one hop comes to: a response, or a failure the transport reports. */
  datatype Hop = Answered(resp: Response) | Broken(transient: bool)

  datatype ChainError =
    | TooManyHops
    | StatusAt(status: int)
    | OffOrigin(status: int, transient: bool)
    | NoLocation | NotUrl | NotHttp | NoHost | Downgrade | Userinfo
    | HopBroken(transient: bool)

  /** The environment: canonical case of a host name, resolution of a location against the URL that was
      redirected, and the answer to the k-th hop. */
  datatype World = World(
    registry: Url,
    fold: string -> string,
    resolve: (Url, string) -> Option<Url>,
    answer: nat -> Hop
  )

  const MAX_REDIRECT_HOPS: nat := 3
  const CARRIED := ["Range", "Accept", "Accept-Encoding"]
  const AUTHORIZATION := "Authorization"

  function FollowMethod(verb: string, status: int): Option<string> {
    match verb
    case "GET" => Some("GET")
    case "HEAD" => if status == 303 then None else Some("HEAD")
    case _ => None
  }

  predicate IsRedirect(status: int) {
    status in {301, 302, 303, 307, 308}
  }

  predicate IsRefusal(status: int) {
    status == 401 || status == 403
  }

  function PortOf(u: Url): string {
    if u.port != "" then u.port
    else if u.scheme == "https" then "443"
    else if u.scheme == "http" then "80"
    else ""
  }

  predicate SameOrigin(w: World, a: Url, b: Url) {
    a.scheme == b.scheme && w.fold(a.hostname) == w.fold(b.hostname) && PortOf(a) == PortOf(b)
  }

  predicate TransientStatus(status: int) {
    status == 429 || 500 <= status <= 599
  }

  predicate OffOriginTransient(status: int) {
    status in {401, 403, 404, 410} || TransientStatus(status)
  }

  /** The first value, or nothing. */
  function Get(h: Headers, name: string): string {
    if name in h && h[name] != [] then h[name][0] else ""
  }

  function Values(h: Headers, name: string): seq<string> {
    if name in h then h[name] else []
  }

  /** copyAllowed, into an empty header. */
  function Allowed(h: Headers): Headers {
    map name | name in CARRIED && Values(h, name) != [] :: Values(h, name)
  }

  function RedirectTarget(w: World, current: Request, resp: Response): Result<Url, ChainError> {
    if resp.location == "" then Err(NoLocation)
    else
      match w.resolve(current.url, resp.location)
      case None => Err(NotUrl)
      case Some(target) =>
        if target.scheme != "https" && target.scheme != "http" then Err(NotHttp)
        else if target.host == "" then Err(NoHost)
        else if target.scheme == "http" && w.registry.scheme == "https" then Err(Downgrade)
        else if target.userinfo then Err(Userinfo)
        else Ok(target)
  }

  function NextHop(w: World, current: Request, resp: Response, hops: nat, away: bool): Result<Request, ChainError> {
    if hops >= MAX_REDIRECT_HOPS then Err(TooManyHops)
    else
      match FollowMethod(current.verb, resp.status)
      case None => Err(if away then OffOrigin(resp.status, false) else StatusAt(resp.status))
      case Some(verb) =>
        match RedirectTarget(w, current, resp)
        case Err(e) => Err(e)
        case Ok(target) =>
          var presented := Get(current.headers, AUTHORIZATION);
          var headers := Allowed(current.headers);
          Ok(Request(verb, target,
                     if SameOrigin(w, current.url, target) && presented != "" then headers[AUTHORIZATION := [presented]]
                     else headers))
  }

  function OffOriginResponse(resp: Response): Result<Response, ChainError> {
    if resp.status == 200 || resp.status == 206 then Ok(resp)
    else Err(OffOrigin(resp.status, OffOriginTransient(resp.status)))
  }

  datatype Chain = Chain(result: Result<Response, ChainError>, sent: seq<Request>)

  datatype Turn = Ends(chain: Chain) | Goes(next: Request, reply: Response, away: bool)

  /** One turn of the loop of follow. */
  function TakeTurn(w: World, current: Request, resp: Response, hops: nat, away: bool): (t: Turn)
    ensures t.Goes? ==> hops < MAX_REDIRECT_HOPS
  {
    match NextHop(w, current, resp, hops, away)
    case Err(e) => Ends(Chain(Err(e), []))
    case Ok(next) =>
      var left := away || !SameOrigin(w, w.registry, next.url);
      match w.answer(hops)
      case Broken(transient) => Ends(Chain(Err(HopBroken(transient)), [next]))
      case Answered(reply) =>
        if IsRedirect(reply.status) then Goes(next, reply, left)
        else Ends(Chain(if left then OffOriginResponse(reply) else Ok(reply), [next]))
  }

  /** The whole chain from one redirect on: what it returns and every request it sends. */
  function Chase(w: World, current: Request, resp: Response, hops: nat, away: bool): Chain
    decreases MAX_REDIRECT_HOPS - hops
  {
    match TakeTurn(w, current, resp, hops, away)
    case Ends(chain) => chain
    case Goes(next, reply, left) =>
      var rest := Chase(w, next, reply, hops + 1, left);
      Chain(rest.result, [next] + rest.sent)
  }

  /** The body of the loop of follow. */
  method SendNext(w: World, current: Request, resp: Response, hops: nat, away: bool) returns (t: Turn)
    ensures t == TakeTurn(w, current, resp, hops, away)
  {
    var next := NextHop(w, current, resp, hops, away);
    if next.Err? {
      return Ends(Chain(Err(next.error), []));
    }
    var left := away || !SameOrigin(w, w.registry, next.value.url);
    var hop := w.answer(hops);
    if hop.Broken? {
      return Ends(Chain(Err(HopBroken(hop.transient)), [next.value]));
    }
    if IsRedirect(hop.resp.status) {
      return Goes(next.value, hop.resp, left);
    }
    if left {
      return Ends(Chain(OffOriginResponse(hop.resp), [next.value]));
    }
    return Ends(Chain(Ok(hop.resp), [next.value]));
  }

  method Follow(w: World, req: Request, first: Response) returns (result: Result<Response, ChainError>, sent: seq<Request>)
    ensures Chain(result, sent) == Chase(w, req, first, 0, false)
  {
    var current := req;
    var resp := first;
    var away := false;
    var hops: nat := 0;
    sent := [];
    while true
      invariant hops <= MAX_REDIRECT_HOPS
      invariant Chase(w, req, first, 0, false) == After(sent, Chase(w, current, resp, hops, away))
      decreases MAX_REDIRECT_HOPS - hops
    {
      AfterTurn(w, current, resp, hops, away, sent);
      var turn := SendNext(w, current, resp, hops, away);
      match turn
      case Ends(chain) => return chain.result, sent + chain.sent;
      case Goes(next, reply, left) =>
        sent := sent + [next];
        current, resp, away, hops := next, reply, left, hops + 1;
    }
  }

  function After(sent: seq<Request>, c: Chain): Chain {
    c.(sent := sent + c.sent)
  }

  lemma AfterTurn(w: World, current: Request, resp: Response, hops: nat, away: bool, sent: seq<Request>)
    ensures
      After(sent, Chase(w, current, resp, hops, away)) ==
      match TakeTurn(w, current, resp, hops, away)
      case Ends(chain) => After(sent, chain)
      case Goes(next, reply, left) => After(sent + [next], Chase(w, next, reply, hops + 1, left))
  {
    match TakeTurn(w, current, resp, hops, away)
    case Ends(chain) =>
    case Goes(next, reply, left) =>
      var rest := Chase(w, next, reply, hops + 1, left);
      assert sent + ([next] + rest.sent) == (sent + [next]) + rest.sent;
  }

  // ---- what every chain keeps ----

  /** At most three hops are sent in all, and a chain is given up as too long only after all three. */
  lemma {:induction false} AtMostThreeHops(w: World, current: Request, resp: Response, hops: nat, away: bool)
    requires hops <= MAX_REDIRECT_HOPS
    ensures
      var c := Chase(w, current, resp, hops, away);
      && |c.sent| <= MAX_REDIRECT_HOPS - hops
      && (c.result == Err(TooManyHops) ==> |c.sent| == MAX_REDIRECT_HOPS - hops)
    decreases MAX_REDIRECT_HOPS - hops
  {
    match TakeTurn(w, current, resp, hops, away)
    case Ends(_) =>
    case Goes(next, reply, left) => AtMostThreeHops(w, next, reply, hops + 1, left);
  }

  /** Every one of these requests goes to this origin. */
  predicate AllAt(w: World, start: Url, sent: seq<Request>) {
    sent == [] || (SameOrigin(w, start, sent[0].url) && AllAt(w, start, sent[1..]))
  }

  lemma {:induction false} OneOrigin(w: World, a: Url, b: Url, sent: seq<Request>)
    requires SameOrigin(w, a, b)
    ensures AllAt(w, a, sent) <==> AllAt(w, b, sent)
    decreases |sent|
  {
    if sent != [] {
      OneOrigin(w, a, b, sent[1..]);
    }
  }

  /** A hop carries Authorization exactly when the first request did and no hop so far, itself included,
      has left that request's origin; what it carries is what the first request carried. */
  lemma {:induction false} CredentialStaysHome(
    w: World, current: Request, resp: Response, hops: nat, away: bool, k: nat)
    requires k < |Chase(w, current, resp, hops, away).sent|
    ensures
      var sent := Chase(w, current, resp, hops, away).sent;
      Get(sent[k].headers, AUTHORIZATION) ==
      if AllAt(w, current.url, sent[..k + 1]) then Get(current.headers, AUTHORIZATION) else ""
    decreases k
  {
    var sent := Chase(w, current, resp, hops, away).sent;
    var next := NextHop(w, current, resp, hops, away).value;
    FirstHopCarries(w, current, resp, hops, away);
    if k == 0 {
      AllAtFirst(w, current.url, next, []);
      assert sent[..1] == [next] + [];
    } else {
      match TakeTurn(w, current, resp, hops, away)
      case Goes(_, reply, left) =>
        var rest := Chase(w, next, reply, hops + 1, left).sent;
        CredentialStaysHome(w, next, reply, hops + 1, left, k - 1);
        assert sent[..k + 1] == [next] + rest[..k];
        AllAtFirst(w, current.url, next, rest[..k]);
        if SameOrigin(w, current.url, next.url) {
          OneOrigin(w, current.url, next.url, rest[..k]);
        }
    }
  }

  /** For a request to the registry, that origin is the registry's: its credential goes with a hop exactly
      when every URL so far, the hop's own included, is the registry's. */
  lemma RegistryCredentialStaysHome(w: World, current: Request, resp: Response, hops: nat, away: bool, k: nat)
    requires SameOrigin(w, w.registry, current.url)
    requires k < |Chase(w, current, resp, hops, away).sent|
    ensures
      var sent := Chase(w, current, resp, hops, away).sent;
      Get(sent[k].headers, AUTHORIZATION) ==
      if AllAt(w, w.registry, sent[..k + 1]) then Get(current.headers, AUTHORIZATION) else ""
  {
    CredentialStaysHome(w, current, resp, hops, away, k);
    OneOrigin(w, w.registry, current.url, Chase(w, current, resp, hops, away).sent[..k + 1]);
  }

  lemma AllAtFirst(w: World, start: Url, first: Request, rest: seq<Request>)
    ensures AllAt(w, start, [first] + rest) <==> SameOrigin(w, start, first.url) && AllAt(w, start, rest)
  {
    assert ([first] + rest)[1..] == rest;
  }

  lemma FirstHopCarries(w: World, current: Request, resp: Response, hops: nat, away: bool)
    requires NextHop(w, current, resp, hops, away).Ok?
    ensures
      var next := NextHop(w, current, resp, hops, away).value;
      Get(next.headers, AUTHORIZATION) ==
      if SameOrigin(w, current.url, next.url) then Get(current.headers, AUTHORIZATION) else ""
  {
    assert AUTHORIZATION !in CARRIED;
  }

  /** A chain that has ever left the registry returns 200 or 206 or fails, so a refusal it returns never
      left; and it blames another party only when it has. away says whether it had left before. */
  lemma {:induction false} OffOriginIsSticky(w: World, current: Request, resp: Response, hops: nat, away: bool)
    ensures
      var c := Chase(w, current, resp, hops, away);
      c.result.Err? && c.result.error.OffOrigin? ==> away || !AllAt(w, w.registry, c.sent)
    ensures
      var c := Chase(w, current, resp, hops, away);
      c.result.Ok? ==>
        && c.sent != [] && !IsRedirect(c.result.value.status)
        && (away || !AllAt(w, w.registry, c.sent) ==> c.result.value.status == 200 || c.result.value.status == 206)
        && (IsRefusal(c.result.value.status) ==> !away && AllAt(w, w.registry, c.sent))
    decreases MAX_REDIRECT_HOPS - hops
  {
    match TakeTurn(w, current, resp, hops, away)
    case Ends(chain) =>
      if chain.result.Ok? {
        assert chain.sent[1..] == [] && AllAt(w, w.registry, chain.sent[1..]);
      }
    case Goes(next, reply, left) =>
      OffOriginIsSticky(w, next, reply, hops + 1, left);
      assert Chase(w, current, resp, hops, away).sent[1..] == Chase(w, next, reply, hops + 1, left).sent;
  }

  /** Every hop is a read of the kind first asked for, over http or https, never plain http from an https
      registry, never with user information, and with no header but the three allowed, unchanged, and
      Authorization. */
  predicate SafeHop(w: World, first: Request, hop: Request) {
    && hop.verb == first.verb && hop.verb in {"GET", "HEAD"}
    && hop.url.scheme in {"https", "http"} && (w.registry.scheme == "https" ==> hop.url.scheme == "https")
    && hop.url.host != "" && !hop.url.userinfo
    && (forall name :: name in hop.headers ==> name in CARRIED || name == AUTHORIZATION)
    && (forall name :: name in CARRIED ==> Values(hop.headers, name) == Values(first.headers, name))
  }

  lemma {:induction false} EveryHopIsSafe(w: World, current: Request, resp: Response, hops: nat, away: bool, k: nat)
    requires k < |Chase(w, current, resp, hops, away).sent|
    ensures SafeHop(w, current, Chase(w, current, resp, hops, away).sent[k])
    decreases k
  {
    OneHopIsSafe(w, current, resp, hops, away);
    if k > 0 {
      match TakeTurn(w, current, resp, hops, away)
      case Goes(next, reply, left) => EveryHopIsSafe(w, next, reply, hops + 1, left, k - 1);
    }
  }

  lemma OneHopIsSafe(w: World, current: Request, resp: Response, hops: nat, away: bool)
    requires NextHop(w, current, resp, hops, away).Ok?
    ensures SafeHop(w, current, NextHop(w, current, resp, hops, away).value)
    ensures current.verb == "HEAD" ==> resp.status != 303
  {
    var next := NextHop(w, current, resp, hops, away).value;
    forall name | name in CARRIED ensures Values(next.headers, name) == Values(current.headers, name) {
      assert name != AUTHORIZATION;
    }
  }
}
