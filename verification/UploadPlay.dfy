/** What a registry's answers and a source's reads make of one part's upload (internal/transfer/push.go: attempt,
    under the attempts of internal/retry/retry.go), as a function of the answers alone. PushUpload shows that the
    code does exactly this. */
module UploadPlay {
  import opened Base
  import opened Streams
  import opened SourceReads
  import opened PushWork

  datatype UploadFailure = AskFailed(tagged: bool) | SourceFailed | PutFailed(tagged: bool) | Interrupted

  /** A source failure is terminal, whatever the adapter made of it. */
  predicate Transient(f: UploadFailure) {
    match f
    case AskFailed(tagged) => tagged
    case PutFailed(tagged) => tagged
    case _ => false
  }

  /** What a registry holds, and what it will answer with. */
  datatype Registry = Registry(held: set<Digest>, asks: seq<Option<bool>>, puts: seq<PutScript>)

  /** What one attempt leaves: how it failed, whether it put anything, and the registry. */
  datatype Tried = Tried(failed: Option<UploadFailure>, put: bool, left: Registry)

  function Failing(failed: Option<PutFailure>): Option<UploadFailure> {
    match failed
    case None => None
    case Some(FromSource) => Some(SourceFailed)
    case Some(FromPort(tagged)) => Some(PutFailed(tagged))
  }

  /** Ask, and put when the registry does not hold the blob. range is what the source delivers now. */
  function Try(x: Expected, g: Registry, range: seq<Delivery>): Tried {
    var asked := g.(asks := g.asks[Least(1, |g.asks|)..]);
    if g.asks != [] && g.asks[0].Some? then Tried(Some(AskFailed(g.asks[0].value)), false, asked)
    else if x.digest in g.held then Tried(None, false, asked)
    else
      var script := NextPut(g.puts);
      var end := EndOfPut(x, Send(x, Reader(range, [], 0), [], script.limits), script.answer);
      Tried(
        Failing(end.failed), true,
        asked.(puts := g.puts[Least(1, |g.puts|)..], held := if end.stored then g.held + {x.digest} else g.held))
  }

  /** How an upload ends, after so many attempts and puts, and what the registry holds then. */
  datatype Played = Played(failed: Option<UploadFailure>, tries: nat, puts: nat, held: set<Digest>)

  /** An upload that has made done attempts and may make left more. ranges is what the source delivers to each,
      stopped says before which the context has ended. */
  function Plays(
    x: Expected, g: Registry, ranges: nat -> seq<Delivery>, stopped: nat -> bool, done: nat, left: nat): Played
    requires left > 0
    decreases left
  {
    if stopped(done) then Played(Some(Interrupted), 0, 0, g.held)
    else
      var t := Try(x, g, ranges(done));
      var put := if t.put then 1 else 0;
      if t.failed.None? || !Transient(t.failed.value) || left == 1 then Played(t.failed, 1, put, t.left.held)
      else
        var rest := Plays(x, t.left, ranges, stopped, done + 1, left - 1);
        rest.(tries := rest.tries + 1, puts := rest.puts + put)
  }

  // ---- what that means, whoever answers ----

  /** Nothing is asked for past the policy or once the context has ended, the context is blamed only when it has
      ended, a failure worth repeating is final only when the attempts are used up, and an upload that succeeds
      leaves the blob held. */
  ghost predicate InPolicy(play: Played, x: Expected, g: Registry, stopped: nat -> bool, done: nat, left: nat) {
    && play.puts <= play.tries <= left
    && (forall k: nat :: done <= k < done + play.tries ==> Open(stopped, k))
    && (play.failed == Some(Interrupted) ==> play.tries < left && stopped(done + play.tries))
    && (play.failed.Some? && Transient(play.failed.value) ==> play.tries == left)
    && (play.failed.None? ==> x.digest in play.held)
    && (x.digest in g.held ==> play.puts == 0 && play.held == g.held)
  }

  /** The context has not ended before this attempt. */
  ghost predicate Open(stopped: nat -> bool, k: nat) {
    !stopped(k)
  }

  lemma InPolicyAfter(
    rest: Played, put: nat, x: Expected, g: Registry, after: Registry, stopped: nat -> bool, done: nat, left: nat)
    requires left > 1 && !stopped(done) && put <= 1 && InPolicy(rest, x, after, stopped, done + 1, left - 1)
    requires x.digest in g.held ==> put == 0 && after.held == g.held
    ensures InPolicy(rest.(tries := rest.tries + 1, puts := rest.puts + put), x, g, stopped, done, left)
  {
    forall k: nat | done <= k < done + rest.tries + 1 ensures Open(stopped, k) {
    }
  }

  lemma {:induction false} PlaysInPolicy(
    x: Expected, g: Registry, ranges: nat -> seq<Delivery>, stopped: nat -> bool, done: nat, left: nat)
    requires left > 0
    ensures InPolicy(Plays(x, g, ranges, stopped, done, left), x, g, stopped, done, left)
    decreases left
  {
    var t := Try(x, g, ranges(done));
    if !stopped(done) && t.failed.Some? && Transient(t.failed.value) && left > 1 {
      PlaysInPolicy(x, t.left, ranges, stopped, done + 1, left - 1);
      var rest := Plays(x, t.left, ranges, stopped, done + 1, left - 1);
      InPolicyAfter(rest, if t.put then 1 else 0, x, g, t.left, stopped, done, left);
    }
  }

  // ---- a registry that serves ----

  /** The request carries every declared byte, and they are the part's. */
  ghost predicate Carries(x: Expected, range: seq<Delivery>, limits: seq<nat>) {
    var sent := Send(x, Reader(range, [], 0), [], limits);
    |sent.bytes| == x.size && x.hash(sent.bytes) == x.digest
  }

  /** This put of this range stores the part. */
  ghost predicate Stores(x: Expected, range: seq<Delivery>, put: PutScript) {
    Carries(x, range, put.limits) && put.answer.Stored?
  }

  /** This one stores it, or the registry refuses or the answer is lost in a way worth repeating, or the request
      stopped short for a reason that is not the source's. */
  ghost predicate Bears(x: Expected, range: seq<Delivery>, put: PutScript) {
    var sent := Send(x, Reader(range, [], 0), [], put.limits);
    if |sent.bytes| != x.size then sent.end != SourceBroke && sent.end != SourceChanged
    else
      match put.answer
      case Stored => x.hash(sent.bytes) == x.digest
      case AnswerLost(transient) => transient && x.hash(sent.bytes) == x.digest
      case Refused(transient) => transient
  }

  /** Every attempt up to the last is borne, and the last one is answered and stored. */
  ghost predicate Healthy(x: Expected, g: Registry, ranges: nat -> seq<Delivery>, done: nat, k: nat) {
    && (forall j :: 0 <= j < k && j < |g.asks| ==> g.asks[j] != Some(false))
    && (k < |g.asks| ==> g.asks[k].None?)
    && k < |g.puts|
    && (forall p, j: nat :: 0 <= p < |g.puts| && done <= j < done + k ==> Bears(x, ranges(j), g.puts[p]))
    && (forall p :: 0 <= p < |g.puts| ==> Stores(x, ranges(done + k), g.puts[p]))
  }

  lemma HealthyAfter(x: Expected, g: Registry, ranges: nat -> seq<Delivery>, done: nat, k: nat)
    requires k > 0 && Healthy(x, g, ranges, done, k)
    ensures
      var t := Try(x, g, ranges(done));
      t.failed.None? || (Transient(t.failed.value) && Healthy(x, t.left, ranges, done + 1, k - 1))
  {
    assert Bears(x, ranges(done), g.puts[0]);
    var t := Try(x, g, ranges(done));
    if t.failed.Some? {
      var asks, puts := t.left.asks, t.left.puts;
      assert forall j :: 0 <= j < |asks| ==> asks[j] == g.asks[j + 1];
      var from := if t.put then 1 else 0;
      forall p, j: nat | 0 <= p < |puts| && done + 1 <= j < done + k ensures Bears(x, ranges(j), puts[p]) {
        assert Bears(x, ranges(j), g.puts[p + from]);
      }
      forall p | 0 <= p < |puts| ensures Stores(x, ranges(done + k), puts[p]) {
        assert Stores(x, ranges(done + k), g.puts[p + from]);
      }
    }
  }

  /** As long as one of the attempts within the policy would be answered and stored and those before it fail at
      most in ways worth repeating, the part ends up in the registry. */
  lemma {:induction false} HealthyIsPlaced(
    x: Expected, g: Registry, ranges: nat -> seq<Delivery>, stopped: nat -> bool, done: nat, left: nat, k: nat)
    requires k < left && Healthy(x, g, ranges, done, k) && forall j: nat :: done <= j <= done + k ==> Open(stopped, j)
    ensures
      var play := Plays(x, g, ranges, stopped, done, left);
      play.failed.None? && 1 <= play.tries <= k + 1 && play.held == g.held + {x.digest}
    decreases k
  {
    assert Open(stopped, done);
    assert x.digest in g.held ==> g.held + {x.digest} == g.held;
    var t := Try(x, g, ranges(done));
    if k == 0 {
      assert Stores(x, ranges(done + 0), g.puts[0]);
    } else {
      HealthyAfter(x, g, ranges, done, k);
      TryHolds(x, g, ranges(done));
      if t.failed.Some? {
        HealthyIsPlaced(x, t.left, ranges, stopped, done + 1, left - 1, k - 1);
      }
    }
  }

  lemma TryHolds(x: Expected, g: Registry, range: seq<Delivery>)
    ensures
      var t := Try(x, g, range);
      && t.left.held + {x.digest} == g.held + {x.digest}
      && (t.failed.None? ==> t.left.held == g.held + {x.digest})
  {
    assert x.digest in g.held ==> g.held + {x.digest} == g.held;
  }

  /** A part whose bytes landed and whose answer was lost is found by the next attempt, and not sent again. */
  lemma LostAnswerIsFound(
    x: Expected, g: Registry, ranges: nat -> seq<Delivery>, stopped: nat -> bool, done: nat, left: nat)
    requires left > 1 && !stopped(done) && !stopped(done + 1) && x.digest !in g.held
    requires forall j :: 0 <= j < 2 && j < |g.asks| ==> g.asks[j].None?
    requires g.puts != [] && g.puts[0].answer == AnswerLost(true) && Carries(x, ranges(done), g.puts[0].limits)
    ensures Plays(x, g, ranges, stopped, done, left) == Played(None, 2, 1, g.held + {x.digest})
  {
    LostTry(x, g, ranges(done));
    var after := Try(x, g, ranges(done)).left;
    FoundTry(x, after, ranges(done + 1));
    assert Plays(x, after, ranges, stopped, done + 1, left - 1) == Played(None, 1, 0, after.held);
  }

  lemma LostTry(x: Expected, g: Registry, range: seq<Delivery>)
    requires x.digest !in g.held && (g.asks != [] ==> g.asks[0].None?)
    requires g.puts != [] && g.puts[0].answer == AnswerLost(true) && Carries(x, range, g.puts[0].limits)
    ensures
      var t := Try(x, g, range);
      && t.failed == Some(PutFailed(true)) && t.put
      && t.left.held == g.held + {x.digest} && t.left.asks == g.asks[Least(1, |g.asks|)..]
  {
  }

  lemma FoundTry(x: Expected, g: Registry, range: seq<Delivery>)
    requires x.digest in g.held && (g.asks != [] ==> g.asks[0].None?)
    ensures
      var t := Try(x, g, range);
      t.failed.None? && !t.put && t.left.held == g.held
  {
  }

  /** What no further attempt can mend ends the upload at once. */
  ghost predicate Hopeless(x: Expected, g: Registry, range: seq<Delivery>) {
    if g.asks != [] && g.asks[0].Some? then !g.asks[0].value
    else
      && x.digest !in g.held
      && var put := NextPut(g.puts);
         var sent := Send(x, Reader(range, [], 0), [], put.limits);
         if |sent.bytes| != x.size then sent.end == SourceBroke || sent.end == SourceChanged
         else
           match put.answer
           case Stored => x.hash(sent.bytes) != x.digest
           case AnswerLost(transient) => !transient || x.hash(sent.bytes) != x.digest
           case Refused(transient) => !transient
  }

  lemma HopelessEndsIt(
    x: Expected, g: Registry, ranges: nat -> seq<Delivery>, stopped: nat -> bool, done: nat, left: nat)
    requires left > 1 && !stopped(done)
    ensures
      var play := Plays(x, g, ranges, stopped, done, left);
      Hopeless(x, g, ranges(done)) <==>
        play.failed.Some? && !Transient(play.failed.value) && play.failed != Some(Interrupted) && play.tries == 1
  {
    HopelessTry(x, g, ranges(done));
    var t := Try(x, g, ranges(done));
    TriesOnce(x, t.left, ranges, stopped, done + 1, left - 1);
  }

  lemma HopelessTry(x: Expected, g: Registry, range: seq<Delivery>)
    ensures
      var t := Try(x, g, range);
      Hopeless(x, g, range) <==> t.failed.Some? && !Transient(t.failed.value)
    ensures Try(x, g, range).failed != Some(Interrupted)
  {
  }

  lemma TriesOnce(
    x: Expected, g: Registry, ranges: nat -> seq<Delivery>, stopped: nat -> bool, done: nat, left: nat)
    requires left > 0
    ensures
      var play := Plays(x, g, ranges, stopped, done, left);
      if stopped(done) then play.failed == Some(Interrupted) else play.tries > 0
  {
  }
}
