/** One part's upload, as code (internal/transfer/push.go: upload, attempt), and move by move a worker of
    PushProtocol. How the workers interleave is that machine's. */
module PushUpload {
  import opened Base
  import opened SplitPlan
  import opened Streams
  import opened ClaimLedger
  import opened SourceReads
  import opened PushRuns
  import opened PushWork
  import opened UploadPlay
  import L = PushLedger
  import P = PushProtocol
  import Progress
  import PushSucceeds

  datatype Uploaded = LeftToOwner | AlreadyPlaced | Placed(sentOwn: bool, placed: nat) | Gave(up: UploadFailure)

  // ---- the code against the worker of PushProtocol ----

  /** The two guards that rest on what the ledger keeps. */
  lemma MayTake(c: P.Config, w: nat, s: P.State, t: P.State)
    requires c.Valid() && Led(c, Uploads(w), s, t) && t.ledger.Has(w) && t.ledger.workers[w].Holding?
    ensures t.ledger.Can(L.TakeClaim(w))
  {
    LedIsReachable(c, Uploads(w), s, t);
  }

  lemma MaySettle(c: P.Config, w: nat, s: P.State, t: P.State)
    requires c.Valid() && Led(c, Uploads(w), s, t) && t.ledger.Has(w) && t.ledger.workers[w].Placed?
    ensures t.ledger.Can(L.SettleClaim(w))
  {
    LedIsReachable(c, Uploads(w), s, t);
    assert L.ClaimOf(t.ledger, w);
  }

  /** Steps of worker w alone have led the push from where an upload began to where the worker is at f, with
      a part of this digest. */
  ghost predicate StandsAt(c: P.Config, w: nat, begun: P.State, now: P.State, f: L.Worker, d: Digest) {
    && c.Valid()
    && Led(c, Uploads(w), begun, now)
    && now.stage == P.Moving && |now.ledger.digests| <= c.plan.N()
    && now.ledger.Has(w) && now.ledger.workers[w] == f
    && (f.HasPart() || f.Crediting? ==> now.ledger.DigestAt(w) == d)
    && !now.report.closed
  }

  /** An upload may begin wherever the push can reach and a worker holds a part. */
  lemma UploadBegins(c: P.Config, w: nat, s: P.State)
    requires PushSucceeds.Reachable(c, s) && s.stage == P.Moving && w < |s.ledger.workers| && s.ledger.workers[w].Holding?
    ensures s.ledger.workers[w].part < |s.ledger.digests|
    ensures StandsAt(c, w, s, s, s.ledger.workers[w], s.ledger.digests[s.ledger.workers[w].part])
  {
    PushSucceeds.Here(c, s);
    PushSucceeds.LedgerPoint(c, s, s);
    PushSucceeds.Kept(c, s, s);
    LedNowhere(c, Uploads(w), s);
  }

  /** What a registry holds and every digest it was asked to put. */
  datatype Traffic = Traffic(held: set<Digest>, putLog: seq<Digest>)

  /** From a to b there were at most n puts, all of d and none if d was held; uploaded says whether any. */
  ghost predicate Counted(a: Traffic, b: Traffic, d: Digest, n: nat, uploaded: bool) {
    && |a.putLog| <= |b.putLog| <= |a.putLog| + n
    && (uploaded <==> |b.putLog| > |a.putLog|)
    && (d in a.held ==> b.putLog == a.putLog)
    && (b.held == a.held || b.held == a.held + {d})
  }

  lemma CountedOnce(a: Traffic, b: Traffic, t: Traffic, d: Digest, n: nat, had: bool, uploaded: bool)
    requires Counted(a, b, d, n, had)
    requires t.putLog == b.putLog || t.putLog == b.putLog + [d]
    requires uploaded <==> had || t.putLog != b.putLog
    requires d in b.held ==> t.putLog == b.putLog
    requires t.held == b.held || t.held == b.held + {d}
    ensures Counted(a, t, d, n + 1, uploaded)
  {
  }

  /** What an upload is accounted against: the part, what the source delivers, the context, what the registry had
      before, and the whole play. */
  datatype Errand = Errand(
    x: Expected, ranges: nat -> seq<Delivery>, stopped: nat -> bool, before: Traffic, whole: Played)

  /** After so many attempts, with left to go, the registry is this. */
  ghost predicate Going(e: Errand, tries: nat, left: nat, g: Registry, log: seq<Digest>, uploaded: bool) {
    && left > 0 && Counted(e.before, Traffic(g.held, log), e.x.digest, tries, uploaded)
    && var rest := Plays(e.x, g, e.ranges, e.stopped, tries, left);
       e.whole == Played(rest.failed, tries + rest.tries, |log| - |e.before.putLog| + rest.puts, rest.held)
  }

  /** It ended so, after so many attempts. */
  ghost predicate Over(e: Errand, tries: nat, g: Registry, log: seq<Digest>, uploaded: bool, r: Option<UploadFailure>) {
    && Counted(e.before, Traffic(g.held, log), e.x.digest, tries, uploaded)
    && e.whole == Played(r, tries, |log| - |e.before.putLog|, g.held)
  }

  /** One attempt was made of this registry, and this came of it. */
  ghost predicate Brought(
    e: Errand, tries: nat, g: Registry, log: seq<Digest>, had: bool,
    after: Registry, now: seq<Digest>, uploaded: bool, r: Option<UploadFailure>)
  {
    var t := Try(e.x, g, e.ranges(tries));
    && after == t.left && r == t.failed && (uploaded <==> had || t.put)
    && now == if t.put then log + [e.x.digest] else log
  }

  /** No attempt follows one that ended so, with left to go before it. */
  predicate Lasts(r: Option<UploadFailure>, left: nat) {
    r.None? || !Transient(r.value) || left == 1
  }

  lemma GoneOnce(
    e: Errand, tries: nat, left: nat, g: Registry, log: seq<Digest>, had: bool,
    after: Registry, now: seq<Digest>, uploaded: bool, r: Option<UploadFailure>)
    requires Going(e, tries, left, g, log, had) && !e.stopped(tries)
    requires Brought(e, tries, g, log, had, after, now, uploaded, r)
    ensures Lasts(r, left) ==> Over(e, tries + 1, after, now, uploaded, r)
    ensures !Lasts(r, left) ==> Going(e, tries + 1, left - 1, after, now, uploaded)
  {
    CountedOnce(e.before, Traffic(g.held, log), Traffic(after.held, now), e.x.digest, tries, had, uploaded);
  }

  /** Whatever the next attempt brings. */
  lemma GoesOnce(e: Errand, tries: nat, left: nat, g: Registry, log: seq<Digest>, had: bool)
    ensures Going(e, tries, left, g, log, had) && !e.stopped(tries) ==>
              forall after: Registry, now: seq<Digest>, uploaded: bool, r: Option<UploadFailure> ::
                Brought(e, tries, g, log, had, after, now, uploaded, r) ==>
                  if Lasts(r, left) then Over(e, tries + 1, after, now, uploaded, r)
                  else Going(e, tries + 1, left - 1, after, now, uploaded)
  {
    forall after: Registry, now: seq<Digest>, uploaded: bool, r: Option<UploadFailure>
      | && Going(e, tries, left, g, log, had) && !e.stopped(tries)
        && Brought(e, tries, g, log, had, after, now, uploaded, r)
      ensures if Lasts(r, left) then Over(e, tries + 1, after, now, uploaded, r)
              else Going(e, tries + 1, left - 1, after, now, uploaded)
    {
      GoneOnce(e, tries, left, g, log, had, after, now, uploaded, r);
    }
  }

  lemma Stops(e: Errand, tries: nat, left: nat, g: Registry, log: seq<Digest>, uploaded: bool)
    requires Going(e, tries, left, g, log, uploaded) && e.stopped(tries)
    ensures Over(e, tries, g, log, uploaded, Some(Interrupted))
  {
  }

  /** Every attempt but the first is a retry. */
  function Before(tries: int): int {
    if tries > 0 then tries - 1 else 0
  }

  class Uploader {
    const hash: Hash
    const attempts: nat
    const repo: Repo
    const claims: ClaimSet
    const report: Progress.Reporter
    ghost const config: P.Config
    ghost const worker: nat
    ghost var begun: P.State
    ghost var now: P.State
    ghost var noted: nat

    ghost predicate Stands(f: L.Worker, d: Digest)
      reads this
    {
      && config.hash == hash && StandsAt(config, worker, begun, now, f, d)
      && now.report.snap.retries == begun.report.snap.retries + noted
    }

    /** And the push's registry, claims and report are those the code has. */
    ghost predicate At(f: L.Worker, d: Digest)
      reads this, repo, claims, report
    {
      && Stands(f, d)
      && now.registry == repo.held && now.ledger.claims == claims.claims && now.report == report.State()
    }

    constructor (
      hash: Hash, attempts: nat, repo: Repo, claims: ClaimSet, report: Progress.Reporter,
      ghost config: P.Config, ghost worker: nat, ghost state: P.State)
      ensures this.hash == hash && this.attempts == attempts && this.repo == repo && this.claims == claims
      ensures this.report == report && this.config == config && this.worker == worker
      ensures begun == state && now == state && noted == 0
    {
      this.hash, this.attempts, this.repo, this.claims, this.report := hash, attempts, repo, claims, report;
      this.config, this.worker, this.begun, this.now, this.noted := config, worker, state, state, 0;
    }

    // Each of these ghost methods is one step of the machine, taken where the code has done its work.

    ghost method Step(step: P.Step)
      requires config.Valid() && Led(config, Uploads(worker), begun, now)
      requires StepOf(step, Uploads(worker)) && P.Enabled(config, now, step) && !now.report.closed
      modifies this`now
      ensures !now.report.closed
      ensures now.report.snap.retries == old(now).report.snap.retries + if step.RetryNoted? then 1 else 0
      ensures now == P.Apply(config, old(now), step) && Led(config, Uploads(worker), begun, now)
    {
      LedOn(config, Uploads(worker), begun, now, step);
      now := P.Apply(config, now, step);
    }

    ghost method DidTake(i: nat, d: Digest)
      requires Stands(L.Holding(i), d) && now.registry == repo.held && now.report == report.State()
      requires claims.claims == AfterTake(now.ledger.claims, d).claims
      modifies this`now
      ensures
        var taken := AfterTake(old(now.ledger.claims), d);
        && At(if taken.mustUpload then L.Asking(i, false) else if taken.credit > 0 then L.Skipping(i) else L.Ready, d)
        && (!taken.mustUpload && taken.credit == 0 ==> i < |now.ledger.where| && now.ledger.where[i] == L.Owed(d))
    {
      MayTake(config, worker, begun, now);
      Step(P.Work(L.TakeClaim(worker), false));
    }

    ghost method DidCreditSkip(i: nat, d: Digest)
      requires Stands(L.Skipping(i), d) && now.registry == repo.held && now.ledger.claims == claims.claims
      requires report.State() == now.report.Complete(i, config.plan.Size(i), true)
      modifies this`now
      ensures At(L.Ready, d) && i in now.ledger.credited && i in now.ledger.skipped
    {
      Step(P.Work(L.CreditSkip(worker), false));
    }

    ghost method DidFind(i: nat, d: Digest, uploaded: bool)
      requires At(L.Asking(i, uploaded), d) && d in repo.held
      modifies this`now
      ensures At(L.Placed(i, uploaded), d)
    {
      Step(P.Work(L.Found(worker), false));
    }

    ghost method DidStart(i: nat, d: Digest, uploaded: bool)
      requires At(L.Asking(i, uploaded), d)
      modifies this`now
      ensures At(L.Sending(i), d)
    {
      Step(P.Work(L.StartsPut(worker), false));
    }

    ghost method DidWire(i: nat, d: Digest, moved: seq<int>)
      requires Stands(L.Sending(i), d)
      modifies this`now
      ensures Stands(L.Sending(i), d) && now == old(now).(report := Wired(old(now).report, moved))
      decreases |moved|
    {
      if moved != [] {
        Step(P.WireBytes(moved[0]));
        DidWire(i, d, moved[1..]);
      }
    }

    ghost method DidEnd(i: nat, d: Digest, ok: bool)
      requires Stands(L.Sending(i), d) && now.ledger.claims == claims.claims && now.report == report.State()
      requires repo.held == now.registry || repo.held == now.registry + {d}
      requires ok ==> d in repo.held
      modifies this`now
      ensures At(if ok then L.Placed(i, true) else L.Asking(i, true), d)
    {
      Step(P.Work(L.EndsPut(worker, ok), d in repo.held));
    }

    ghost method DidRetry(i: nat, d: Digest, uploaded: bool)
      requires Stands(L.Asking(i, uploaded), d) && now.registry == repo.held && now.ledger.claims == claims.claims
      requires report.State() == now.report.Retried()
      modifies this`now, this`noted
      ensures At(L.Asking(i, uploaded), d) && noted == old(noted) + 1
    {
      Step(P.RetryNoted);
      noted := noted + 1;
    }

    ghost method DidAbandon(i: nat, d: Digest, uploaded: bool)
      requires At(L.Asking(i, uploaded), d)
      modifies this`now
      ensures At(L.Failed, d)
    {
      Step(P.Work(L.Abandon(worker), false));
    }

    ghost method DidSettle(i: nat, d: Digest, uploaded: bool, placed: nat)
      requires Stands(L.Placed(i, uploaded), d) && now.registry == repo.held && now.report == report.State()
      requires SettledClaim(claims.claims, placed) == AfterSettle(now.ledger.claims, d)
      modifies this`now
      ensures At(L.Settled(i, uploaded, placed), d)
    {
      MaySettle(config, worker, begun, now);
      Step(P.Work(L.SettleClaim(worker), false));
    }

    ghost method DidCreditPart(i: nat, d: Digest, uploaded: bool, placed: nat)
      requires Stands(L.Settled(i, uploaded, placed), d) && now.registry == repo.held && now.ledger.claims == claims.claims
      requires report.State() == now.report.Complete(i, config.plan.Size(i), !uploaded)
      modifies this`now
      ensures At(L.Crediting(i, placed), d) && i in now.ledger.credited
    {
      Step(P.Work(L.CreditPart(worker), false));
    }

    ghost method DidCreditRest(i: nat, d: Digest, placed: nat)
      requires Stands(L.Crediting(i, placed), d) && now.registry == repo.held && now.ledger.claims == claims.claims
      requires report.State() == now.report.CompleteTwins(placed - 1, config.plan.Size(i))
      requires i in now.ledger.credited
      modifies this`now
      ensures At(L.Ready, d) && i in now.ledger.credited
    {
      Step(P.Work(L.CreditRest(worker), false));
    }

    // The reporter's calls.

    method Retry(i: nat, d: Digest, ghost uploaded: bool)
      requires At(L.Asking(i, uploaded), d)
      modifies report, this`now, this`noted
      ensures At(L.Asking(i, uploaded), d) && noted == old(noted) + 1
    {
      report.Retried();
      DidRetry(i, d, uploaded);
    }

    method CreditSkip(i: nat, d: Digest, size: nat)
      requires At(L.Skipping(i), d) && size == config.plan.Size(i)
      modifies report, this`now
      ensures At(L.Ready, d) && i in now.ledger.credited && i in now.ledger.skipped
    {
      report.Complete(i, size, true);
      DidCreditSkip(i, d);
    }

    method CreditOwn(i: nat, d: Digest, size: nat, uploaded: bool, ghost placed: nat)
      requires At(L.Settled(i, uploaded, placed), d) && size == config.plan.Size(i)
      modifies report, this`now
      ensures At(L.Crediting(i, placed), d) && i in now.ledger.credited
    {
      report.Complete(i, size, !uploaded);
      DidCreditPart(i, d, uploaded, placed);
    }

    method CreditTwins(i: nat, d: Digest, size: nat, placed: nat)
      requires At(L.Crediting(i, placed), d) && size == config.plan.Size(i) && i in now.ledger.credited
      modifies report, this`now
      ensures At(L.Ready, d) && i in now.ledger.credited
    {
      report.CompleteTwins(placed - 1, size);
      DidCreditRest(i, d, placed);
    }

    /** Put the part: its bytes count as moved even when the put fails. range is what the source delivers
        now. */
    method Send(d: Digest, i: nat, size: nat, range: seq<Delivery>) returns (r: Option<UploadFailure>)
      requires At(L.Sending(i), d)
      modifies repo, report, this`now
      ensures At(if r.None? then L.Placed(i, true) else L.Asking(i, true), d)
      ensures r.None? ==> d in repo.held
      ensures repo.held == old(repo.held) || repo.held == old(repo.held) + {d}
      ensures repo.held != old(repo.held) ==> exists sent: Bytes ::
                |sent| == size && hash(sent) == d && sent <= Total(range).bytes
      ensures repo.putLog == old(repo.putLog) + [d] && repo.asks == old(repo.asks)
      ensures
        var x, put := Expected(hash, d, size), NextPut(old(repo.puts));
        var end := EndOfPut(x, SourceReads.Send(x, Reader(range, [], 0), [], put.limits), put.answer);
        && r == Failing(end.failed) && repo.puts == old(repo.puts)[Least(1, |old(repo.puts)|)..]
        && repo.held == if end.stored then old(repo.held) + {d} else old(repo.held)
    {
      var section := new Body(range);
      var content := new TagSourceReads(Expected(hash, d, size), section);
      var failed := repo.Put(content, report);
      ghost var moved :| report.State() == Wired(now.report, moved);
      DidWire(i, d, moved);
      DidEnd(i, d, failed.None?);
      match failed
      case None => r := None;
      case Some(FromSource) => r := Some(SourceFailed);
      case Some(FromPort(tagged)) => r := Some(PutFailed(tagged));
    }

    ghost function Meets(): Registry
      reads repo
    {
      Registry(repo.held, repo.asks, repo.puts)
    }

    /** Ask, and put when the registry does not hold the blob. */
    method Attempt(d: Digest, i: nat, size: nat, range: seq<Delivery>, had: bool)
      returns (uploaded: bool, r: Option<UploadFailure>)
      requires At(L.Asking(i, had), d)
      modifies repo, report, this`now
      ensures At(if r.None? then L.Placed(i, uploaded) else L.Asking(i, uploaded), d)
      ensures r.None? ==> d in repo.held
      ensures repo.held == old(repo.held) || repo.held == old(repo.held) + {d}
      ensures repo.held != old(repo.held) ==> exists sent: Bytes ::
                |sent| == size && hash(sent) == d && sent <= Total(range).bytes
      ensures repo.putLog == old(repo.putLog) || repo.putLog == old(repo.putLog) + [d]
      ensures uploaded <==> had || repo.putLog != old(repo.putLog)
      ensures d in old(repo.held) ==> repo.putLog == old(repo.putLog)
      ensures
        var t := Try(Expected(hash, d, size), old(Meets()), range);
        && r == t.failed && Meets() == t.left && (uploaded <==> had || t.put)
        && repo.putLog == if t.put then old(repo.putLog) + [d] else old(repo.putLog)
    {
      uploaded := had;
      var exists' := repo.Exists(d);
      if exists'.Err? {
        return uploaded, Some(AskFailed(exists'.error));
      }
      if exists'.value {
        DidFind(i, d, had);
        return uploaded, None;
      }
      DidStart(i, d, had);
      uploaded := true;
      r := Send(d, i, size, range);
    }

    /** The worker stands between the attempts of an errand. */
    ghost predicate OnErrand(e: Errand, i: nat, tries: nat, uploaded: bool)
      reads this, repo, claims, report
    {
      && tries < attempts && e.x.hash == hash && At(L.Asking(i, uploaded), e.x.digest)
      && Going(e, tries, attempts - tries, Meets(), repo.putLog, uploaded)
    }

    /** No attempt follows. */
    ghost predicate Returned(e: Errand, i: nat, tries: nat, uploaded: bool, r: Option<UploadFailure>)
      reads this, repo, claims, report
    {
      && tries <= attempts && At(if r.None? then L.Placed(i, uploaded) else L.Asking(i, uploaded), e.x.digest)
      && Over(e, tries, Meets(), repo.putLog, uploaded, r)
    }

    /** Every attempt but the first is counted. */
    method CountTry(d: Digest, i: nat, tries: nat, uploaded: bool, ghost e: Errand)
      requires OnErrand(e, i, tries, uploaded) && d == e.x.digest
      modifies report, this`now, this`noted
      ensures OnErrand(e, i, tries, uploaded) && noted == old(noted) + if tries > 0 then 1 else 0
    {
      if tries > 0 {
        Retry(i, d, uploaded);
      }
    }

    /** One attempt, on an errand. */
    method AttemptFor(d: Digest, i: nat, size: nat, range: seq<Delivery>, ghost tries: nat, had: bool, ghost e: Errand)
      returns (uploaded: bool, r: Option<UploadFailure>)
      requires At(L.Asking(i, had), d) && e.x == Expected(hash, d, size) && range == e.ranges(tries)
      modifies repo, report, this`now
      ensures At(if r.None? then L.Placed(i, uploaded) else L.Asking(i, uploaded), d)
      ensures Brought(e, tries, old(Meets()), old(repo.putLog), had, Meets(), repo.putLog, uploaded, r)
    {
      uploaded, r := Attempt(d, i, size, range, had);
    }

    /** One attempt, and what the policy makes of it. */
    method Turn(d: Digest, i: nat, size: nat, range: seq<Delivery>, tries: nat, had: bool, ghost e: Errand)
      returns (uploaded: bool, r: Option<UploadFailure>, last: bool)
      requires OnErrand(e, i, tries, had) && !e.stopped(tries) && range == e.ranges(tries)
      requires Going(e, tries, attempts - tries, Meets(), repo.putLog, had)
      requires e.x == Expected(hash, d, size)
      modifies repo, report, this`now
      ensures last ==> Returned(e, i, tries + 1, uploaded, r)
      ensures !last ==> OnErrand(e, i, tries + 1, uploaded)
    {
      GoesOnce(e, tries, attempts - tries, Meets(), repo.putLog, had);
      uploaded, r := AttemptFor(d, i, size, range, tries, had, e);
      last := Lasts(r, attempts - tries);
    }

    method CountedTurn(d: Digest, i: nat, size: nat, range: seq<Delivery>, tries: nat, had: bool, ghost e: Errand)
      returns (uploaded: bool, r: Option<UploadFailure>, last: bool)
      requires OnErrand(e, i, tries, had) && !e.stopped(tries) && range == e.ranges(tries)
      requires e.x == Expected(hash, d, size)
      modifies repo, report, this`now, this`noted
      ensures if last then Returned(e, i, tries + 1, uploaded, r) else OnErrand(e, i, tries + 1, uploaded)
      ensures noted == old(noted) + Before(tries + 1) - Before(tries)
    {
      CountTry(d, i, tries, had, e);
      uploaded, r, last := Turn(d, i, size, range, tries, had, e);
    }

    /** Attempt, at most as often as the policy says. ranges is what the source delivers to each attempt,
        stopped says before which the context has ended. */
    method Attempted(d: Digest, i: nat, size: nat, ranges: nat -> seq<Delivery>, stopped: nat -> bool)
      returns (uploaded: bool, r: Option<UploadFailure>)
      requires attempts > 0 && At(L.Asking(i, false), d)
      modifies repo, report, this`now, this`noted
      ensures At(if r.None? then L.Placed(i, uploaded) else L.Asking(i, uploaded), d)
      ensures r.None? ==> d in repo.held
      ensures Counted(old(Traffic(repo.held, repo.putLog)), Traffic(repo.held, repo.putLog), d, attempts, uploaded)
      ensures
        var play := Plays(Expected(hash, d, size), old(Meets()), ranges, stopped, 0, attempts);
        && r == play.failed && repo.held == play.held && |repo.putLog| == |old(repo.putLog)| + play.puts
        && noted == old(noted) + Before(play.tries)
    {
      ghost var x := Expected(hash, d, size);
      ghost var e := Errand(
        x, ranges, stopped, Traffic(repo.held, repo.putLog), Plays(x, Meets(), ranges, stopped, 0, attempts));
      PlaysInPolicy(x, Meets(), ranges, stopped, 0, attempts);
      assert Going(e, 0, attempts, Meets(), repo.putLog, false);
      var tries;
      uploaded, r, tries := RunErrand(d, i, size, ranges, stopped, e);
    }

    /** The attempts, one after another. */
    method RunErrand(
      d: Digest, i: nat, size: nat, ranges: nat -> seq<Delivery>, stopped: nat -> bool, ghost e: Errand)
      returns (uploaded: bool, r: Option<UploadFailure>, tries: nat)
      requires OnErrand(e, i, 0, false) && e.x == Expected(hash, d, size) && e.ranges == ranges && e.stopped == stopped
      modifies repo, report, this`now, this`noted
      ensures Returned(e, i, tries, uploaded, r) && noted == old(noted) + Before(tries)
    {
      var last := false;
      uploaded, r, tries := false, None, 0;
      while !last && !stopped(tries)
        invariant if last then Returned(e, i, tries, uploaded, r) else OnErrand(e, i, tries, uploaded)
        invariant noted == old(noted) + Before(tries)
        decreases attempts - tries, if last then 0 else 1
      {
        uploaded, r, last := CountedTurn(d, i, size, ranges(tries), tries, uploaded, e);
        tries := tries + 1;
      }
      if !last {
        Stops(e, tries, attempts - tries, Meets(), repo.putLog, uploaded);
        r := Some(Interrupted);
      }
    }

    /** Settle the claim and credit what it put in place: the worker's own part and every twin. */
    method Settle(d: Digest, i: nat, size: nat, uploaded: bool) returns (placed: nat)
      requires At(L.Placed(i, uploaded), d) && size == config.plan.Size(i)
      modifies claims, report, this`now
      ensures At(L.Ready, d) && i in now.ledger.credited
      ensures SettledClaim(claims.claims, placed) == AfterSettle(old(claims.claims), d)
    {
      placed := claims.Settle(d);
      DidSettle(i, d, uploaded, placed);
      CreditOwn(i, d, size, uploaded, placed);
      CreditTwins(i, d, size, placed);
    }

    /** Claim the digest, and when it is this worker's to upload, try until it is in place. */
    method Upload(d: Digest, i: nat, size: nat, ranges: nat -> seq<Delivery>, stopped: nat -> bool) returns (u: Uploaded)
      requires attempts > 0 && At(L.Holding(i), d) && size == config.plan.Size(i)
      modifies repo, claims, report, this`now, this`noted
      ensures At(if u.Gave? then L.Failed else L.Ready, d)
      ensures u.AlreadyPlaced? || u.Placed? ==> i in now.ledger.credited
      ensures u.LeftToOwner? ==> i < |now.ledger.where| && now.ledger.where[i] == L.Owed(d)
      ensures
        var taken := AfterTake(old(claims.claims), d);
        if !taken.mustUpload then
          && u == (if taken.credit > 0 then AlreadyPlaced else LeftToOwner)
          && claims.claims == taken.claims && repo.held == old(repo.held) && repo.putLog == old(repo.putLog)
        else if u.Placed? then
          && SettledClaim(claims.claims, u.placed) == AfterSettle(taken.claims, d) && d in repo.held
        else u.Gave? && claims.claims == taken.claims
      ensures
        AfterTake(old(claims.claims), d).mustUpload ==>
          var play := Plays(Expected(hash, d, size), old(Meets()), ranges, stopped, 0, attempts);
          && (if play.failed.Some? then u == Gave(play.failed.value) else u.Placed?)
          && repo.held == play.held && |repo.putLog| == |old(repo.putLog)| + play.puts
          && report.State().snap.retries == old(report.State()).snap.retries + Before(play.tries)
      ensures u.Placed? ==> (u.sentOwn <==> |repo.putLog| > |old(repo.putLog)|)
      ensures |old(repo.putLog)| <= |repo.putLog| <= |old(repo.putLog)| + attempts
      ensures d in old(repo.held) ==> repo.putLog == old(repo.putLog)
      ensures repo.held == old(repo.held) || repo.held == old(repo.held) + {d}
    {
      var mustUpload, credit := claims.Take(d);
      DidTake(i, d);
      if !mustUpload {
        if credit == 0 {
          return LeftToOwner;
        }
        CreditSkip(i, d, size);
        return AlreadyPlaced;
      }
      u := UploadOwn(d, i, size, ranges, stopped);
    }

    /** The claim is this worker's. */
    method UploadOwn(d: Digest, i: nat, size: nat, ranges: nat -> seq<Delivery>, stopped: nat -> bool)
      returns (u: Uploaded)
      requires attempts > 0 && At(L.Asking(i, false), d) && size == config.plan.Size(i)
      modifies repo, claims, report, this`now, this`noted
      ensures At(if u.Gave? then L.Failed else L.Ready, d)
      ensures u.Gave? || (u.Placed? && i in now.ledger.credited && d in repo.held)
      ensures if u.Placed? then SettledClaim(claims.claims, u.placed) == AfterSettle(old(claims.claims), d)
              else claims.claims == old(claims.claims)
      ensures Counted(
                old(Traffic(repo.held, repo.putLog)), Traffic(repo.held, repo.putLog), d, attempts,
                |repo.putLog| > |old(repo.putLog)|)
      ensures u.Placed? ==> (u.sentOwn <==> |repo.putLog| > |old(repo.putLog)|)
      ensures
        var play := Plays(Expected(hash, d, size), old(Meets()), ranges, stopped, 0, attempts);
        && (if play.failed.Some? then u == Gave(play.failed.value) else u.Placed?)
        && repo.held == play.held && |repo.putLog| == |old(repo.putLog)| + play.puts
        && noted == old(noted) + Before(play.tries)
    {
      var uploaded, failed := Attempted(d, i, size, ranges, stopped);
      if failed.Some? {
        DidAbandon(i, d, uploaded);
        return Gave(failed.value);
      }
      var placed := Settle(d, i, size, uploaded);
      return Placed(uploaded, placed);
    }
  }
}
