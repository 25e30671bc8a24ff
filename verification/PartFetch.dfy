/** One part of a pull, as code (internal/transfer/pull.go: fetch, verify, attempt, stream), against a
    blob port, bodies and a disk that answer in any way at all. What they answer is data handed to the
    run, so every behaviour is covered. A ghost state follows the code and shows that whatever it does
    and records is what one worker of PullReport may, so what is proved of every interleaving of such
    workers holds of this code. */
module PartFetch {
  import opened Base
  import opened SplitPlan
  import opened Streams
  import opened PartPlay
  import opened PullRuns
  import opened PullSession
  import Progress
  import R = PullReport
  import Safety = PullSafety

  /** A disk that takes every byte of every write. */
  ghost predicate Willing(refusals: seq<Option<nat>>) {
    forall k :: 0 <= k < |refusals| ==> refusals[k].None?
  }

  /** A disk that can be read. */
  ghost predicate Readable(deliveries: seq<Option<nat>>) {
    forall k :: 0 <= k < |deliveries| ==> deliveries[k].Some?
  }

  /** How copying the rest of a part ends when the disk takes every byte. */
  ghost predicate Ends(remaining: nat, d: Delivery, copied: nat, r: Option<Failure>) {
    && d.end != More
    && copied == Least(remaining, |d.bytes|)
    && (r.None? <==> |d.bytes| == remaining && d.end == Eof)
    && (r == Some(TooLong) <==> |d.bytes| > remaining)
    && (r == Some(EndedEarly) <==> |d.bytes| < remaining && d.end == Eof)
    && (|d.bytes| <= remaining && d.end.Broken? ==>
          r == Some(ReadBroken(d.end.transient)) || (r == Some(TailUnread(d.end.transient)) && |d.bytes| == remaining))
  }

  /** asked records the offset of every request. */
  class Port {
    var sources: seq<Source>
    var asked: seq<nat>

    method Get(from: nat) returns (a: Answer)
      requires from <= MAX_INT64
      modifies this
      ensures asked == old(asked) + [from]
      ensures if old(sources) == [] then a == NoStream(false) && sources == []
              else a == AnswerTo(old(sources)[0], from) && sources == old(sources)[1..]
    {
      asked := asked + [from];
      if sources == [] {
        return NoStream(false);
      }
      a := AnswerTo(sources[0], from);
      sources := sources[1..];
    }
  }

  /** The partial file. refusals says which writes the disk refuses and after how many bytes; deliveries
      says how many bytes each bounded read delivers, or that it fails. */
  class PartialFile {
    var file: Bytes
    var refusals: seq<Option<nat>>
    var deliveries: seq<Option<nat>>

    method WriteAt(job: Job, i: nat, at: nat, bytes: Bytes) returns (ok: bool)
      requires job.Valid() && i < job.plan.N() && |file| == job.plan.fileSize as int && at + |bytes| <= job.plan.Size(i)
      modifies this
      ensures Willing(old(refusals)) ==> ok && Willing(refusals)
      ensures exists n: nat :: n <= |bytes| && file == Put(job, old(file), i, at, bytes[..n]) && (ok ==> n == |bytes|)
    {
      var n := |bytes|;
      ok := true;
      if refusals != [] {
        if refusals[0].Some? {
          n := Least(refusals[0].value, |bytes|);
          ok := false;
        }
        refusals := refusals[1..];
      }
      assert bytes[..|bytes|] == bytes;
      LoHi(job.plan, i);
      var start := job.plan.PartAt(i as int64).offset as int + at;
      file := file[..start] + bytes[..n] + file[start + n..];
    }

    method ReadSection(job: Job, i: nat, at: nat, limit: nat) returns (bytes: Option<Bytes>)
      requires job.Valid() && i < job.plan.N() && |file| == job.plan.fileSize as int && at + limit <= job.plan.Size(i)
      modifies this`deliveries
      ensures |deliveries| < |old(deliveries)| || (deliveries == [] && bytes.Some? && |bytes.value| == limit)
      ensures Readable(old(deliveries)) ==> bytes.Some? && Readable(deliveries)
      ensures bytes.Some? ==> |bytes.value| <= limit && bytes.value == ReadAt(job, file, i, at, |bytes.value|)
    {
      var n := limit;
      if deliveries != [] {
        var r := deliveries[0];
        deliveries := deliveries[1..];
        if r.None? {
          return None;
        }
        n := Least(r.value, limit);
      }
      LoHi(job.plan, i);
      var start := job.plan.PartAt(i as int64).offset as int + at;
      bytes := Some(file[start..start + n]);
    }
  }

  /** Only a body and a disk have had their say. */
  ghost predicate OfTheCopy(r: Option<Failure>) {
    r.Some? ==> !r.value.UnusableOffset? && !r.value.Mismatch? && !r.value.ResumeUnread? && !r.value.Stopped?
  }

  /** A failure, the count and the hasher are what such a reply leaves. */
  ghost predicate Shows(reply: Reply, done: nat, r: Option<Failure>, hasher: Bytes) {
    match reply
    case Fetched => r.None?
    case Short(why, held) =>
      r.Some? && Alike(why, r.value) && (Transient(why) ==> done == |held| && (0 < done ==> hasher == held))
  }

  /** After a copy that the disk took and before the digest is checked. */
  ghost predicate Landed(
    hash: Hash, size: nat, digest: Digest, held: Bytes, d: Delivery, done: nat, r: Option<Failure>, hasher: Bytes)
  {
    Shows(BodyReply(hash, size, digest, held, d), done, Checked(r, hash(hasher) == digest), hasher)
  }

  function Checked(r: Option<Failure>, matched: bool): Option<Failure> {
    if r.None? && !matched then Some(Mismatch) else r
  }

  lemma EndsLanded(
    hash: Hash, size: nat, digest: Digest, held: Bytes, d: Delivery, done: nat, r: Option<Failure>, hasher: Bytes)
    requires |held| <= done && |held| <= size && Ends(size - |held|, d, done - |held|, r)
    requires hasher == held + d.bytes[..done - |held|]
    ensures Landed(hash, size, digest, held, d, done, r, hasher)
  {
    if |d.bytes| <= size - |held| {
      assert d.bytes[..done - |held|] == d.bytes;
    }
  }

  /** The hasher, the range and the count agree to the byte, or there is nothing to continue. */
  ghost predicate InStep(job: Job, file: Bytes, i: nat, hasher: Bytes, done: nat)
    requires job.Valid() && i < job.plan.N() && |file| == job.plan.fileSize as int
  {
    done <= job.plan.Size(i) && (0 < done ==> hasher == job.Head(file, i, done))
  }

  /** What the hasher says is held. */
  function Had(done: nat, hasher: Bytes): Bytes {
    if done == 0 then [] else hasher
  }

  /** Of a body that delivers all, got has been copied onto the held bytes, and left is to come. */
  ghost predicate Copied(held: Bytes, all: Delivery, got: Bytes, end: End, left: seq<Delivery>, n: nat, hasher: Bytes) {
    all == Onto(got, Rest(end, left)) && |got| == n && hasher == held + got
  }

  lemma CopiedOn(
    held: Bytes, all: Delivery, got: Bytes, left: seq<Delivery>, n: nat,
    bytes: Bytes, end: End, after: seq<Delivery>)
    requires Copied(held, all, got, More, left, n, held + got)
    requires Total(left) == Onto(bytes, Rest(end, after))
    ensures Copied(held, all, got + bytes, end, after, n + |bytes|, held + got + bytes)
  {
    OntoOnto(got, bytes, Rest(end, after));
    assert held + (got + bytes) == held + got + bytes;
  }

  /** Every answer is the real adapter's. */
  ghost predicate Adapters(sources: seq<Source>) {
    forall k :: 0 <= k < |sources| ==> sources[k].Adapter?
  }

  /** The adapter starts where it was asked to or at the beginning. */
  lemma AdaptersRest(sources: seq<Source>, from: nat)
    requires from <= MAX_INT64
    ensures Adapters(sources) ==> Adapters(sources[Least(1, |sources|)..])
    ensures
      Adapters(sources) && sources != [] ==>
        var a := AnswerTo(sources[0], from);
        !a.Stream? || a.start == 0 || a.start == from
  {
  }

  /** What the next answer makes of the part. */
  lemma Answered(
    hash: Hash, size: nat, digest: Digest, held: Bytes, sources: seq<Source>, from: nat, a: Answer)
    requires |held| <= size <= MAX_INT64 && from == AskFrom(size, |held|)
    requires a == if sources == [] then NoStream(false) else AnswerTo(sources[0], from)
    ensures Adapters(sources) && a.Stream? ==> a.start == 0 || a.start == from
    ensures
      var reply := NextReply(hash, size, digest, held, sources);
      match a
      case NoStream(transient) =>
        reply.Short? && reply.why == FetchFailed(transient) && (transient ==> reply.held == if from == 0 then [] else held)
      case Stream(start, body) => reply == StreamReply(hash, size, digest, held, from, start, Total(body))
  {
    AdaptersRest(sources, from);
  }

  /** So many offsets have been asked for since, the first one zero and none past the part's end. */
  ghost predicate AsksFor(before: seq<nat>, after: seq<nat>, n: nat, size: nat) {
    && |after| == |before| + n
    && (forall k :: |before| <= k < |after| ==> after[k] <= size)
    && (n > 0 ==> after[|before|] == 0)
  }

  lemma AsksOnceMore(before: seq<nat>, after: seq<nat>, n: nat, size: nat, from: nat)
    requires AsksFor(before, after, n, size) && from <= size && (n == 0 ==> from == 0)
    ensures AsksFor(before, after + [from], n + 1, size)
  {
  }

  /** A fetch ended so and asked so. */
  ghost predicate Follows(play: Played, before: seq<nat>, after: seq<nat>, r: Option<Failure>) {
    && after == before + play.asked
    && if play.failed.None? then r.None? else r.Some? && Alike(play.failed.value, r.value)
  }

  /** Of the whole play, this is still to come. */
  ghost predicate Onward(whole: Played, before: seq<nat>, after: seq<nat>, rest: Played) {
    whole.failed == rest.failed && before + whole.asked == after + rest.asked
  }

  lemma OnwardOnce(whole: Played, before: seq<nat>, after: seq<nat>, from: nat, play: Played, rest: Played)
    requires Onward(whole, before, after, play) && play == Played(rest.failed, [from] + rest.asked)
    ensures Onward(whole, before, after + [from], rest)
  {
    assert after + ([from] + rest.asked) == after + [from] + rest.asked;
  }

  /** Every attempt but the first is a retry. */
  function Before(tries: int): int {
    if tries > 0 then tries - 1 else 0
  }

  /** What a fetch is accounted against: the part, the context, the offsets asked for before, and the whole play.
      willing says that the disk takes every write, adapters that every answer is the real adapter's. */
  datatype Errand = Errand(
    hash: Hash, size: nat, digest: Digest, stopped: nat -> bool, before: seq<nat>, whole: Played, willing: bool, adapters: bool)

  /** After so many attempts, with left to go, this has been asked for, these answers are left and this is held. */
  ghost predicate Going(e: Errand, tries: nat, left: nat, asked: seq<nat>, sources: seq<Source>, held: Bytes) {
    && |held| <= e.size <= MAX_INT64 && left > 0 && (tries == 0 ==> held == [])
    && AsksFor(e.before, asked, tries, e.size)
    && (e.adapters ==> Adapters(sources))
    && (e.willing ==> Onward(e.whole, e.before, asked, Plays(e.hash, e.size, e.digest, held, sources, e.stopped, tries, left)))
  }

  /** It ended so, after so many attempts. */
  ghost predicate Over(e: Errand, tries: nat, asked: seq<nat>, r: Option<Failure>) {
    && AsksFor(e.before, asked, tries, e.size)
    && (e.adapters ==> r != Some(UnusableOffset))
    && r != Some(ResumeUnread)
    && (e.willing ==> Follows(e.whole, e.before, asked, r))
  }

  /** No attempt follows one that ended so, with left to go before it. */
  predicate Lasts(r: Option<Failure>, left: nat) {
    r.None? || !Transient(r.value) || left == 1
  }

  /** One request was made of what was held, and this came of it. */
  ghost predicate Brought(
    e: Errand, asked: seq<nat>, sources: seq<Source>, held: Bytes,
    done: nat, r: Option<Failure>, hasher: Bytes, now: seq<nat>, rest: seq<Source>)
  {
    && |held| <= e.size <= MAX_INT64
    && now == asked + [AskFrom(e.size, |held|)] && rest == sources[Least(1, |sources|)..]
    && (e.willing ==> Shows(NextReply(e.hash, e.size, e.digest, held, sources), done, r, hasher))
    && (e.adapters && Adapters(sources) ==> r != Some(UnusableOffset))
    && r != Some(ResumeUnread)
    && (r.Some? && Transient(r.value) ==> |Had(done, hasher)| <= e.size)
  }

  /** One request, and what it showed. */
  lemma GoneOnce(
    e: Errand, tries: nat, left: nat, asked: seq<nat>, sources: seq<Source>, held: Bytes,
    done: nat, r: Option<Failure>, hasher: Bytes, now: seq<nat>, rest: seq<Source>)
    requires Going(e, tries, left, asked, sources, held) && !e.stopped(tries)
    requires Brought(e, asked, sources, held, done, r, hasher, now, rest)
    ensures Lasts(r, left) ==> Over(e, tries + 1, now, r)
    ensures !Lasts(r, left) ==> Going(e, tries + 1, left - 1, now, rest, Had(done, hasher))
  {
    AsksOnceMore(e.before, asked, tries, e.size, AskFrom(e.size, |held|));
    AdaptersRest(sources, 0);
    if e.willing {
      PlayedOnce(e, tries, left, asked, sources, held, done, r, hasher);
    }
  }

  /** Whatever the next request brings. */
  lemma GoesOnce(e: Errand, tries: nat, left: nat, asked: seq<nat>, sources: seq<Source>, held: Bytes)
    ensures Going(e, tries, left, asked, sources, held) && !e.stopped(tries) ==>
              forall done: nat, r: Option<Failure>, hasher: Bytes, now: seq<nat>, rest: seq<Source> ::
                Brought(e, asked, sources, held, done, r, hasher, now, rest) ==>
                  if Lasts(r, left) then Over(e, tries + 1, now, r)
                  else Going(e, tries + 1, left - 1, now, rest, Had(done, hasher))
  {
    forall done: nat, r: Option<Failure>, hasher: Bytes, now: seq<nat>, rest: seq<Source>
      | && Going(e, tries, left, asked, sources, held) && !e.stopped(tries)
        && Brought(e, asked, sources, held, done, r, hasher, now, rest)
      ensures if Lasts(r, left) then Over(e, tries + 1, now, r)
              else Going(e, tries + 1, left - 1, now, rest, Had(done, hasher))
    {
      GoneOnce(e, tries, left, asked, sources, held, done, r, hasher, now, rest);
    }
  }

  lemma StopsGoing(e: Errand, tries: nat, left: nat, asked: seq<nat>, sources: seq<Source>, held: Bytes)
    requires Going(e, tries, left, asked, sources, held) && e.stopped(tries)
    ensures Over(e, tries, asked, Some(Stopped))
  {
    assert asked + [] == asked;
  }

  /** Nothing has been asked for yet. */
  lemma Sets(e: Errand, left: nat, sources: seq<Source>)
    requires e.size <= MAX_INT64 && left > 0 && (e.adapters ==> Adapters(sources))
    requires e.whole == Plays(e.hash, e.size, e.digest, [], sources, e.stopped, 0, left)
    ensures Going(e, 0, left, e.before, sources, [])
  {
  }

  lemma PlayedOnce(
    e: Errand, tries: nat, left: nat, asked: seq<nat>, sources: seq<Source>, held: Bytes,
    done: nat, r: Option<Failure>, hasher: Bytes)
    requires |held| <= e.size <= MAX_INT64 && left > 0 && !e.stopped(tries)
    requires Onward(e.whole, e.before, asked, Plays(e.hash, e.size, e.digest, held, sources, e.stopped, tries, left))
    requires Shows(NextReply(e.hash, e.size, e.digest, held, sources), done, r, hasher)
    ensures
      var now := asked + [AskFrom(e.size, |held|)];
      if r.None? || !Transient(r.value) || left == 1 then Follows(e.whole, e.before, now, r)
      else
        && |Had(done, hasher)| <= e.size
        && Onward(e.whole, e.before, now, Plays(
             e.hash, e.size, e.digest, Had(done, hasher), sources[Least(1, |sources|)..], e.stopped, tries + 1, left - 1))
  {
    var play := Plays(e.hash, e.size, e.digest, held, sources, e.stopped, tries, left);
    var reply := NextReply(e.hash, e.size, e.digest, held, sources);
    if r.Some? && Transient(r.value) && left > 1 {
      var rest := Plays(
        e.hash, e.size, e.digest, reply.held, sources[Least(1, |sources|)..], e.stopped, tries + 1, left - 1);
      OnwardOnce(e.whole, e.before, asked, AskFrom(e.size, |held|), play, rest);
    }
  }

  // ---- the code against the worker of PullReport ----

  /** Events of this worker alone have led the pull from where the part began to where the worker is at f. */
  ghost predicate StandsAt(
    hash: Hash, job: Job, resume: bool, w: nat, begun: R.Watched, now: R.Watched, f: Fetcher)
  {
    && job.Valid() && Led(hash, job, resume, w, begun, now)
    && |now.hashed| == job.plan.N() && !now.report.closed
    && w < |now.session.workers| && |now.session.where| == job.plan.N()
    && |now.session.file| == job.plan.fileSize as int
    && now.session.workers[w] == f
  }

  /** One worker: its ports, its sink, the reporter and the hasher it reuses, as the bytes taken since the last
      reset. */
  class PartFetcher {
    const hash: Hash
    const job: Job
    const attempts: nat
    const resume: bool
    const port: Port
    const sink: PartialFile
    const report: Progress.Reporter
    var hasher: Bytes
    ghost const worker: nat
    ghost var begun: R.Watched
    ghost var now: R.Watched
    ghost var noted: nat

    ghost predicate Valid()
      reads sink
    {
      job.Valid() && attempts > 0 && |sink.file| == job.plan.fileSize as int
    }

    ghost predicate Stands(f: Fetcher)
      reads this
    {
      && StandsAt(hash, job, resume, worker, begun, now, f)
      && now.report.snap.retries == begun.report.snap.retries + noted
    }

    /** And the pull's file and report are those the code has. */
    ghost predicate At(f: Fetcher)
      reads this, sink, report
    {
      Stands(f) && now.session.file == sink.file && now.report == report.State()
    }

    /** The worker stands between attempts; its hasher matters only when there is something to continue. */
    ghost predicate AtBetween(i: nat, done: nat)
      reads this, sink, report
    {
      && worker < |now.session.workers| && now.session.workers[worker].Between?
      && now.session.workers[worker].part == i && now.session.workers[worker].done == done
      && (0 < done ==> now.session.workers[worker].absorbed == hasher)
      && At(now.session.workers[worker])
    }

    /** The whole part has been hashed to its digest; it is still to be credited. */
    ghost predicate AtWhole(i: nat)
      reads this, sink, report
    {
      At(Whole(i, hasher)) && i < |job.digests| && hash(hasher) == job.digests[i]
    }

    /** The part is in place, and credited. */
    ghost predicate AtPlace(i: nat)
      reads this, sink, report
    {
      At(Ready) && i < |now.session.where| && now.session.where[i] == Verified
    }

    ghost predicate AtEnd(i: nat, r: Option<Failure>, done: nat)
      reads this, sink, report
    {
      if r.None? then AtWhole(i)
      else if Transient(r.value) then AtBetween(i, done)
      else At(Failed)
    }

    constructor (
      hash: Hash, job: Job, attempts: nat, resume: bool, port: Port, sink: PartialFile, report: Progress.Reporter,
      ghost watched: R.Watched, ghost worker: nat)
      requires job.Valid() && attempts > 0 && |sink.file| == job.plan.fileSize as int
      ensures Valid() && this.hash == hash && this.job == job && this.attempts == attempts && this.resume == resume
      ensures this.port == port && this.sink == sink && this.report == report
      ensures hasher == [] && now == watched && this.worker == worker
    {
      this.hash, this.job, this.attempts, this.resume := hash, job, attempts, resume;
      this.port, this.sink, this.report, hasher := port, sink, report, [];
      this.begun, this.now, this.worker, this.noted := watched, watched, worker, 0;
    }

    // Each of these ghost methods is one event of the pull, taken where the code has done its work.

    ghost method Step(event: R.Event)
      requires job.Valid() && EventOf(event, worker) && R.CanDo(job, now, event) && |now.hashed| == job.plan.N()
      requires Led(hash, job, resume, worker, begun, now) && !now.report.closed
      modifies this`now
      ensures now.report.snap.retries == old(now).report.snap.retries + if event.RetryNoted? then 1 else 0
      ensures now == R.After(hash, job, resume, old(now), event) && Led(hash, job, resume, worker, begun, now)
    {
      LedOn(hash, job, resume, worker, begun, now, event);
      now := R.After(hash, job, resume, now, event);
    }

    /** A chunk read goes to the hasher, and to the counter behind it. */
    method Absorb(i: nat, bytes: Bytes)
      requires job.Valid() && i < job.plan.N() && At(Verifying(i, hasher))
      requires bytes != [] && |hasher| + |bytes| <= job.plan.Size(i)
      requires bytes == ReadAt(job, sink.file, i, |hasher|, |bytes|)
      modifies this`now, this`hasher, report
      ensures At(Verifying(i, hasher)) && hasher == old(hasher) + bytes
    {
      Step(R.Work(VerifyRead(worker, |bytes|)));
      hasher := hasher + bytes;
      report.Hashed(|bytes|);
    }

    ghost method DidMiss(i: nat)
      requires job.Valid() && i < job.plan.N() && At(Verifying(i, hasher)) && |hasher| == job.plan.Size(i)
      requires hash(hasher) != job.digests[i]
      modifies this`now
      ensures AtBetween(i, 0)
    {
      Step(R.Work(VerifyEnd(worker)));
    }

    /** A part found in place is credited as skipped. */
    method CreditFound(i: nat)
      requires job.Valid() && i < job.plan.N() && At(Verifying(i, hasher)) && |hasher| == job.plan.Size(i)
      requires hash(hasher) == job.digests[i]
      modifies this`now, report
      ensures AtPlace(i)
    {
      LoHi(job.plan, i);
      var part := job.plan.PartAt(i as int64);
      Step(R.Work(VerifyEnd(worker)));
      report.Complete(i, part.size as int, true);
    }

    /** A part fetched whole is credited as moved. */
    method CreditFetched(i: nat)
      requires job.Valid() && i < job.plan.N() && AtWhole(i)
      modifies this`now, report
      ensures AtPlace(i)
    {
      LoHi(job.plan, i);
      var part := job.plan.PartAt(i as int64);
      Step(R.Work(Check(worker)));
      report.Complete(i, part.size as int, false);
    }

    ghost method DidMismatch(i: nat)
      requires job.Valid() && i < job.plan.N() && At(Whole(i, hasher)) && hash(hasher) != job.digests[i]
      modifies this`now
      ensures At(Failed)
    {
      Step(R.Work(Check(worker)));
    }

    /** A chunk that reached the disk is counted. */
    method CountChunk(i: nat, ghost absorbed: Bytes, ghost from: nat, ghost written: nat, bytes: Bytes)
      requires job.Valid() && i < job.plan.N() && from + written + |bytes| <= job.plan.Size(i) && bytes != []
      requires Stands(Streaming(i, absorbed, from, written)) && now.report == report.State()
      requires sink.file == Put(job, now.session.file, i, from + written, bytes)
      modifies this`now, report
      ensures At(Streaming(i, absorbed + bytes, from, written + |bytes|))
    {
      Step(R.Work(Chunk(worker, bytes)));
      report.Wire(|bytes|);
    }

    ghost method DidRefuse(i: nat, absorbed: Bytes, from: nat, written: nat, bytes: Bytes, n: nat)
      requires job.Valid() && i < job.plan.N() && from + written + |bytes| <= job.plan.Size(i) && n <= |bytes|
      requires Stands(Streaming(i, absorbed, from, written)) && now.report == report.State()
      requires sink.file == Put(job, now.session.file, i, from + written, bytes[..n])
      modifies this`now
      ensures At(Failed)
    {
      Step(R.Work(WriteRefused(worker, bytes, n)));
    }

    ghost method DidOpen(i: nat, had: nat, start: nat)
      requires job.Valid() && i < job.plan.N() && AtBetween(i, had)
      modifies this`now
      ensures
        var asked := Asked(job, i, had);
        if start != 0 && start != asked then At(Failed)
        else if start == 0 then At(Streaming(i, [], 0, 0))
        else At(Streaming(i, hasher, asked, 0))
    {
      Step(R.Work(Open(worker, start)));
    }

    ghost method DidGiveUp(f: Fetcher)
      requires At(f) && f.HasPart() && f.part < job.plan.N()
      modifies this`now
      ensures At(Failed)
    {
      Step(R.Work(GiveUp(worker)));
    }

    /** Another attempt is recorded. */
    method CountRetry(i: nat, ghost done: nat)
      requires AtBetween(i, done)
      modifies this`now, this`noted, report
      ensures AtBetween(i, done) && noted == old(noted) + 1
    {
      Step(R.RetryNoted);
      noted := noted + 1;
      report.Retried();
    }

    /** One bounded read of the partial file, hashed. */
    method VerifyChunk(i: nat, size: nat) returns (read: bool)
      requires Valid() && i < job.plan.N() && |hasher| < size == job.plan.Size(i)
      requires At(Verifying(i, hasher)) && hasher == job.Head(sink.file, i, |hasher|)
      modifies this`hasher, this`now, sink`deliveries, report
      ensures Valid() && |hasher| <= size && hasher == job.Head(sink.file, i, |hasher|)
      ensures |sink.deliveries| < |old(sink.deliveries)| || (sink.deliveries == [] && |hasher| > |old(hasher)|)
      ensures Readable(old(sink.deliveries)) ==> read && Readable(sink.deliveries)
      ensures At(if read then Verifying(i, hasher) else Failed)
    {
      var limit := Least(COPY_BUFFER_SIZE, size - |hasher|);
      var bytes := sink.ReadSection(job, i, |hasher|, limit);
      if bytes.None? {
        DidGiveUp(Verifying(i, hasher));
        return false;
      }
      if bytes.value != [] {
        Safety.ReadContinues(job, sink.file, i, |hasher|, |bytes.value|);
        Absorb(i, bytes.value);
      }
      return true;
    }

    /** Hash a part's range out of the partial file. Only the reading can fail. */
    method Verify(i: nat) returns (r: Result<bool, Failure>)
      requires Valid() && i < job.plan.N() && At(Verifying(i, []))
      modifies this`hasher, this`now, sink`deliveries, report
      ensures Valid()
      ensures match r case Ok(matched) => matched <==> job.PartVerifies(hash, sink.file, i)
                      case Err(f) => f == ResumeUnread && !Readable(old(sink.deliveries))
      ensures match r case Ok(true) => At(Verifying(i, hasher)) && |hasher| == job.plan.Size(i) && hash(hasher) == job.digests[i]
                      case Ok(false) => AtBetween(i, 0)
                      case Err(f) => At(Failed)
    {
      hasher := [];
      var size := job.plan.PartAt(i as int64).size as int;
      LoHi(job.plan, i);
      while |hasher| < size
        invariant |hasher| <= size == job.plan.Size(i) && Valid() && sink.file == old(sink.file)
        invariant hasher == job.Head(sink.file, i, |hasher|)
        invariant At(Verifying(i, hasher))
        invariant Readable(old(sink.deliveries)) ==> Readable(sink.deliveries)
        decreases |sink.deliveries|, size - |hasher|
      {
        var read := VerifyChunk(i, size);
        if !read {
          return Err(ResumeUnread);
        }
      }
      Safety.HeadIsSlice(job, sink.file, i);
      if hash(hasher) != job.digests[i] {
        DidMiss(i);
        return Ok(false);
      }
      return Ok(true);
    }

    /** Hash a chunk, then write it: the two writers of the copy, in that order. An empty chunk reaches
        neither. */
    method Place(i: nat, at: nat, bytes: Bytes, ghost from: nat) returns (ok: bool)
      requires Valid() && i < job.plan.N() && from <= at && at + |bytes| <= job.plan.Size(i)
      requires hasher == job.Head(sink.file, i, at) && At(Streaming(i, hasher, from, at - from))
      modifies this`hasher, this`now, sink, report
      ensures Valid() && hasher == old(hasher) + bytes
      ensures ok ==> hasher == job.Head(sink.file, i, at + |bytes|)
      ensures Willing(old(sink.refusals)) ==> ok && Willing(sink.refusals)
      ensures if ok then At(Streaming(i, hasher, from, at + |bytes| - from)) else At(Failed)
    {
      ghost var before := sink.file;
      if bytes == [] {
        assert hasher + bytes == hasher;
        return true;
      }
      ghost var had := hasher;
      hasher := hasher + bytes;
      ok := sink.WriteAt(job, i, at, bytes);
      ghost var n: nat :| n <= |bytes| && sink.file == Put(job, before, i, at, bytes[..n]) && (ok ==> n == |bytes|);
      if ok {
        assert bytes[..n] == bytes;
        Safety.WriteContinues(job, before, i, at, bytes);
        CountChunk(i, had, from, at - from, bytes);
      } else {
        DidRefuse(i, had, from, at - from, bytes, n);
      }
    }

    /** One turn of the copy: read a chunk that fits, and place it. */
    method CopyChunk(content: Body, i: nat, at: nat, ghost from: nat) returns (bytes: Bytes, end: End, placed: bool)
      requires Valid() && i < job.plan.N() && from <= at < job.plan.Size(i)
      requires hasher == job.Head(sink.file, i, at) && At(Streaming(i, hasher, from, at - from))
      modifies this`hasher, this`now, content, sink, report
      ensures if placed then At(Streaming(i, hasher, from, at + |bytes| - from)) else At(Failed)
      ensures Valid()
      ensures at + |bytes| <= job.plan.Size(i) && hasher == old(hasher) + bytes
      ensures placed ==> hasher == job.Head(sink.file, i, at + |bytes|)
      ensures Willing(old(sink.refusals)) ==> placed && Willing(sink.refusals)
      ensures Total(old(content.left)) == Onto(bytes, Rest(end, content.left))
      ensures end == Eof ==> content.left == []
      ensures end == More ==> |content.left| < |old(content.left)| || (|content.left| == |old(content.left)| && bytes != [])
      ensures |content.left| <= |old(content.left)|
    {
      LoHi(job.plan, i);
      var size := job.plan.PartAt(i as int64).size as int;
      bytes, end := content.Read(Least(COPY_BUFFER_SIZE, size - at));
      placed := Place(i, at, bytes, from);
    }

    /** The same turn, after got has been copied onto the held bytes. */
    method CopyNext(content: Body, i: nat, at: nat, ghost from: nat, ghost held: Bytes, ghost all: Delivery, ghost got: Bytes)
      returns (bytes: Bytes, end: End, placed: bool)
      requires Valid() && i < job.plan.N() && from <= at < job.plan.Size(i)
      requires hasher == job.Head(sink.file, i, at) && At(Streaming(i, hasher, from, at - from))
      requires Copied(held, all, got, More, content.left, at - from, hasher)
      modifies this`hasher, this`now, content, sink, report
      ensures if placed then At(Streaming(i, hasher, from, at + |bytes| - from)) else At(Failed)
      ensures Valid() && at + |bytes| <= job.plan.Size(i)
      ensures placed ==> hasher == job.Head(sink.file, i, at + |bytes|)
      ensures placed ==> Copied(held, all, got + bytes, end, content.left, at + |bytes| - from, hasher)
      ensures Willing(old(sink.refusals)) ==> placed && Willing(sink.refusals)
      ensures end == Eof ==> content.left == []
      ensures end == More ==> |content.left| < |old(content.left)| || (|content.left| == |old(content.left)| && bytes != [])
      ensures |content.left| <= |old(content.left)|
    {
      ghost var left := content.left;
      bytes, end, placed := CopyChunk(content, i, at, from);
      CopiedOn(held, all, got, left, at - from, bytes, end, content.left);
    }

    /** Copy until the part is full, the body ends, or the disk refuses. got is what was copied. */
    method CopyRest(content: Body, i: nat, from: nat) returns (copied: nat, end: End, placed: bool, ghost got: Bytes)
      requires Valid() && i < job.plan.N() && from <= job.plan.Size(i)
      requires hasher == job.Head(sink.file, i, from) && At(Streaming(i, hasher, from, 0))
      modifies this`hasher, this`now, content, sink, report
      ensures Valid()
      ensures from <= copied <= job.plan.Size(i)
      ensures if placed then At(Streaming(i, hasher, from, copied - from)) else At(Failed)
      ensures placed ==> hasher == job.Head(sink.file, i, copied) && (copied < job.plan.Size(i) ==> end != More)
      ensures Willing(old(sink.refusals)) ==> placed && Willing(sink.refusals)
      ensures placed ==> |got| == copied - from && hasher == old(hasher) + got
      ensures placed ==> Total(old(content.left)) == Onto(got, Rest(end, content.left))
      ensures end == Eof ==> content.left == []
    {
      var size := job.plan.PartAt(i as int64).size as int;
      assert size == job.plan.Size(i) by {
        LoHi(job.plan, i);
      }
      ghost var held, all := hasher, Total(content.left);
      copied, end, placed, got := from, More, true, [];
      OntoOnto([], [], all);
      while copied < size && end == More
        invariant from <= copied <= size == job.plan.Size(i) && Valid() && placed
        invariant At(Streaming(i, hasher, from, copied - from))
        invariant hasher == job.Head(sink.file, i, copied)
        invariant Copied(held, all, got, end, content.left, copied - from, hasher)
        invariant end == Eof ==> content.left == []
        invariant Willing(old(sink.refusals)) ==> Willing(sink.refusals)
        decreases |content.left|, size - copied, if end == More then 1 else 0
      {
        var bytes;
        bytes, end, placed := CopyNext(content, i, copied, from, held, all, got);
        if !placed {
          return;
        }
        copied := copied + |bytes|;
        got := got + bytes;
      }
    }

    /** Copy what is left of a part, hashing on the way; then the body must be over. */
    method Stream(content: Body, i: nat, from: nat) returns (done: nat, r: Option<Failure>)
      requires Valid() && i < job.plan.N() && from <= job.plan.Size(i)
      requires hasher == job.Head(sink.file, i, from) && At(Streaming(i, hasher, from, 0))
      modifies this`hasher, this`now, content, sink, report
      ensures if r.None? then At(Whole(i, hasher)) else if Transient(r.value) then At(Between(i, hasher, done)) else At(Failed)
      ensures Valid()
      ensures (r.None? || Transient(r.value)) ==> InStep(job, sink.file, i, hasher, done) && from <= done
      ensures r.None? ==> done == job.plan.Size(i) && hasher == job.Head(sink.file, i, done)
      ensures OfTheCopy(r)
      ensures Willing(old(sink.refusals)) ==>
                && Willing(sink.refusals) && from <= done
                && Landed(hash, job.plan.Size(i), job.digests[i], old(hasher), Total(old(content.left)), done, r, hasher)
    {
      TotalEnds(content.left);
      var copied, end, placed, got := CopyRest(content, i, from);
      if !placed {
        return from, Some(WriteFailed);
      }
      assert Total(old(content.left)).bytes[..|got|] == got;
      LoHi(job.plan, i);
      done := copied;
      r := Judge(content, end, job.plan.PartAt(i as int64).size as int, copied, got);
      EndsLanded(hash, job.plan.Size(i), job.digests[i], old(hasher), Total(old(content.left)), done, r, hasher);
      StreamEnds(i, from, copied, r);
    }

    /** What is to be said of a body once the copy has stopped. */
    method Judge(content: Body, end: End, size: nat, copied: nat, ghost got: Bytes) returns (r: Option<Failure>)
      requires |got| <= copied <= size && (copied < size ==> end != More) && (end == Eof ==> content.left == [])
      modifies content
      ensures
        var all := Onto(got, Rest(end, old(content.left)));
        all.end != More ==> Ends(size - (copied - |got|), all, |got|, r)
      ensures OfTheCopy(r)
      ensures r.None? || r == Some(TooLong) || (r.Some? && r.value.TailUnread?) ==> copied == size
    {
      if end.Broken? {
        return Some(ReadBroken(end.transient));
      }
      if copied != size {
        return Some(EndedEarly);
      }
      r := CheckOver(content);
    }

    /** Every byte came, and what was to end the body did not. */
    ghost method TailBroke(i: nat, from: nat)
      requires Valid() && i < job.plan.N() && from <= job.plan.Size(i)
      requires At(Streaming(i, hasher, from, job.plan.Size(i) - from))
      modifies this`now
      ensures At(Between(i, hasher, job.plan.Size(i)))
    {
      Step(R.Work(Drained(worker)));
      Step(R.Work(TailBreaks(worker)));
    }

    /** How the session sees the end of a copy that the disk took. */
    ghost method StreamEnds(i: nat, from: nat, copied: nat, r: Option<Failure>)
      requires Valid() && i < job.plan.N() && from <= copied <= job.plan.Size(i) && At(Streaming(i, hasher, from, copied - from))
      requires r.None? || r == Some(TooLong) || (r.Some? && r.value.TailUnread?) ==> copied == job.plan.Size(i)
      modifies this`now
      ensures if r.None? then At(Whole(i, hasher)) else if Transient(r.value) then At(Between(i, hasher, copied)) else At(Failed)
    {
      if r.None? {
        Step(R.Work(Drained(worker)));
      } else if Transient(r.value) && !r.value.TailUnread? {
        Step(R.Work(StreamBreaks(worker)));
      } else if Transient(r.value) {
        TailBroke(i, from);
      } else {
        Step(R.Work(GiveUp(worker)));
      }
    }

    /** One more byte would be content the manifest does not describe. */
    method CheckOver(content: Body) returns (r: Option<Failure>)
      modifies content
      ensures
        var d := Total(old(content.left));
        && d.end != More
        && r == if d.bytes != [] then Some(TooLong) else if d.end.Broken? then Some(TailUnread(d.end.transient)) else None
    {
      var extra: Bytes := [];
      var end := More;
      while extra == [] && end == More
        invariant |extra| <= 1
        invariant Total(old(content.left)) == Onto(extra, Rest(end, content.left))
        decreases |content.left|, if extra == [] && end == More then 1 else 0
      {
        ghost var had := extra;
        extra, end := content.Read(1);
        OntoOnto(had, extra, Rest(end, content.left));
        assert had + extra == extra;
      }
      TotalEnds(old(content.left));
      if extra != [] {
        return Some(TooLong);
      }
      if end.Broken? {
        return Some(TailUnread(end.transient));
      }
      return None;
    }

    /** A part that has all its bytes is checked against its digest. */
    method Matches(i: nat) returns (matched: bool)
      requires Valid() && i < job.plan.N() && At(Whole(i, hasher)) && hasher == job.Head(sink.file, i, job.plan.Size(i))
      modifies this`now
      ensures matched <==> job.PartVerifies(hash, sink.file, i)
      ensures matched <==> hash(hasher) == job.digests[i]
      ensures if matched then AtWhole(i) else At(Failed)
    {
      Safety.HeadIsSlice(job, sink.file, i);
      matched := hash(hasher) == job.digests[i];
      if !matched {
        DidMismatch(i);
      }
    }

    /** Stream a body into the rest of a part and check the part against its digest. */
    method Take(script: seq<Delivery>, i: nat, from: nat) returns (done: nat, r: Option<Failure>)
      requires Valid() && i < job.plan.N() && from <= job.plan.Size(i)
      requires hasher == job.Head(sink.file, i, from) && At(Streaming(i, hasher, from, 0))
      modifies this`hasher, this`now, sink, report
      ensures AtEnd(i, r, done)
      ensures Valid()
      ensures r.None? ==> job.PartVerifies(hash, sink.file, i)
      ensures r == Some(Mismatch) ==> !job.PartVerifies(hash, sink.file, i)
      ensures r.Some? && Transient(r.value) ==> InStep(job, sink.file, i, hasher, done)
      ensures r != Some(UnusableOffset) && r != Some(ResumeUnread) && r != Some(Stopped)
      ensures Willing(old(sink.refusals)) ==>
                && Willing(sink.refusals)
                && Shows(BodyReply(hash, job.plan.Size(i), job.digests[i], old(hasher), Total(script)), done, r, hasher)
    {
      var content := new Body(script);
      done, r := Stream(content, i, from);
      if r.Some? {
        return;
      }
      var matched := Matches(i);
      if !matched {
        return done, Some(Mismatch);
      }
    }

    /** How the answers of these sources let the fetch of a part end. */
    ghost function Play(i: nat, held: Bytes, sources: seq<Source>, stopped: nat -> bool): Played
      requires job.Valid() && attempts > 0 && i < job.plan.N() && |held| <= job.plan.Size(i)
    {
      Plays(hash, job.plan.Size(i), job.digests[i], held, sources, stopped, 0, attempts)
    }

    /** One try at the rest of a part. A transient failure leaves the hasher, the range and the count in
        step, so that another attempt may continue there; success means that the range verifies. */
    method Attempt(i: nat, had: nat) returns (done: nat, r: Option<Failure>)
      requires Valid() && i < job.plan.N() && InStep(job, sink.file, i, hasher, had) && AtBetween(i, had)
      modifies this`hasher, this`now, port, sink, report
      ensures AtEnd(i, r, done)
      ensures Valid()
      ensures port.asked == old(port.asked) + [Asked(job, i, had)]
      ensures r.None? ==> job.PartVerifies(hash, sink.file, i)
      ensures r == Some(Mismatch) ==> !job.PartVerifies(hash, sink.file, i)
      ensures r.Some? && Transient(r.value) ==> InStep(job, sink.file, i, hasher, done)
      ensures r != Some(ResumeUnread) && r != Some(Stopped)
      ensures (r == Some(UnusableOffset)) <==>
              (&& old(port.sources) != []
               && var a := AnswerTo(old(port.sources)[0], Asked(job, i, had));
               a.Stream? && a.start != 0 && a.start != Asked(job, i, had))
      ensures port.sources == old(port.sources)[Least(1, |old(port.sources)|)..]
      ensures Willing(old(sink.refusals)) ==> Willing(sink.refusals)
      ensures Willing(old(sink.refusals)) ==> Shows(
                NextReply(hash, job.plan.Size(i), job.digests[i], Had(had, old(hasher)), old(port.sources)), done, r, hasher)
      ensures Adapters(old(port.sources)) ==> r != Some(UnusableOffset)
      ensures r.Some? && Transient(r.value) ==> |Had(done, hasher)| <= job.plan.Size(i)
    {
      done := had;
      LoHi(job.plan, i);
      var part := job.plan.PartAt(i as int64);
      if done == part.size as int {
        done := 0;
      }
      ghost var sources := port.sources;
      var answer := port.Get(done);
      Answered(hash, job.plan.Size(i), job.digests[i], Had(had, hasher), sources, done, answer);
      match answer {
        case NoStream(transient) =>
          GetFailed(i, had, transient);
          return done, Some(FetchFailed(transient));
        case Stream(start, script) =>
          done, r := Receive(script, i, had, done, start);
      }
    }

    /** A stream is placed where it starts, when that is the beginning of the part or where it was asked to. */
    method Receive(script: seq<Delivery>, i: nat, ghost had: nat, asked: nat, start: nat)
      returns (done: nat, r: Option<Failure>)
      requires Valid() && i < job.plan.N() && InStep(job, sink.file, i, hasher, had) && AtBetween(i, had)
      requires asked == Asked(job, i, had)
      modifies this`hasher, this`now, sink, report
      ensures AtEnd(i, r, done)
      ensures Valid()
      ensures r.None? ==> job.PartVerifies(hash, sink.file, i)
      ensures r == Some(Mismatch) ==> !job.PartVerifies(hash, sink.file, i)
      ensures r.Some? && Transient(r.value) ==> InStep(job, sink.file, i, hasher, done)
      ensures (r == Some(UnusableOffset)) <==> start != 0 && start != asked
      ensures r != Some(ResumeUnread) && r != Some(Stopped)
      ensures Willing(old(sink.refusals)) ==>
                && Willing(sink.refusals)
                && Shows(StreamReply(
                     hash, job.plan.Size(i), job.digests[i], Had(had, old(hasher)), asked, start, Total(script)), done, r, hasher)
    {
      DidOpen(i, had, start);
      if start != 0 && start != asked {
        return asked, Some(UnusableOffset);
      }
      done := start;
      if done == 0 {
        hasher := [];
      }
      assert hasher == job.Head(sink.file, i, done);
      done, r := Take(script, i, done);
    }

    /** How the session sees a read that brought no stream. */
    ghost method GetFailed(i: nat, had: nat, transient: bool)
      requires Valid() && i < job.plan.N() && AtBetween(i, had)
      modifies this`now
      ensures AtEnd(i, Some(FetchFailed(transient)), Asked(job, i, had))
    {
      Step(R.Work(OpenBreaks(worker)));
      if !transient {
        Step(R.Work(GiveUp(worker)));
      }
    }

    /** The worker stands between the attempts of an errand. */
    ghost predicate OnErrand(e: Errand, i: nat, done: nat, tries: nat)
      reads this, port, sink, report
    {
      && Valid() && i < job.plan.N() && tries < attempts
      && e.hash == hash && e.size == job.plan.Size(i) && e.digest == job.digests[i]
      && AtBetween(i, done) && InStep(job, sink.file, i, hasher, done) && (tries == 0 ==> done == 0)
      && (e.willing ==> Willing(sink.refusals))
      && Going(e, tries, attempts - tries, port.asked, port.sources, Had(done, hasher))
    }

    /** No attempt follows. */
    ghost predicate Returned(e: Errand, i: nat, tries: nat, r: Option<Failure>)
      reads this, port, sink, report
    {
      && Valid() && i < job.plan.N() && tries <= attempts
      && (if r.None? then AtWhole(i) && job.PartVerifies(hash, sink.file, i) else At(Failed))
      && Over(e, tries, port.asked, r)
    }

    ghost method DidLast(e: Errand, i: nat, done: nat, tries: nat, r: Option<Failure>)
      requires Valid() && i < job.plan.N() && tries <= attempts && AtEnd(i, r, done)
      requires (r.None? ==> job.PartVerifies(hash, sink.file, i)) && Over(e, tries, port.asked, r)
      modifies this`now
      ensures Returned(e, i, tries, r)
    {
      if r.Some? && Transient(r.value) {
        DidGiveUp(now.session.workers[worker]);
      }
    }

    /** An attempt that is not the first is counted. */
    method CountTry(i: nat, done: nat, tries: nat, ghost e: Errand)
      requires OnErrand(e, i, done, tries)
      modifies this`now, this`noted, report
      ensures OnErrand(e, i, done, tries) && noted == old(noted) + if tries > 0 then 1 else 0
    {
      if tries > 0 {
        CountRetry(i, done);
      }
    }

    /** One attempt, on an errand. */
    method AttemptFor(ghost e: Errand, i: nat, had: nat) returns (done: nat, r: Option<Failure>)
      requires Valid() && i < job.plan.N() && InStep(job, sink.file, i, hasher, had) && AtBetween(i, had)
      requires e.hash == hash && e.size == job.plan.Size(i) && e.digest == job.digests[i]
      requires e.willing ==> Willing(sink.refusals)
      modifies this`hasher, this`now, port, sink, report
      ensures AtEnd(i, r, done) && Valid() && r != Some(Stopped)
      ensures r.None? ==> job.PartVerifies(hash, sink.file, i)
      ensures r.Some? && Transient(r.value) ==> InStep(job, sink.file, i, hasher, done)
      ensures e.willing ==> Willing(sink.refusals)
      ensures Brought(
                e, old(port.asked), old(port.sources), Had(had, old(hasher)), done, r, hasher, port.asked, port.sources)
    {
      LoHi(job.plan, i);
      done, r := Attempt(i, had);
    }

    /** One attempt, and what the policy makes of it. */
    method Turn(i: nat, had: nat, tries: nat, ghost e: Errand) returns (done: nat, r: Option<Failure>, last: bool)
      requires OnErrand(e, i, had, tries) && !e.stopped(tries)
      requires Going(e, tries, attempts - tries, port.asked, port.sources, Had(had, hasher))
      modifies this`hasher, this`now, port, sink, report
      ensures r != Some(Stopped)
      ensures last ==> Returned(e, i, tries + 1, r)
      ensures !last ==> OnErrand(e, i, done, tries + 1)
    {
      GoesOnce(e, tries, attempts - tries, port.asked, port.sources, Had(had, hasher));
      done, r := AttemptFor(e, i, had);
      last := Lasts(r, attempts - tries);
      if last {
        DidLast(e, i, done, tries + 1, r);
      }
    }

    /** Fetch a part off the registry, again while a failure is worth repeating. stopped says before which
        attempts the context has ended. */
    method FetchAttempts(i: nat, stopped: nat -> bool) returns (r: Option<Failure>)
      requires Valid() && i < job.plan.N() && AtBetween(i, 0)
      modifies this`hasher, this`now, this`noted, port, sink, report
      ensures noted == old(noted) + Before(|port.asked| - |old(port.asked)|)
      ensures if r.None? then AtWhole(i) else At(Failed)
      ensures Valid()
      ensures r.None? ==> job.PartVerifies(hash, sink.file, i)
      ensures |old(port.asked)| <= |port.asked| <= |old(port.asked)| + attempts
      ensures forall k :: |old(port.asked)| <= k < |port.asked| ==> port.asked[k] <= job.plan.Size(i)
      ensures |port.asked| > |old(port.asked)| ==> port.asked[|old(port.asked)|] == 0
      ensures Adapters(old(port.sources)) ==> r != Some(UnusableOffset)
      ensures r != Some(ResumeUnread) && (r == Some(Stopped) ==> stopped(|port.asked| - |old(port.asked)|))
      ensures Willing(old(sink.refusals)) ==> Follows(Play(i, [], old(port.sources), stopped), old(port.asked), port.asked, r)
    {
      LoHi(job.plan, i);
      ghost var e := Errand(
        hash, job.plan.Size(i), job.digests[i], stopped, port.asked, Play(i, [], port.sources, stopped),
        Willing(sink.refusals), Adapters(port.sources));
      Sets(e, attempts, port.sources);
      var tries;
      r, tries := RunErrand(i, stopped, e);
    }

    ghost method DidStop(e: Errand, i: nat, done: nat, tries: nat)
      requires OnErrand(e, i, done, tries) && e.stopped(tries)
      modifies this`now
      ensures Returned(e, i, tries, Some(Stopped))
    {
      StopsGoing(e, tries, attempts - tries, port.asked, port.sources, Had(done, hasher));
      DidGiveUp(now.session.workers[worker]);
    }

    /** The attempts, one after another. */
    method RunErrand(i: nat, stopped: nat -> bool, ghost e: Errand) returns (r: Option<Failure>, tries: nat)
      requires OnErrand(e, i, 0, 0) && e.stopped == stopped
      modifies this`hasher, this`now, this`noted, port, sink, report
      ensures noted == old(noted) + Before(tries)
      ensures Returned(e, i, tries, r) && (r == Some(Stopped) ==> stopped(tries))
    {
      var done: nat, last := 0, false;
      r, tries := None, 0;
      while !last && !stopped(tries)
        invariant if last then Returned(e, i, tries, r) && r != Some(Stopped) else OnErrand(e, i, done, tries)
        invariant noted == old(noted) + Before(tries)
        decreases attempts - tries, if last then 0 else 1
      {
        CountTry(i, done, tries, e);
        done, r, last := Turn(i, done, tries, e);
        tries := tries + 1;
      }
      if !last {
        DidStop(e, i, done, tries);
        r := Some(Stopped);
      }
    }

    /** Look for the part in the partial file, and credit it when it is there. */
    method Find(i: nat) returns (found: Result<bool, Failure>)
      requires Valid() && i < job.plan.N() && At(Verifying(i, []))
      modifies this`hasher, this`now, sink`deliveries, report
      ensures Valid()
      ensures match found
              case Ok(true) => AtPlace(i) && job.PartVerifies(hash, sink.file, i)
              case Ok(false) => AtBetween(i, 0) && !job.PartVerifies(hash, sink.file, i)
              case Err(f) => At(Failed) && f == ResumeUnread && !Readable(old(sink.deliveries))
    {
      found := Verify(i);
      if found == Ok(true) {
        CreditFound(i);
      }
    }

    /** Put one part in place: out of the partial file when it is already there, and off the registry
        otherwise. What it does and records is what its worker of PullReport may, event by event. */
    method Fetch(i: nat, stopped: nat -> bool) returns (skipped: bool, r: Option<Failure>)
      requires Valid() && i < job.plan.N()
      requires worker < |now.session.workers| && |now.session.where| == job.plan.N() == |now.hashed|
      requires now.session.file == sink.file && now.report == report.State() && !now.report.closed
      requires now.session.workers[worker] == if resume then Verifying(i, []) else Between(i, [], 0)
      modifies this, port, sink, report
      ensures begun == old(now) && if r.None? then AtPlace(i) else At(Failed)
      ensures Valid() && OnlyPart(job, i, old(sink.file), sink.file)
      ensures r.None? ==> job.PartVerifies(hash, sink.file, i)
      ensures skipped ==> r.None? && sink.file == old(sink.file) && port.asked == old(port.asked)
      ensures resume && job.PartVerifies(hash, old(sink.file), i) ==> skipped || r == Some(ResumeUnread)
      ensures |old(port.asked)| <= |port.asked| <= |old(port.asked)| + attempts
      ensures forall k :: |old(port.asked)| <= k < |port.asked| ==> port.asked[k] <= job.plan.Size(i)
      ensures |port.asked| > |old(port.asked)| ==> port.asked[|old(port.asked)|] == 0
      ensures Adapters(old(port.sources)) ==> r != Some(UnusableOffset)
      ensures report.State().snap.retries == old(report.State()).snap.retries + Before(|port.asked| - |old(port.asked)|)
      ensures skipped ==> resume && job.PartVerifies(hash, old(sink.file), i)
      ensures r == Some(ResumeUnread) ==> resume && port.asked == old(port.asked) && !Readable(old(sink.deliveries))
      ensures Willing(old(sink.refusals)) && !skipped && r != Some(ResumeUnread) ==>
                Follows(Play(i, [], old(port.sources), stopped), old(port.asked), port.asked, r)
    {
      LedNowhere(hash, job, resume, worker, now);
      begun, noted := now, 0;
      var found: Result<bool, Failure> := Ok(false);
      if resume {
        found := Find(i);
      }
      match found {
        case Err(failure) => skipped, r := false, Some(failure);
        case Ok(true) => skipped, r := true, None;
        case Ok(false) =>
          skipped := false;
          r := FetchAttempts(i, stopped);
          if r.None? {
            CreditFetched(i);
          }
      }
      LedOnlyPart(hash, job, resume, worker, begun, now, i);
    }
  }
}
