/** The hash pass of a push, as code (internal/transfer/push.go: hashParts), and the registry its uploads meet,
    against a source and a registry that answer in any way at all. */
module PushWork {
  import opened Base
  import opened SplitPlan
  import opened Streams
  import opened SourceReads
  import opened PushRuns
  import Manifest
  import P = PushProtocol
  import Progress

  // ---- the hash pass ----

  datatype HashError = SourceUnread | Changed | Cancelled

  datatype QueuedPart = QueuedPart(index: nat, digest: Digest)

  /** What the first k parts of a file that read this should be recorded as. */
  ghost predicate Recorded(hash: Hash, plan: Plan, read: Bytes, parts: seq<Manifest.BlobPart>, jobs: seq<QueuedPart>)
    requires plan.Valid()
  {
    && |jobs| <= plan.N() == |parts|
    && forall k :: 0 <= k < |jobs| ==> PartRecorded(hash, plan, read, parts[k], jobs[k], k)
  }

  ghost predicate PartRecorded(hash: Hash, plan: Plan, read: Bytes, part: Manifest.BlobPart, job: QueuedPart, k: nat)
    requires plan.Valid()
  {
    && plan.Lo(k) <= plan.Hi(k) <= |read|
    && part.size as int == plan.Hi(k) - plan.Lo(k)
    && part.digest == hash(read[plan.Lo(k)..plan.Hi(k)])
    && job == QueuedPart(k, part.digest)
  }

  /** Reading on and recording the next part change nothing recorded before. */
  lemma StillRecorded(
    hash: Hash, plan: Plan, read: Bytes, more: Bytes, before: seq<Manifest.BlobPart>, after: seq<Manifest.BlobPart>,
    jobs: seq<QueuedPart>)
    requires plan.Valid() && Recorded(hash, plan, read, before, jobs)
    requires |after| == |before| && forall k :: 0 <= k < |jobs| ==> after[k] == before[k]
    ensures Recorded(hash, plan, read + more, after, jobs)
  {
    forall k | 0 <= k < |jobs| ensures PartRecorded(hash, plan, read + more, after[k], jobs[k], k) {
      assert PartRecorded(hash, plan, read, before[k], jobs[k], k);
      assert (read + more)[plan.Lo(k)..plan.Hi(k)] == read[plan.Lo(k)..plan.Hi(k)];
    }
  }

  /** A source that does not change delivers, from this position in part k on, what it holds there, or the
      beginning of it. */
  ghost predicate Faithful(c: P.Config, k: nat, at: nat, left: Bytes)
    requires c.Valid() && k < c.plan.N()
  {
    c.steady ==> at <= c.plan.Hi(k) <= |c.source| && left <= c.source[at..c.plan.Hi(k)]
  }

  lemma FaithfulChunk(c: P.Config, k: nat, at: nat, got: Bytes, left: Bytes)
    requires c.Valid() && k < c.plan.N() && Faithful(c, k, at, got + left)
    ensures c.steady ==> at + |got| <= |c.source| && got == c.source[at..at + |got|]
    ensures Faithful(c, k, at + |got|, left)
  {
    if c.steady {
      PrefixSplits(got, left, c.source[at..c.plan.Hi(k)]);
      assert c.source[at..c.plan.Hi(k)][..|got|] == c.source[at..at + |got|];
      assert c.source[at..c.plan.Hi(k)][|got|..] == c.source[at + |got|..c.plan.Hi(k)];
    }
  }

  lemma PrefixSplits(a: Bytes, b: Bytes, whole: Bytes)
    requires a + b <= whole
    ensures a == whole[..|a|] && b <= whole[|a|..]
  {
    assert a == (a + b)[..|a|] && b == (a + b)[|a|..];
    assert whole[..|a + b|] == a + b;
  }

  /** The source delivers a part whole: enough bytes, and no break on the way or together with the last of them. */
  ghost predicate Fills(script: seq<Delivery>, size: nat)
    decreases |script|
  {
    || size == 0
    || (&& script != []
        && var bytes := |script[0].bytes|;
           || bytes > size
           || (script[0].end == More && Fills(script[1..], size - bytes))
           || (script[0].end == Eof && bytes == size))
  }

  /** Once n of the size bytes are read, whether the source delivers them whole is a matter of what is left. */
  ghost predicate FillsBy(script: seq<Delivery>, size: nat, n: nat, end: End, left: seq<Delivery>) {
    && n <= size
    && (Fills(script, size) <==> match end
                                 case More => Fills(left, size - n)
                                 case Eof => n == size
                                 case Broken(_) => false)
  }

  lemma FillsOn(left: seq<Delivery>, limit: nat, room: nat)
    requires 0 < limit <= room
    ensures
      var g := ReadOnce(left, limit);
      FillsBy(left, room, |g.bytes|, g.end, g.left)
  {
    if left != [] && |left[0].bytes| > limit {
      assert ReadOnce(left, limit).left[1..] == left[1..];
    }
  }

  /** These bytes have been read of a script that is to fill a part, and this is left. */
  ghost predicate ReadSoFar(script: seq<Delivery>, size: nat, bytes: Bytes, end: End, left: seq<Delivery>) {
    Total(script) == Onto(bytes, Rest(end, left)) && FillsBy(script, size, |bytes|, end, left)
  }

  lemma ReadOn(
    script: seq<Delivery>, size: nat, bytes: Bytes, left: seq<Delivery>, got: Bytes, end: End, after: seq<Delivery>)
    requires ReadSoFar(script, size, bytes, More, left)
    requires Total(left) == Onto(got, Rest(end, after)) && FillsBy(left, size - |bytes|, |got|, end, after)
    ensures ReadSoFar(script, size, bytes + got, end, after)
  {
    OntoOnto(bytes, got, Rest(end, after));
  }

  /** A part that is full, or a source that has ended. */
  lemma ReadAll(script: seq<Delivery>, size: nat, bytes: Bytes, end: End, left: seq<Delivery>)
    requires ReadSoFar(script, size, bytes, end, left) && (|bytes| == size || end != More)
    ensures bytes <= Total(script).bytes
    ensures Fills(script, size) <==> !end.Broken? && |bytes| == size
    ensures |Total(script).bytes| < size && Total(script).end == Eof <==> !end.Broken? && |bytes| < size
    ensures end.Broken? ==> Total(script).end.Broken?
  {
  }

  /** The sequential pass: the plan, and every byte the whole-file hasher has taken. */
  class HashPass {
    const hash: Hash
    const plan: Plan
    const report: Progress.Reporter
    var read: Bytes
    ghost const config: P.Config
    ghost var begun: P.State
    ghost var now: P.State

    constructor (hash: Hash, plan: Plan, report: Progress.Reporter, ghost config: P.Config, ghost state: P.State)
      ensures this.hash == hash && this.plan == plan && this.report == report && read == []
      ensures this.config == config && begun == state && now == state
    {
      this.hash, this.plan, this.report, this.read := hash, plan, report, [];
      this.config, this.begun, this.now := config, state, state;
    }

    /** Steps of the pass alone have led the push from where it began to where k parts are hashed. */
    ghost predicate Stands(k: nat)
      reads this
    {
      && config.Valid() && config.hash == hash && config.plan == plan
      && Led(config, HashesFile, begun, now)
      && now.stage == P.Moving && now.hashing == P.Hashing && |now.ledger.digests| == k <= plan.N()
    }

    /** And it has read and reported what the code has. */
    ghost predicate At(k: nat)
      reads this, report
    {
      Stands(k) && now.read == read && now.report == report.State()
    }

    ghost method Step(step: P.Step)
      requires config.Valid() && Led(config, HashesFile, begun, now)
      requires StepOf(step, HashesFile) && P.Enabled(config, now, step)
      modifies this`now
      ensures now == P.Apply(config, old(now), step) && Led(config, HashesFile, begun, now)
    {
      LedOn(config, HashesFile, begun, now, step);
      now := P.Apply(config, now, step);
    }

    /** A chunk goes to the hashers, and then to the counter behind them. */
    method Absorb(k: nat, got: Bytes)
      requires At(k) && k < plan.N() && |read| + |got| <= plan.Hi(k) <= |config.source|
      requires config.steady ==> got == config.source[|read|..|read| + |got|]
      modifies this`read, this`now, report
      ensures At(k) && read == old(read) + got && now.ledger == old(now.ledger)
    {
      if got == [] {
        assert read + got == read;
        return;
      }
      Step(P.HashChunk(got));
      read := read + got;
      report.Hashed(|got|);
    }

    /** One turn of the copy: read a chunk that fits, and hash it. */
    method CopyChunk(section: Body, k: nat, room: nat) returns (got: Bytes, end: End)
      requires At(k) && k < plan.N() && |read| + room == plan.Hi(k) <= |config.source|
      requires Faithful(config, k, |read|, Total(section.left).bytes)
      modifies section, this`read, this`now, report
      ensures At(k) && read == old(read) + got && |got| <= room && now.ledger == old(now.ledger)
      ensures Total(old(section.left)) == Onto(got, Rest(end, section.left))
      ensures end == More ==> Faithful(config, k, |read|, Total(section.left).bytes)
      ensures 0 < room ==> FillsBy(old(section.left), room, |got|, end, section.left)
      ensures |section.left| < |old(section.left)| || (end == Eof && section.left == [])
              || (end == More && |section.left| == |old(section.left)| && |got| == Least(COPY_BUFFER_SIZE, room))
    {
      if room > 0 {
        FillsOn(section.left, Least(COPY_BUFFER_SIZE, room), room);
      }
      got, end := section.Read(Least(COPY_BUFFER_SIZE, room));
      FaithfulChunk(config, k, |read|, got, Rest(end, section.left).bytes);
      Absorb(k, got);
    }

    /** The same turn, after these bytes of the part. */
    method CopyNext(section: Body, k: nat, size: nat, had: Bytes, ghost script: seq<Delivery>, ghost before: Bytes)
      returns (bytes: Bytes, end: End)
      requires At(k) && k < plan.N() && |had| < size && |read| + size - |had| == plan.Hi(k) <= |config.source|
      requires read == before + had && ReadSoFar(script, size, had, More, section.left)
      requires Faithful(config, k, |read|, Total(section.left).bytes)
      modifies section, this`read, this`now, report
      ensures At(k) && read == before + bytes && |had| <= |bytes| <= size && now.ledger == old(now.ledger)
      ensures ReadSoFar(script, size, bytes, end, section.left)
      ensures end == More ==> Faithful(config, k, |read|, Total(section.left).bytes)
      ensures |section.left| < |old(section.left)| || (end == Eof && section.left == [])
              || (end == More && |section.left| == |old(section.left)| && |bytes| > |had|)
    {
      ghost var left := section.left;
      var got;
      got, end := CopyChunk(section, k, size - |had|);
      ReadOn(script, size, had, left, got, end, section.left);
      assert before + (had + got) == before + had + got;
      bytes := had + got;
    }

    /** One part's copy through the hashers: exactly its size, or the reason why not. */
    method HashSection(section: Body, k: nat) returns (bytes: Bytes, r: Option<HashError>)
      requires At(k) && k < plan.N() && |read| == plan.Lo(k)
      requires Faithful(config, k, |read|, Total(section.left).bytes)
      modifies section, this`read, this`now, report
      ensures At(k) && read == old(read) + bytes && now.ledger == old(now.ledger)
      ensures |bytes| <= plan.Size(k) && bytes <= Total(old(section.left)).bytes
      ensures r.None? ==> |bytes| == plan.Size(k)
      ensures r.None? <==> Fills(old(section.left), plan.Size(k))
      ensures r == Some(Changed) <==> |Total(old(section.left)).bytes| < plan.Size(k) && Total(old(section.left)).end == Eof
      ensures r == None || r == Some(Changed) || (r == Some(SourceUnread) && Total(old(section.left)).end.Broken?)
    {
      LoHi(plan, k);
      bytes := [];
      var size := plan.PartAt(k as int64).size as int;
      var end := More;
      ghost var script := section.left;
      OntoOnto([], [], Total(script));
      assert read + bytes == read;
      while |bytes| < size && end == More
        invariant |bytes| <= size == plan.Size(k) && size <= plan.Hi(k)
        invariant ReadSoFar(script, size, bytes, end, section.left)
        invariant At(k) && read == old(read) + bytes && now.ledger == old(now.ledger)
        invariant end == More ==> Faithful(config, k, |read|, Total(section.left).bytes)
        decreases |section.left|, size - |bytes|, if end == More then 1 else 0
      {
        bytes, end := CopyNext(section, k, size, bytes, script, old(read));
      }
      ReadAll(script, size, bytes, end, section.left);
      if end.Broken? {
        return bytes, Some(SourceUnread);
      }
      if |bytes| != size {
        return bytes, Some(Changed);
      }
      return bytes, None;
    }

    /** The machine has the digests of the parts queued so far. */
    ghost predicate Agrees(parts: seq<Manifest.BlobPart>, k: nat)
      reads this
    {
      && k <= |parts| && k == |now.ledger.digests|
      && forall j :: 0 <= j < k ==> now.ledger.digests[j] == parts[j].digest
    }

    /** How the pass ends. */
    ghost predicate Ended(how: P.HashPass)
      reads this, report
    {
      && config.Valid() && Led(config, HashesFile, begun, now)
      && now.hashing == how && now.read == read && now.report == report.State()
    }

    /** A part whose bytes are all read gets its entry, and joins the queue. */
    method Record(i: nat, bytes: Bytes, ghost before: Bytes, parts: array<Manifest.BlobPart>, ghost jobs: seq<QueuedPart>)
      requires At(i) && i < plan.N() == parts.Length && read == before + bytes
      requires |before| == plan.Lo(i) && |bytes| == plan.Size(i)
      requires |jobs| == i && Recorded(hash, plan, before, parts[..], jobs) && Agrees(parts[..], i)
      modifies parts, this`now
      ensures plan.Valid() && At(i + 1) && Agrees(parts[..], i + 1)
      ensures Recorded(hash, plan, read, parts[..], jobs + [QueuedPart(i, hash(bytes))])
      ensures |read| == if i + 1 < plan.N() then plan.Lo(i + 1) else plan.fileSize as int
    {
      LoHi(plan, i);
      if i + 1 < plan.N() {
        LoHi(plan, i + 1);
      }
      assert read[plan.Lo(i)..plan.Hi(i)] == bytes;
      ghost var was := parts[..];
      parts[i] := Manifest.BlobPart(hash(bytes), plan.PartAt(i as int64).size);
      StillRecorded(hash, plan, before, bytes, was, parts[..], jobs);
      Step(P.HashPart);
    }

    ghost method GiveUp(i: nat, before: Bytes, bytes: Bytes, parts: seq<Manifest.BlobPart>, jobs: seq<QueuedPart>)
      requires At(i) && read == before + bytes && Recorded(hash, plan, before, parts, jobs) && Agrees(parts, i)
      modifies this`now
      ensures Ended(P.HashFailed) && Agrees(parts, i) && plan.Valid() && Recorded(hash, plan, read, parts, jobs)
    {
      StillRecorded(hash, plan, before, bytes, parts, parts, jobs);
      Step(P.HashFail);
    }

    /** The parts before i are hashed, recorded and queued. */
    ghost predicate HashedTo(i: nat, parts: seq<Manifest.BlobPart>, jobs: seq<QueuedPart>)
      reads this, report
    {
      && At(i) && plan.Valid() && |parts| == plan.N() && |jobs| == i
      && Recorded(hash, plan, read, parts, jobs) && Agrees(parts, i)
      && |read| == if i < plan.N() then plan.Lo(i) else plan.fileSize as int
    }

    /** The pass ended at part i. */
    ghost predicate EndedAt(how: P.HashPass, i: nat, parts: seq<Manifest.BlobPart>, jobs: seq<QueuedPart>)
      reads this, report
    {
      && Ended(how) && plan.Valid() && |parts| == plan.N() && |jobs| == i
      && Recorded(hash, plan, read, parts, jobs) && Agrees(parts, i)
    }

    /** The body of the loop, for part i: copy it, and record and queue it when it is whole. */
    method HashPart(i: nat, script: seq<Delivery>, parts: array<Manifest.BlobPart>, ghost jobs: seq<QueuedPart>)
      returns (job: QueuedPart, failed: Option<HashError>)
      requires HashedTo(i, parts[..], jobs) && i < plan.N() && Faithful(config, i, |read|, Total(script).bytes)
      modifies parts, this`read, this`now, report
      ensures if failed.None? then HashedTo(i + 1, parts[..], jobs + [job]) else EndedAt(P.HashFailed, i, parts[..], jobs)
      ensures plan.Valid() && failed != Some(Cancelled) && (failed.None? <==> Fills(script, plan.Size(i)))
      ensures failed == Some(Changed) <==> Total(script).end == Eof && |Total(script).bytes| < plan.Size(i)
    {
      var section := new Body(script);
      ghost var before := read;
      var bytes;
      bytes, failed := HashSection(section, i);
      if failed.Some? {
        GiveUp(i, before, bytes, parts[..], jobs);
        return QueuedPart(i, ""), failed;
      }
      Record(i, bytes, before, parts, jobs);
      job := QueuedPart(i, hash(bytes));
    }

    /** Before each part the context is asked. */
    method HashNext(i: nat, script: seq<Delivery>, stop: bool, parts: array<Manifest.BlobPart>, ghost jobs: seq<QueuedPart>)
      returns (job: QueuedPart, failed: Option<HashError>)
      requires HashedTo(i, parts[..], jobs) && i < plan.N() && Faithful(config, i, |read|, Total(script).bytes)
      modifies parts, this`read, this`now, report
      ensures if failed.None? then HashedTo(i + 1, parts[..], jobs + [job]) else EndedAt(P.HashFailed, i, parts[..], jobs)
      ensures plan.Valid() && (failed.None? <==> !stop && Fills(script, plan.Size(i)))
      ensures failed == Some(Cancelled) <==> stop
      ensures failed == Some(Changed) <==> !stop && Total(script).end == Eof && |Total(script).bytes| < plan.Size(i)
    {
      if stop {
        Step(P.HashFail);
        return QueuedPart(i, ""), Some(Cancelled);
      }
      job, failed := HashPart(i, script, parts, jobs);
    }

    /** The context is open and the source delivers the part. */
    ghost predicate Done(sections: seq<seq<Delivery>>, stopped: nat -> bool, k: nat)
      requires plan.Valid() && k < |sections| == plan.N()
    {
      !stopped(k) && Fills(sections[k], plan.Size(k))
    }

    /** It fills parts in file order and queues each as soon as its digest is known; sections is what the
        source delivers for each part. */
    method HashParts(sections: seq<seq<Delivery>>, stopped: nat -> bool, parts: array<Manifest.BlobPart>)
      returns (jobs: seq<QueuedPart>, r: Result<Digest, HashError>)
      requires At(0) && read == [] && |sections| == plan.N() == parts.Length
      requires forall k: nat :: k < plan.N() ==> Faithful(config, k, plan.Lo(k), Total(sections[k]).bytes)
      modifies parts, this`read, this`now, report
      ensures plan.Valid() && Recorded(hash, plan, read, parts[..], jobs)
      ensures Agrees(parts[..], |jobs|) && Ended(if r.Ok? then P.HashDone else P.HashFailed)
      ensures r.Ok? ==> |jobs| == plan.N() && |read| == plan.fileSize as int && r.value == hash(read)
      ensures forall k: nat :: k < |jobs| ==> Done(sections, stopped, k)
      ensures r.Ok? <==> |jobs| == plan.N()
      ensures r.Err? ==> |jobs| < plan.N() && !Done(sections, stopped, |jobs|)
      ensures r == Err(Cancelled) <==> |jobs| < plan.N() && stopped(|jobs|)
      ensures r == Err(Changed) <==>
              && |jobs| < plan.N() && !stopped(|jobs|) && Total(sections[|jobs|]).end == Eof
              && |Total(sections[|jobs|]).bytes| < plan.Size(|jobs|)
    {
      jobs := [];
      LoHi(plan, 0);
      for i := 0 to parts.Length
        invariant HashedTo(i, parts[..], jobs)
        invariant forall k: nat :: k < i ==> Done(sections, stopped, k)
      {
        var job, failed := HashNext(i, sections[i], stopped(i), parts, jobs);
        if failed.Some? {
          return jobs, Err(failed.value);
        }
        jobs := jobs + [job];
      }
      Step(P.HashFinish);
      r := Ok(hash(read));
    }
  }

  // ---- the registry, as the blob port promises it ----

  /** What becomes of a request that carried every declared byte. */
  datatype PutAnswer = Stored | AnswerLost(transient: bool) | Refused(transient: bool)

  /** limits are the transport's reads, moved what the port reports of the bytes it moves. */
  datatype PutScript = PutScript(limits: seq<nat>, moved: seq<int>, answer: PutAnswer)

  datatype PutFailure = FromSource | FromPort(transient: bool)

  /** An account after the port has reported these movements. */
  ghost function Wired(a: Progress.Account, moved: seq<int>): Progress.Account
    decreases |moved|
  {
    if moved == [] then a else Wired(a.Wire(moved[0]), moved[1..])
  }

  lemma SendOnce(x: Expected, r: Reader, sent: Bytes, limits: seq<nat>, k: nat)
    requires k < |limits| && |sent| < x.size
    ensures
      var limit := Least(limits[k], x.size - |sent|);
      var h := ReadTagged(x, r, limit);
      Send(x, r, sent, limits[k..]) ==
      if h.end != Passing then Sent(sent + h.bytes, h.end, h.end == SourceBroke && |h.bytes| == limit)
      else Send(x, h.reader, sent + h.bytes, limits[k + 1..])
  {
    assert limits[k..][1..] == limits[k + 1..];
  }

  lemma SendEnds(x: Expected, r: Reader, sent: Bytes, limits: seq<nat>, k: nat)
    requires k <= |limits| && (k == |limits| || |sent| >= x.size)
    ensures Send(x, r, sent, limits[k..]) == Sent(sent, Passing, false)
  {
  }

  /** How a request ends, and whether the blob is stored. */
  datatype PutEnd = PutEnd(failed: Option<PutFailure>, stored: bool)

  /** The registry stores only bytes that have the declared size and hash to the digest. A request that stopped
      short is the source's failure when the source ended it, and worth repeating otherwise. */
  function EndOfPut(x: Expected, sent: Sent, answer: PutAnswer): PutEnd {
    if |sent.bytes| != x.size then
      PutEnd(Some(if sent.end == SourceBroke || sent.end == SourceChanged then FromSource else FromPort(true)), false)
    else if answer.Refused? then PutEnd(Some(FromPort(answer.transient)), false)
    else if x.hash(sent.bytes) != x.digest then PutEnd(Some(FromPort(false)), false)
    else PutEnd(if answer.AnswerLost? then Some(FromPort(answer.transient)) else None, true)
  }

  /** A registry with no answer left takes nothing. */
  function NextPut(puts: seq<PutScript>): PutScript {
    if puts == [] then PutScript([], [], Refused(false)) else puts[0]
  }

  /** held is the registry's blob set, putLog every digest Put was called for. */
  class Repo {
    var held: set<Digest>
    var asks: seq<Option<bool>>
    var puts: seq<PutScript>
    var putLog: seq<Digest>

    /** Whether the blob is held, or a failure and whether it is worth repeating. */
    method Exists(d: Digest) returns (r: Result<bool, bool>)
      modifies this`asks
      ensures asks == old(asks)[Least(1, |old(asks)|)..]
      ensures r == if old(asks) != [] && old(asks)[0].Some? then Err(old(asks)[0].value) else Ok(d in held)
    {
      if asks != [] {
        var head := asks[0];
        asks := asks[1..];
        if head.Some? {
          return Err(head.value);
        }
      }
      return Ok(d in held);
    }

    /** One read of the request. */
    method Take(content: TagSourceReads, bytes: Bytes, ghost limits: seq<nat>, k: nat, limit: nat)
      returns (got: Bytes, end: TagEnd)
      requires k < |limits| && |bytes| < content.want.size && limit == Least(limits[k], content.want.size - |bytes|)
      modifies content, content.source
      ensures
        Send(content.want, old(content.State()), bytes, limits[k..]) ==
        if end != Passing then Sent(bytes + got, end, end == SourceBroke && |got| == limit)
        else Send(content.want, content.State(), bytes + got, limits[k + 1..])
    {
      SendOnce(content.want, content.State(), bytes, limits, k);
      got, end := content.Read(limit);
    }

    /** The request: read the content by the transport's own buffer sizes, up to the declared size. */
    method Transport(content: TagSourceReads, limits: seq<nat>) returns (sent: Sent)
      modifies content, content.source
      ensures sent == Send(content.want, old(content.State()), [], limits)
    {
      var bytes: Bytes := [];
      var k := 0;
      ghost var whole := Send(content.want, content.State(), [], limits);
      assert limits[0..] == limits;
      while k < |limits| && |bytes| < content.want.size
        invariant 0 <= k <= |limits|
        invariant whole == Send(content.want, content.State(), bytes, limits[k..])
        decreases |limits| - k
      {
        var limit := Least(limits[k], content.want.size - |bytes|);
        var got, end := Take(content, bytes, limits, k, limit);
        bytes := bytes + got;
        if end != Passing {
          return Sent(bytes, end, end == SourceBroke && |got| == limit);
        }
        k := k + 1;
      }
      SendEnds(content.want, content.State(), bytes, limits, k);
      return Sent(bytes, Passing, false);
    }

    method Report(moved: seq<int>, report: Progress.Reporter)
      modifies report
      ensures report.State() == Wired(old(report.State()), moved)
    {
      for k := 0 to |moved|
        invariant Wired(report.State(), moved[k..]) == Wired(old(report.State()), moved)
      {
        report.Wire(moved[k]);
        assert moved[k..][1..] == moved[k + 1..];
      }
    }

    /** The registry stores only bytes that hash to the digest; a blob once held stays held. */
    method Put(content: TagSourceReads, report: Progress.Reporter) returns (r: Option<PutFailure>)
      requires content.State() == Reader(content.source.left, [], 0)
      modifies this, content, content.source, report
      ensures putLog == old(putLog) + [content.want.digest] && asks == old(asks)
      ensures held == old(held) || held == old(held) + {content.want.digest}
      ensures held != old(held) ==> exists sent: Bytes ::
                |sent| == content.want.size && content.want.hash(sent) == content.want.digest
                && sent <= Total(old(content.source.left)).bytes
      ensures
        var script := NextPut(old(puts));
        var end := EndOfPut(content.want, Send(content.want, old(content.State()), [], script.limits), script.answer);
        && r == end.failed && puts == old(puts)[Least(1, |old(puts)|)..]
        && held == if end.stored then old(held) + {content.want.digest} else old(held)
      ensures r.None? ==> content.want.digest in held
      ensures exists moved :: report.State() == Wired(old(report.State()), moved)
    {
      putLog := putLog + [content.want.digest];
      var script := PutScript([], [], Refused(false));
      if puts != [] {
        script := puts[0];
        puts := puts[1..];
      }
      SentIsPrefix(content.want, content.State(), [], script.limits);
      assert [] + Total(content.source.left).bytes == Total(content.source.left).bytes;
      Report(script.moved, report);
      var sent := Transport(content, script.limits);
      if |sent.bytes| != content.want.size {
        return Some(if sent.end == SourceBroke || sent.end == SourceChanged then FromSource else FromPort(true));
      }
      if script.answer.Refused? {
        return Some(FromPort(script.answer.transient));
      }
      if content.want.hash(sent.bytes) != content.want.digest {
        return Some(FromPort(false));
      }
      held := held + {content.want.digest};
      if script.answer.AnswerLost? {
        return Some(FromPort(script.answer.transient));
      }
      return None;
    }
  }
}
