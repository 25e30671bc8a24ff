/** The workers of one pull, sharing one partial file (internal/transfer/pull.go). A move is one
    chunk copied, one bounded read of the partial file, or one port call, by one worker; bodies,
    failures and retries are the environment's choice. */
module PullSession {
  import opened Base
  import opened SplitPlan

  /** What a decoded manifest fixes. */
  datatype Job = Job(plan: Plan, digests: seq<Digest>) {
    ghost predicate Valid() {
      plan.Valid() && |digests| == plan.N()
    }

    /** The first n bytes of part i's range. */
    ghost function Head(file: Bytes, i: nat, n: nat): Bytes
      requires Valid() && i < plan.N() && |file| == plan.fileSize as int && n <= plan.Size(i)
    {
      LoHi(plan, i);
      file[plan.Lo(i)..plan.Lo(i) + n]
    }

    ghost predicate PartVerifies(hash: Hash, file: Bytes, i: nat)
      requires Valid() && i < plan.N() && |file| == plan.fileSize as int
    {
      hash(plan.Slice(file, i)) == digests[i]
    }

    /** A file this manifest describes: the right length, and every part hashes to its digest. */
    ghost predicate Describes(hash: Hash, file: Bytes) {
      && Valid()
      && |file| == plan.fileSize as int
      && forall i: nat :: i < plan.N() ==> PartVerifies(hash, file, i)
    }
  }

  /** Where a worker is with its part. absorbed is what its hasher has taken since its last reset. */
  datatype Fetcher =
    | Ready
    | Verifying(part: nat, absorbed: Bytes)
    | Between(part: nat, absorbed: Bytes, done: nat)
    | Streaming(part: nat, absorbed: Bytes, from: nat, written: nat)
    | Whole(part: nat, absorbed: Bytes)
    | Gone
    | Failed
  {
    predicate HasPart() {
      Verifying? || Between? || Streaming? || Whole?
    }
  }

  /** History: where each part stands. */
  datatype Place = Waiting | With(worker: nat) | Verified | Lost(worker: nat)

  datatype Session = Session(file: Bytes, queue: seq<nat>, workers: seq<Fetcher>, where: seq<Place>)

  datatype Move =
    | Receive(w: nat)
    | VerifyRead(w: nat, n: nat)
    | VerifyEnd(w: nat)
    | Open(w: nat, start: nat)
    | OpenBreaks(w: nat)
    | Chunk(w: nat, bytes: Bytes)
    | WriteRefused(w: nat, bytes: Bytes, taken: nat)
    | StreamBreaks(w: nat)
    | Drained(w: nat)
    | TailBreaks(w: nat)
    | Check(w: nat)
    | GiveUp(w: nat)
    | Leave(w: nat)

  /** The file after bytes are written at an offset. */
  ghost function Written(file: Bytes, at: nat, bytes: Bytes): (r: Bytes)
    requires at + |bytes| <= |file|
    ensures |r| == |file|
  {
    file[..at] + bytes + file[at + |bytes|..]
  }

  ghost function Begin(job: Job, file: Bytes, pool: nat): Session
    requires job.Valid()
  {
    Session(file, seq(job.plan.N(), i => i), seq(pool, _ => Ready), seq(job.plan.N(), _ => Waiting))
  }

  /** Where the next attempt asks to begin: a part that has all its bytes is asked for whole. */
  ghost function Asked(job: Job, i: nat, done: nat): nat
    requires job.Valid() && i < job.plan.N()
  {
    if done == job.plan.Size(i) then 0 else done
  }

  ghost predicate Has(job: Job, s: Session, w: nat)
    requires job.Valid()
  {
    && w < |s.workers|
    && |s.where| == job.plan.N()
    && |s.file| == job.plan.fileSize as int
    && (s.workers[w].HasPart() ==> s.workers[w].part < job.plan.N())
  }

  ghost predicate Can(job: Job, s: Session, move: Move)
    requires job.Valid()
  {
    Has(job, s, move.w) &&
    var f := s.workers[move.w];
    match move
    case Receive(_) => f.Ready? && s.queue != [] && s.queue[0] < job.plan.N()
    case VerifyRead(_, n) => f.Verifying? && 0 < n && |f.absorbed| + n <= job.plan.Size(f.part)
    case VerifyEnd(_) => f.Verifying? && |f.absorbed| == job.plan.Size(f.part)
    case Open(_, start) => f.Between?
    case OpenBreaks(_) => f.Between?
    case Chunk(_, bytes) => f.Streaming? && 0 < |bytes| && f.from + f.written + |bytes| <= job.plan.Size(f.part)
    case WriteRefused(_, bytes, taken) =>
      f.Streaming? && f.from + f.written + |bytes| <= job.plan.Size(f.part) && taken <= |bytes|
    case StreamBreaks(_) => f.Streaming?
    case Drained(_) => f.Streaming? && f.from + f.written == job.plan.Size(f.part)
    case TailBreaks(_) => f.Whole?
    case Check(_) => f.Whole?
    case GiveUp(_) => !f.Gone? && !f.Failed?
    case Leave(_) => f.Ready? && s.queue == []
  }

  ghost function Set(s: Session, w: nat, to: Fetcher): Session
    requires w < |s.workers|
  {
    s.(workers := s.workers[w := to])
  }

  ghost function Fail(s: Session, w: nat): Session
    requires w < |s.workers| && (s.workers[w].HasPart() ==> s.workers[w].part < |s.where|)
  {
    if s.workers[w].HasPart() then Set(s, w, Failed).(where := s.where[s.workers[w].part := Lost(w)])
    else Set(s, w, Failed)
  }

  /** The part is in place: its bytes hash to its digest. */
  ghost function PlacePart(s: Session, w: nat): Session
    requires w < |s.workers| && s.workers[w].HasPart() && s.workers[w].part < |s.where|
  {
    Set(s, w, Ready).(where := s.where[s.workers[w].part := Verified])
  }

  ghost function Do(hash: Hash, job: Job, resume: bool, s: Session, move: Move): Session
    requires job.Valid() && Can(job, s, move)
  {
    var w := move.w;
    var f := s.workers[w];
    match move
    case Receive(_) =>
      var i := s.queue[0];
      Set(s, w, if resume then Verifying(i, []) else Between(i, [], 0)).(queue := s.queue[1..], where := s.where[i := With(w)])
    case VerifyRead(_, n) =>
      Set(s, w, Verifying(f.part, f.absorbed + ReadAt(job, s.file, f.part, |f.absorbed|, n)))
    case VerifyEnd(_) =>
      if hash(f.absorbed) == job.digests[f.part] then PlacePart(s, w) else Set(s, w, Between(f.part, f.absorbed, 0))
    case Open(_, start) =>
      var asked := Asked(job, f.part, f.done);
      if start != 0 && start != asked then Fail(s, w)
      else if start == 0 then Set(s, w, Streaming(f.part, [], 0, 0))
      else Set(s, w, Streaming(f.part, f.absorbed, asked, 0))
    case OpenBreaks(_) => Set(s, w, Between(f.part, f.absorbed, Asked(job, f.part, f.done)))
    case Chunk(_, bytes) =>
      Set(s, w, Streaming(f.part, f.absorbed + bytes, f.from, f.written + |bytes|)).(
      file := Put(job, s.file, f.part, f.from + f.written, bytes))
    case WriteRefused(_, bytes, taken) =>
      Fail(s, w).(file := Put(job, s.file, f.part, f.from + f.written, bytes[..taken]))
    case StreamBreaks(_) => Set(s, w, Between(f.part, f.absorbed, f.from + f.written))
    case Drained(_) => Set(s, w, Whole(f.part, f.absorbed))
    case TailBreaks(_) => Set(s, w, Between(f.part, f.absorbed, job.plan.Size(f.part)))
    case Check(_) => if hash(f.absorbed) == job.digests[f.part] then PlacePart(s, w) else Fail(s, w)
    case GiveUp(_) => Fail(s, w)
    case Leave(_) => Set(s, w, Gone)
  }

  ghost function ReadAt(job: Job, file: Bytes, i: nat, at: nat, n: nat): Bytes
    requires job.Valid() && i < job.plan.N() && |file| == job.plan.fileSize as int && at + n <= job.plan.Size(i)
  {
    LoHi(job.plan, i);
    file[job.plan.Lo(i) + at..job.plan.Lo(i) + at + n]
  }

  /** A write at a position of part i's own range: the worker's OffsetWriter. */
  ghost function Put(job: Job, file: Bytes, i: nat, at: nat, bytes: Bytes): (r: Bytes)
    requires job.Valid() && i < job.plan.N() && |file| == job.plan.fileSize as int && at + |bytes| <= job.plan.Size(i)
    ensures |r| == |file|
  {
    LoHi(job.plan, i);
    Written(file, job.plan.Lo(i) + at, bytes)
  }
}
