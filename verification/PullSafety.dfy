/** What every move of every worker of a pull keeps, in every interleaving. */
module PullSafety {
  import opened Base
  import opened SplitPlan
  import opened PullSession

  /** What a worker's hasher has absorbed is what its part's range of the file holds. */
  ghost predicate Aligned(job: Job, s: Session, w: nat)
    requires job.Valid() && Has(job, s, w)
  {
    match s.workers[w]
    case Verifying(i, absorbed) => |absorbed| <= job.plan.Size(i) && absorbed == job.Head(s.file, i, |absorbed|)
    case Between(i, absorbed, done) => done <= job.plan.Size(i) && (0 < done ==> absorbed == job.Head(s.file, i, done))
    case Streaming(i, absorbed, from, written) =>
      from + written <= job.plan.Size(i) && absorbed == job.Head(s.file, i, from + written)
    case Whole(i, absorbed) => absorbed == job.Head(s.file, i, job.plan.Size(i))
    case _ => true
  }

  /** Every part is in exactly one place. */
  ghost predicate PlacesKept(job: Job, s: Session)
    requires job.Valid()
  {
    && |s.where| == job.plan.N()
    && |s.file| == job.plan.fileSize as int
    && (forall k :: 0 <= k < |s.queue| ==> s.queue[k] < |s.where| && s.where[s.queue[k]].Waiting?)
    && (forall k, m :: 0 <= k < m < |s.queue| ==> s.queue[k] != s.queue[m])
    && (forall j :: 0 <= j < |s.where| && s.where[j].Waiting? ==> j in s.queue)
    && (forall w :: 0 <= w < |s.workers| && s.workers[w].HasPart() ==>
                      s.workers[w].part < |s.where| && s.where[s.workers[w].part] == With(w))
    && (forall j :: 0 <= j < |s.where| && s.where[j].With? ==> HeldBy(s, j, s.where[j].worker))
    && (forall w :: 0 <= w < |s.workers| && s.workers[w].Gone? ==> s.queue == [])
    && (forall j :: 0 <= j < |s.where| && s.where[j].Lost? ==>
                      s.where[j].worker < |s.workers| && s.workers[s.where[j].worker].Failed?)
  }

  ghost predicate HeldBy(s: Session, j: nat, w: nat) {
    w < |s.workers| && s.workers[w].HasPart() && s.workers[w].part == j
  }

  ghost predicate AllAligned(job: Job, s: Session)
    requires job.Valid() && |s.where| == job.plan.N() && |s.file| == job.plan.fileSize as int
  {
    forall w :: 0 <= w < |s.workers| ==> Has(job, s, w) && Aligned(job, s, w)
  }

  /** A part counts as verified only while its range hashes to its digest. */
  ghost predicate VerifiedHold(hash: Hash, job: Job, s: Session)
    requires job.Valid() && |s.where| == job.plan.N() && |s.file| == job.plan.fileSize as int
  {
    forall j :: 0 <= j < |s.where| && s.where[j].Verified? ==> job.PartVerifies(hash, s.file, j)
  }

  ghost predicate Inv(hash: Hash, job: Job, s: Session) {
    job.Valid() && PlacesKept(job, s) && AllAligned(job, s) && VerifiedHold(hash, job, s)
  }

  lemma BeginKept(hash: Hash, job: Job, file: Bytes, pool: nat)
    requires job.Valid() && |file| == job.plan.fileSize as int
    ensures Inv(hash, job, Begin(job, file, pool))
  {
    var s := Begin(job, file, pool);
    forall j | 0 <= j < |s.where| && s.where[j].Waiting? ensures j in s.queue {
      assert s.queue[j] == j;
    }
  }

  // ---- what a write changes ----

  /** A write inside part i's range leaves every other part as it was. */
  lemma WriteElsewhere(job: Job, file: Bytes, i: nat, at: nat, bytes: Bytes, j: nat)
    requires job.Valid() && i < job.plan.N() && j < job.plan.N() && i != j
    requires |file| == job.plan.fileSize as int && at + |bytes| <= job.plan.Size(i)
    ensures job.plan.Slice(Put(job, file, i, at, bytes), j) == job.plan.Slice(file, j)
    ensures forall n: nat :: n <= job.plan.Size(j) ==> job.Head(Put(job, file, i, at, bytes), j, n) == job.Head(file, j, n)
  {
    LoHi(job.plan, i);
    LoHi(job.plan, j);
    if i < j {
      RangesDisjoint(job.plan, i, j);
    } else {
      RangesDisjoint(job.plan, j, i);
    }
    var after := Put(job, file, i, at, bytes);
    assert forall k :: job.plan.Lo(j) <= k < job.plan.Hi(j) ==> after[k] == file[k];
    assert job.plan.Slice(after, j) == job.plan.Slice(file, j);
    forall n: nat | n <= job.plan.Size(j) ensures job.Head(after, j, n) == job.Head(file, j, n) {
    }
  }

  /** A write that continues a range extends what the range holds by those bytes. */
  lemma WriteContinues(job: Job, file: Bytes, i: nat, at: nat, bytes: Bytes)
    requires job.Valid() && i < job.plan.N() && |file| == job.plan.fileSize as int && at + |bytes| <= job.plan.Size(i)
    ensures job.Head(Put(job, file, i, at, bytes), i, at + |bytes|) == job.Head(file, i, at) + bytes
  {
    LoHi(job.plan, i);
  }

  lemma ReadContinues(job: Job, file: Bytes, i: nat, at: nat, n: nat)
    requires job.Valid() && i < job.plan.N() && |file| == job.plan.fileSize as int && at + n <= job.plan.Size(i)
    ensures job.Head(file, i, at) + ReadAt(job, file, i, at, n) == job.Head(file, i, at + n)
  {
    LoHi(job.plan, i);
  }

  lemma HeadIsSlice(job: Job, file: Bytes, i: nat)
    requires job.Valid() && i < job.plan.N() && |file| == job.plan.fileSize as int
    ensures job.Head(file, i, job.plan.Size(i)) == job.plan.Slice(file, i)
  {
    LoHi(job.plan, i);
  }

  // ---- one move ----

  lemma PlacesReceive(hash: Hash, job: Job, resume: bool, s: Session, w: nat)
    requires job.Valid() && PlacesKept(job, s) && Can(job, s, Receive(w))
    ensures PlacesKept(job, Do(hash, job, resume, s, Receive(w)))
  {
    var t := Do(hash, job, resume, s, Receive(w));
    forall j | 0 <= j < |t.where| && t.where[j].Waiting? ensures j in t.queue {
      PopKeepsRest(s.queue, j);
    }
    forall j | 0 <= j < |t.where| && t.where[j].With? ensures HeldBy(t, j, t.where[j].worker) {
      assert j != s.queue[0] ==> HeldBy(s, j, s.where[j].worker);
    }
  }

  /** Moves that only change what a worker holds of its own part. */
  lemma PlacesSame(job: Job, s: Session, t: Session, w: nat)
    requires job.Valid() && PlacesKept(job, s) && w < |s.workers|
    requires t.where == s.where && t.queue == s.queue && |t.file| == |s.file|
    requires |t.workers| == |s.workers| && t.workers == s.workers[w := t.workers[w]]
    requires t.workers[w].HasPart() == s.workers[w].HasPart()
    requires t.workers[w].HasPart() ==> t.workers[w].part == s.workers[w].part
    requires t.workers[w].Gone? ==> s.queue == []
    requires !s.workers[w].Failed?
    ensures PlacesKept(job, t)
  {
    forall j | 0 <= j < |t.where| && t.where[j].With? ensures HeldBy(t, j, t.where[j].worker) {
      assert HeldBy(s, j, s.where[j].worker);
    }
  }

  /** Moves that end a worker's part, one way or the other. */
  lemma PlacesEnd(job: Job, s: Session, t: Session, w: nat)
    requires job.Valid() && PlacesKept(job, s) && w < |s.workers| && s.workers[w].HasPart()
    requires t.queue == s.queue && |t.file| == |s.file| && |t.workers| == |s.workers|
    requires t.workers == s.workers[w := t.workers[w]]
    requires
      || (t.workers[w].Ready? && t.where == s.where[s.workers[w].part := Verified])
      || (t.workers[w].Failed? && t.where == s.where[s.workers[w].part := Lost(w)])
    ensures PlacesKept(job, t)
  {
    forall j | 0 <= j < |t.where| && t.where[j].With? ensures HeldBy(t, j, t.where[j].worker) {
      assert HeldBy(s, j, s.where[j].worker);
    }
  }

  lemma PlacesStep(hash: Hash, job: Job, resume: bool, s: Session, move: Move)
    requires job.Valid() && PlacesKept(job, s) && Can(job, s, move)
    ensures PlacesKept(job, Do(hash, job, resume, s, move))
  {
    var w := move.w;
    var t := Do(hash, job, resume, s, move);
    if move.Receive? {
      PlacesReceive(hash, job, resume, s, w);
    } else if s.workers[w].HasPart() && (t.workers[w].Ready? || t.workers[w].Failed?) {
      PlacesEnd(job, s, t, w);
    } else {
      PlacesSame(job, s, t, w);
    }
  }

  /** What a worker does to its own part keeps its hasher and its range in step. */
  lemma AlignedOwn(hash: Hash, job: Job, resume: bool, s: Session, move: Move)
    requires job.Valid() && Can(job, s, move) && Aligned(job, s, move.w)
    requires !move.Chunk? && !move.VerifyRead? && !move.Open?
    ensures Has(job, Do(hash, job, resume, s, move), move.w)
    ensures Aligned(job, Do(hash, job, resume, s, move), move.w)
  {
  }

  lemma AlignedOpen(hash: Hash, job: Job, resume: bool, s: Session, w: nat, start: nat)
    requires job.Valid() && Can(job, s, Open(w, start)) && Aligned(job, s, w)
    ensures Has(job, Do(hash, job, resume, s, Open(w, start)), w)
    ensures Aligned(job, Do(hash, job, resume, s, Open(w, start)), w)
  {
  }

  lemma AlignedVerify(hash: Hash, job: Job, resume: bool, s: Session, w: nat, n: nat)
    requires job.Valid() && Can(job, s, VerifyRead(w, n)) && Aligned(job, s, w)
    ensures Has(job, Do(hash, job, resume, s, VerifyRead(w, n)), w)
    ensures Aligned(job, Do(hash, job, resume, s, VerifyRead(w, n)), w)
  {
    var f := s.workers[w];
    ReadContinues(job, s.file, f.part, |f.absorbed|, n);
  }

  lemma AlignedChunk(hash: Hash, job: Job, resume: bool, s: Session, w: nat, bytes: Bytes)
    requires job.Valid() && Can(job, s, Chunk(w, bytes)) && Aligned(job, s, w)
    ensures Has(job, Do(hash, job, resume, s, Chunk(w, bytes)), w)
    ensures Aligned(job, Do(hash, job, resume, s, Chunk(w, bytes)), w)
  {
    var f := s.workers[w];
    WriteContinues(job, s.file, f.part, f.from + f.written, bytes);
  }

  lemma AlignedMover(hash: Hash, job: Job, resume: bool, s: Session, move: Move)
    requires job.Valid() && Can(job, s, move) && Aligned(job, s, move.w)
    ensures Has(job, Do(hash, job, resume, s, move), move.w)
    ensures Aligned(job, Do(hash, job, resume, s, move), move.w)
  {
    match move
    case Chunk(w, bytes) => AlignedChunk(hash, job, resume, s, w, bytes);
    case VerifyRead(w, n) => AlignedVerify(hash, job, resume, s, w, n);
    case Open(w, start) => AlignedOpen(hash, job, resume, s, w, start);
    case _ => AlignedOwn(hash, job, resume, s, move);
  }

  /** A worker whose part and state another step leaves alone is still in step, if the file's bytes in
      its range are the same. */
  lemma AlignedFrame(job: Job, s: Session, t: Session, v: nat)
    requires job.Valid() && Has(job, s, v) && Aligned(job, s, v)
    requires v < |t.workers| && t.workers[v] == s.workers[v] && |t.where| == |s.where| && |t.file| == |s.file|
    requires s.workers[v].HasPart() ==>
               forall n: nat :: n <= job.plan.Size(s.workers[v].part) ==>
                 job.Head(t.file, s.workers[v].part, n) == job.Head(s.file, s.workers[v].part, n)
    ensures Has(job, t, v) && Aligned(job, t, v)
  {
  }

  /** Nobody else's step disturbs a worker: it writes only inside its own part's range. */
  lemma AlignedOther(hash: Hash, job: Job, resume: bool, s: Session, move: Move, v: nat)
    requires job.Valid() && Can(job, s, move) && Has(job, s, v) && Aligned(job, s, v) && v != move.w
    requires s.workers[v].HasPart() && s.workers[move.w].HasPart() ==> s.workers[v].part != s.workers[move.w].part
    ensures Has(job, Do(hash, job, resume, s, move), v) && Aligned(job, Do(hash, job, resume, s, move), v)
  {
    var t := Do(hash, job, resume, s, move);
    var f := s.workers[move.w];
    if s.workers[v].HasPart() {
      var bytes := if move.Chunk? then move.bytes else if move.WriteRefused? then move.bytes[..move.taken] else [];
      if move.Chunk? || move.WriteRefused? {
        WriteElsewhere(job, s.file, f.part, f.from + f.written, bytes, s.workers[v].part);
        assert t.file == Put(job, s.file, f.part, f.from + f.written, bytes);
      } else {
        assert t.file == s.file;
      }
    }
    AlignedFrame(job, s, t, v);
  }

  lemma AlignedStep(hash: Hash, job: Job, resume: bool, s: Session, move: Move)
    requires job.Valid() && PlacesKept(job, s) && AllAligned(job, s) && Can(job, s, move)
    ensures AllAligned(job, Do(hash, job, resume, s, move))
  {
    var t := Do(hash, job, resume, s, move);
    forall v | 0 <= v < |t.workers| ensures Has(job, t, v) && Aligned(job, t, v) {
      assert Has(job, s, v) && Aligned(job, s, v);
      if v == move.w {
        AlignedMover(hash, job, resume, s, move);
      } else {
        AlignedOther(hash, job, resume, s, move, v);
      }
    }
  }

  /** A part whose range has been verified is never written again: whatever a worker writes next, it
      writes inside its own part, which is another one. */
  lemma VerifiedNeverWritten(hash: Hash, job: Job, resume: bool, s: Session, move: Move, j: nat)
    requires job.Valid() && PlacesKept(job, s) && Can(job, s, move)
    requires j < |s.where| && s.where[j].Verified?
    ensures
      var t := Do(hash, job, resume, s, move);
      |t.where| == |s.where| && t.where[j].Verified? && job.plan.Slice(t.file, j) == job.plan.Slice(s.file, j)
  {
    var f := s.workers[move.w];
    match move
    case Chunk(_, bytes) => WriteElsewhere(job, s.file, f.part, f.from + f.written, bytes, j);
    case WriteRefused(_, bytes, taken) => WriteElsewhere(job, s.file, f.part, f.from + f.written, bytes[..taken], j);
    case _ =>
  }

  /** The part a move puts in place hashes to its digest. */
  lemma NewlyVerified(hash: Hash, job: Job, resume: bool, s: Session, move: Move, j: nat)
    requires job.Valid() && Can(job, s, move) && Aligned(job, s, move.w)
    requires j < |s.where| && !s.where[j].Verified? && Do(hash, job, resume, s, move).where[j].Verified?
    ensures job.PartVerifies(hash, Do(hash, job, resume, s, move).file, j)
  {
    HeadIsSlice(job, s.file, j);
  }

  lemma VerifiedStep(hash: Hash, job: Job, resume: bool, s: Session, move: Move)
    requires Inv(hash, job, s) && Can(job, s, move)
    ensures VerifiedHold(hash, job, Do(hash, job, resume, s, move))
  {
    var t := Do(hash, job, resume, s, move);
    forall j | 0 <= j < |t.where| && t.where[j].Verified? ensures job.PartVerifies(hash, t.file, j) {
      if s.where[j].Verified? {
        VerifiedNeverWritten(hash, job, resume, s, move, j);
      } else {
        assert Aligned(job, s, move.w);
        NewlyVerified(hash, job, resume, s, move, j);
      }
    }
  }

  lemma MoveKept(hash: Hash, job: Job, resume: bool, s: Session, move: Move)
    requires Inv(hash, job, s) && Can(job, s, move)
    ensures Inv(hash, job, Do(hash, job, resume, s, move))
  {
    PlacesStep(hash, job, resume, s, move);
    AlignedStep(hash, job, resume, s, move);
    VerifiedStep(hash, job, resume, s, move);
  }

  /** When every worker has returned without an error, every part of the file verifies. */
  lemma AllReturnedVerified(hash: Hash, job: Job, s: Session)
    requires Inv(hash, job, s) && 0 < |s.workers| && forall w :: 0 <= w < |s.workers| ==> s.workers[w].Gone?
    ensures job.Describes(hash, s.file)
  {
    assert s.workers[0].Gone?;
    forall j: nat | j < job.plan.N() ensures job.PartVerifies(hash, s.file, j) {
      assert s.where[j].With? ==> HeldBy(s, j, s.where[j].worker);
      assert s.where[j].Verified?;
    }
  }
}
