/** What the reporter of a pull counts, while its workers interleave (internal/transfer/pull.go over
    internal/transfer/progress.go): bytes hashed out of the partial file, parts put in place. */
module PullReport {
  import opened Base
  import opened SplitPlan
  import opened Counting
  import opened PullSession
  import Safety = PullSafety
  import PartSizes
  import Progress

  /** hashed is history: how much of each part the resume pass has hashed. */
  datatype Watched = Watched(session: Session, report: Progress.Account, hashed: seq<nat>)

  datatype Event = Work(move: Move) | RetryNoted | Finalize | Finish(failed: bool)

  /** A pull begins resolving, and fetching its manifest may take so many retries. */
  ghost function Resolving(retries: nat): Progress.Account {
    if retries == 0 then Progress.EMPTY_ACCOUNT.Begin(Progress.Resolving, 0, 0) else Resolving(retries - 1).Retried()
  }

  /** Then it learns its totals from the manifest. */
  ghost function Begun(job: Job, file: Bytes, pool: nat, retries: nat): Watched
    requires job.Valid()
  {
    Watched(
      Begin(job, file, pool),
      Resolving(retries).Measured(job.plan.fileSize as int, job.plan.N()),
      seq(job.plan.N(), _ => 0))
  }

  ghost predicate CanDo(job: Job, v: Watched, event: Event)
    requires job.Valid()
  {
    match event
    case Work(move) => Can(job, v.session, move) && !v.report.closed
    case RetryNoted => true
    case Finalize => Done(v.session) && v.report.snap.phase == Progress.Transferring
    case Finish(failed) => !failed ==> Done(v.session)
  }

  ghost predicate Done(s: Session) {
    0 < |s.workers| && forall w :: 0 <= w < |s.workers| ==> s.workers[w].Gone?
  }

  /** What a worker's move records. */
  ghost function Recorded(hash: Hash, job: Job, v: Watched, move: Move): Progress.Account
    requires job.Valid() && Can(job, v.session, move)
  {
    var f := v.session.workers[move.w];
    match move
    case VerifyRead(_, n) => v.report.Hashed(n)
    case Chunk(_, bytes) => v.report.Wire(|bytes|)
    case VerifyEnd(_) =>
      if hash(f.absorbed) == job.digests[f.part] then v.report.Complete(f.part, job.plan.Size(f.part), true) else v.report
    case Check(_) =>
      if hash(f.absorbed) == job.digests[f.part] then v.report.Complete(f.part, job.plan.Size(f.part), false) else v.report
    case _ => v.report
  }

  ghost function After(hash: Hash, job: Job, resume: bool, v: Watched, event: Event): Watched
    requires job.Valid() && CanDo(job, v, event) && |v.hashed| == job.plan.N()
  {
    match event
    case Work(move) =>
      Watched(
        Do(hash, job, resume, v.session, move), Recorded(hash, job, v, move),
        if move.VerifyRead? then
          var i := v.session.workers[move.w].part;
          v.hashed[i := v.hashed[i] + move.n]
        else v.hashed)
    case RetryNoted => v.(report := v.report.Retried())
    case Finalize => v.(report := v.report.Finalizing())
    case Finish(failed) => v.(report := v.report.Finish(failed))
  }

  ghost function VerifiedParts(s: Session): set<nat> {
    set i: nat | i < |s.where| && s.where[i].Verified?
  }

  /** A part is hashed out of the file once, by the worker that has it. */
  ghost predicate HashedKept(job: Job, v: Watched)
    requires job.Valid() && Safety.PlacesKept(job, v.session)
  {
    && |v.hashed| == job.plan.N()
    && (forall i :: 0 <= i < |v.hashed| ==> HashedOf(job, v, i))
    && (forall w :: 0 <= w < |v.session.workers| ==> HashingOf(v, w))
    && v.report.snap.hashedBytes == Total(v.hashed, Below(job.plan.N()))
  }

  ghost predicate HashedOf(job: Job, v: Watched, i: nat)
    requires job.Valid() && i < |v.hashed| == job.plan.N() == |v.session.where|
  {
    v.hashed[i] <= job.plan.Size(i) && (v.session.where[i].Waiting? ==> v.hashed[i] == 0)
  }

  ghost predicate HashingOf(v: Watched, w: nat)
    requires w < |v.session.workers|
  {
    var f := v.session.workers[w];
    f.Verifying? ==> f.part < |v.hashed| && v.hashed[f.part] == |f.absorbed|
  }

  /** The account has credited exactly the verified parts. */
  ghost predicate CreditKept(job: Job, v: Watched)
    requires job.Valid()
  {
    var done := VerifiedParts(v.session);
    && v.report.Kept()
    && v.report.snap.totalBytes == job.plan.fileSize as int
    && v.report.snap.totalParts == |v.report.credited| == job.plan.N() == |v.session.where|
    && (forall i: nat :: i < job.plan.N() ==> (v.report.credited[i] <==> i in done))
    && v.report.snap.completedParts == |done|
    && v.report.snap.completedBytes == Total(PartSizes.SizesOf(job.plan), done)
    && !(v.report.snap.phase == Progress.Resolving)
  }

  ghost predicate Inv(hash: Hash, job: Job, v: Watched) {
    && Safety.Inv(hash, job, v.session)
    && HashedKept(job, v)
    && CreditKept(job, v)
  }

  /** While it resolves, everything a snapshot counts but the retries is zero. */
  ghost predicate Unmeasured(snap: Progress.Snapshot) {
    && snap.totalParts == 0 && snap.totalBytes == 0
    && snap.completedParts == 0 && snap.completedBytes == 0 && snap.hashedBytes == 0
  }

  lemma {:induction false} ResolvingKept(retries: nat)
    ensures
      var a := Resolving(retries);
      && a.Kept() && !a.closed && a.snap.phase == Progress.Resolving && Unmeasured(a.snap)
      && a.credited == []
      && (forall snap :: snap in a.log ==> Unmeasured(snap))
    decreases retries
  {
    if retries == 0 {
      Progress.BeginKept(Progress.Resolving, 0, 0);
    } else {
      ResolvingKept(retries - 1);
      Progress.CallKept(Resolving(retries - 1), Progress.CallRetried);
    }
  }

  lemma BegunCounts(job: Job, file: Bytes, pool: nat, retries: nat)
    requires job.Valid() && |file| == job.plan.fileSize as int
    ensures CreditKept(job, Begun(job, file, pool, retries))
  {
    ResolvingKept(retries);
    Progress.CallKept(Resolving(retries), Progress.CallMeasured(job.plan.fileSize as int, job.plan.N()));
    assert VerifiedParts(Begin(job, file, pool)) == {};
    TotalNone(PartSizes.SizesOf(job.plan));
  }

  lemma BegunUnhashed(job: Job, retries: nat)
    requires job.Valid()
    ensures Resolving(retries).Measured(job.plan.fileSize as int, job.plan.N()).snap.hashedBytes == 0
  {
    ResolvingKept(retries);
  }

  lemma BegunHashed(job: Job, file: Bytes, pool: nat, retries: nat)
    requires job.Valid() && Safety.PlacesKept(job, Begin(job, file, pool))
    ensures HashedKept(job, Begun(job, file, pool, retries))
  {
    var v := Begun(job, file, pool, retries);
    TotalZero(v.hashed, Below(job.plan.N()));
    BegunUnhashed(job, retries);
    forall i | 0 <= i < |v.hashed| ensures HashedOf(job, v, i) {
    }
    forall w | 0 <= w < |v.session.workers| ensures HashingOf(v, w) {
    }
  }

  lemma BegunKept(hash: Hash, job: Job, file: Bytes, pool: nat, retries: nat)
    requires job.Valid() && |file| == job.plan.fileSize as int
    ensures Inv(hash, job, Begun(job, file, pool, retries))
  {
    Safety.BeginKept(hash, job, file, pool);
    BegunCounts(job, file, pool, retries);
    BegunHashed(job, file, pool, retries);
  }

  // ---- hashed bytes ----

  /** A move that hashes nothing changes no count, and no part goes back to waiting. */
  lemma HashedSame(hash: Hash, job: Job, resume: bool, v: Watched, move: Move)
    requires job.Valid() && CanDo(job, v, Work(move)) && Safety.PlacesKept(job, v.session)
    requires HashedKept(job, v) && !move.VerifyRead?
    requires Safety.PlacesKept(job, Do(hash, job, resume, v.session, move))
    ensures HashedKept(job, After(hash, job, resume, v, Work(move)))
  {
    var t := After(hash, job, resume, v, Work(move));
    forall i | 0 <= i < |t.hashed| ensures HashedOf(job, t, i) {
      assert HashedOf(job, v, i);
    }
    if move.Receive? {
      assert HashedOf(job, v, v.session.queue[0]);
    }
    forall w | 0 <= w < |t.session.workers| ensures HashingOf(t, w) {
      assert HashingOf(v, w);
      HashingSame(hash, job, resume, v, move, w);
    }
    assert t.report.snap.hashedBytes == v.report.snap.hashedBytes;
  }

  lemma HashingSame(hash: Hash, job: Job, resume: bool, v: Watched, move: Move, w: nat)
    requires job.Valid() && CanDo(job, v, Work(move)) && !move.VerifyRead? && w < |v.session.workers|
    requires |v.hashed| == job.plan.N() && HashingOf(v, w)
    requires move.Receive? ==> v.hashed[v.session.queue[0]] == 0
    ensures w < |After(hash, job, resume, v, Work(move)).session.workers|
    ensures HashingOf(After(hash, job, resume, v, Work(move)), w)
  {
  }

  /** No other worker is hashing the part this one hashes. */
  lemma HashingMore(job: Job, v: Watched, t: Watched, w: nat, u: nat, n: nat)
    requires job.Valid() && Safety.PlacesKept(job, v.session) && Can(job, v.session, VerifyRead(w, n))
    requires u < |v.session.workers| && |v.hashed| == job.plan.N() && HashingOf(v, w) && HashingOf(v, u)
    requires |t.session.workers| == |v.session.workers|
    requires u != w ==> t.session.workers[u] == v.session.workers[u]
    requires u == w ==> t.session.workers[u].Verifying? && t.session.workers[u].part == v.session.workers[u].part
                        && |t.session.workers[u].absorbed| == |v.session.workers[u].absorbed| + n
    requires
      var i := v.session.workers[w].part;
      t.hashed == v.hashed[i := v.hashed[i] + n]
    ensures HashingOf(t, u)
  {
  }

  lemma HashedMore(hash: Hash, job: Job, resume: bool, v: Watched, w: nat, n: nat)
    requires job.Valid() && CanDo(job, v, Work(VerifyRead(w, n))) && Safety.PlacesKept(job, v.session)
    requires HashedKept(job, v)
    requires Safety.PlacesKept(job, Do(hash, job, resume, v.session, VerifyRead(w, n)))
    ensures HashedKept(job, After(hash, job, resume, v, Work(VerifyRead(w, n))))
  {
    var t := After(hash, job, resume, v, Work(VerifyRead(w, n)));
    var i := v.session.workers[w].part;
    assert HashingOf(v, w);
    TotalRaise(v.hashed, Below(job.plan.N()), i, n);
    forall u | 0 <= u < |t.session.workers| ensures HashingOf(t, u) {
      assert HashingOf(v, u);
      HashingMore(job, v, t, w, u, n);
    }
    HashedOfMore(job, v, t, i, n);
    assert t.report.snap.hashedBytes == v.report.snap.hashedBytes + n;
  }

  lemma HashedOfMore(job: Job, v: Watched, t: Watched, i: nat, n: nat)
    requires job.Valid() && |v.hashed| == job.plan.N() == |v.session.where| && t.session.where == v.session.where
    requires i < |v.hashed| && v.hashed[i] + n <= job.plan.Size(i) && !v.session.where[i].Waiting?
    requires t.hashed == v.hashed[i := v.hashed[i] + n]
    requires forall j :: 0 <= j < |v.hashed| ==> HashedOf(job, v, j)
    ensures forall j :: 0 <= j < |t.hashed| ==> HashedOf(job, t, j)
  {
    forall j | 0 <= j < |t.hashed| ensures HashedOf(job, t, j) {
      assert HashedOf(job, v, j);
    }
  }

  // ---- credited parts ----

  lemma NewlyPlaced(hash: Hash, job: Job, resume: bool, s: Session, move: Move)
    requires job.Valid() && Can(job, s, move) && Safety.PlacesKept(job, s)
    ensures
      var f := s.workers[move.w];
      VerifiedParts(Do(hash, job, resume, s, move)) ==
      if (move.VerifyEnd? || move.Check?) && hash(f.absorbed) == job.digests[f.part] then VerifiedParts(s) + {f.part}
      else VerifiedParts(s)
    ensures |Do(hash, job, resume, s, move).where| == |s.where|
    ensures s.workers[move.w].HasPart() ==> s.workers[move.w].part !in VerifiedParts(s)
  {
    var t := Do(hash, job, resume, s, move);
    forall i: nat | i < |s.where| && s.where[i].Verified? ensures t.where[i].Verified? {
      Safety.VerifiedNeverWritten(hash, job, resume, s, move, i);
    }
  }

  /** Crediting a part not credited before. */
  lemma CreditOne(job: Job, a: Progress.Account, done: set<nat>, i: nat, skipped: bool)
    requires job.Valid() && i < job.plan.N() == |a.credited| && !a.closed && !a.credited[i] && i !in done
    requires a.snap.completedParts == |done| && a.snap.completedBytes == Total(PartSizes.SizesOf(job.plan), done)
    ensures
      var b := a.Complete(i, job.plan.Size(i), skipped);
      && b.snap.completedParts == |done + {i}| && b.snap.completedBytes == Total(PartSizes.SizesOf(job.plan), done + {i})
      && b.credited == a.credited[i := true]
      && b.snap.totalBytes == a.snap.totalBytes && b.snap.totalParts == a.snap.totalParts && b.snap.phase == a.snap.phase
  {
    TotalAdd(PartSizes.SizesOf(job.plan), done, i);
  }

  /** A move that puts no part in place credits none. */
  lemma CreditSame(job: Job, v: Watched, t: Watched, call: Progress.Call)
    requires job.Valid() && CreditKept(job, v) && VerifiedParts(t.session) == VerifiedParts(v.session)
    requires |t.session.where| == |v.session.where|
    requires t.report == v.report || t.report == Progress.Apply(v.report, call)
    requires call.CallHashed? || call.CallWire? || call.CallRetried?
    ensures CreditKept(job, t)
  {
    Progress.CallKept(v.report, call);
  }

  lemma CreditPlaced(hash: Hash, job: Job, resume: bool, v: Watched, move: Move)
    requires job.Valid() && CanDo(job, v, Work(move)) && CreditKept(job, v) && |v.hashed| == job.plan.N()
    requires (move.VerifyEnd? || move.Check?)
    requires hash(v.session.workers[move.w].absorbed) == job.digests[v.session.workers[move.w].part]
    requires v.session.workers[move.w].part !in VerifiedParts(v.session)
    requires VerifiedParts(Do(hash, job, resume, v.session, move)) ==
             VerifiedParts(v.session) + {v.session.workers[move.w].part}
    ensures CreditKept(job, After(hash, job, resume, v, Work(move)))
  {
    var i := v.session.workers[move.w].part;
    CreditOne(job, v.report, VerifiedParts(v.session), i, move.VerifyEnd?);
    Progress.CallKept(v.report, Progress.CallComplete(i, job.plan.Size(i), move.VerifyEnd?));
  }

  lemma CreditStep(hash: Hash, job: Job, resume: bool, v: Watched, move: Move)
    requires job.Valid() && CanDo(job, v, Work(move)) && Safety.PlacesKept(job, v.session)
    requires CreditKept(job, v) && |v.hashed| == job.plan.N()
    ensures CreditKept(job, After(hash, job, resume, v, Work(move)))
  {
    var f := v.session.workers[move.w];
    var t := After(hash, job, resume, v, Work(move));
    NewlyPlaced(hash, job, resume, v.session, move);
    if (move.VerifyEnd? || move.Check?) && hash(f.absorbed) == job.digests[f.part] {
      CreditPlaced(hash, job, resume, v, move);
    } else if move.VerifyRead? {
      CreditSame(job, v, t, Progress.CallHashed(move.n));
    } else if move.Chunk? {
      CreditSame(job, v, t, Progress.CallWire(|move.bytes|));
    } else {
      CreditSame(job, v, t, Progress.CallRetried);
    }
  }

  lemma QuietStep(hash: Hash, job: Job, resume: bool, v: Watched, event: Event)
    requires Inv(hash, job, v) && CanDo(job, v, event) && !event.Work?
    ensures Inv(hash, job, After(hash, job, resume, v, event))
  {
    var t := After(hash, job, resume, v, event);
    match event {
      case RetryNoted => Progress.CallKept(v.report, Progress.CallRetried);
      case Finalize => Progress.CallKept(v.report, Progress.CallFinalizing);
      case Finish(failed) => Progress.CallKept(v.report, Progress.CallFinish(failed));
    }
    forall i | 0 <= i < |t.hashed| ensures HashedOf(job, t, i) {
      assert HashedOf(job, v, i);
    }
    forall w | 0 <= w < |t.session.workers| ensures HashingOf(t, w) {
      assert HashingOf(v, w);
    }
  }

  lemma EventKept(hash: Hash, job: Job, resume: bool, v: Watched, event: Event)
    requires Inv(hash, job, v) && CanDo(job, v, event)
    ensures Inv(hash, job, After(hash, job, resume, v, event))
  {
    match event
    case Work(move) =>
      Safety.MoveKept(hash, job, resume, v.session, move);
      CreditStep(hash, job, resume, v, move);
      if move.VerifyRead? {
        HashedMore(hash, job, resume, v, move.w, move.n);
      } else {
        HashedSame(hash, job, resume, v, move);
      }
    case _ => QuietStep(hash, job, resume, v, event);
  }

  ghost predicate Runs(hash: Hash, job: Job, resume: bool, v: Watched, events: seq<Event>)
    requires job.Valid()
    decreases |events|
  {
    events == [] ||
    (&& CanDo(job, v, events[0]) && |v.hashed| == job.plan.N()
     && Runs(hash, job, resume, After(hash, job, resume, v, events[0]), events[1..]))
  }

  ghost function Run(hash: Hash, job: Job, resume: bool, v: Watched, events: seq<Event>): Watched
    requires job.Valid() && Runs(hash, job, resume, v, events)
    decreases |events|
  {
    if events == [] then v else Run(hash, job, resume, After(hash, job, resume, v, events[0]), events[1..])
  }

  lemma {:induction false} RunKept(hash: Hash, job: Job, resume: bool, v: Watched, events: seq<Event>)
    requires Inv(hash, job, v) && Runs(hash, job, resume, v, events)
    ensures Inv(hash, job, Run(hash, job, resume, v, events))
    decreases |events|
  {
    if events != [] {
      EventKept(hash, job, resume, v, events[0]);
      RunKept(hash, job, resume, After(hash, job, resume, v, events[0]), events[1..]);
    }
  }

  /** The counts in any state with these invariants. */
  lemma Within(hash: Hash, job: Job, v: Watched)
    requires Inv(hash, job, v)
    ensures v.report.snap.completedParts <= job.plan.N()
    ensures v.report.snap.completedBytes <= job.plan.fileSize as int
    ensures v.report.snap.hashedBytes <= job.plan.fileSize as int
    ensures Done(v.session) ==>
              v.report.snap.completedParts == job.plan.N() && v.report.snap.completedBytes == job.plan.fileSize as int
  {
    var done := VerifiedParts(v.session);
    var sizes := PartSizes.SizesOf(job.plan);
    assert done <= Below(job.plan.N());
    SubsetCard(done, Below(job.plan.N()));
    TotalAtMost(sizes, done, Below(job.plan.N()));
    PartSizes.TotalIsFileSize(job.plan);
    HashedWithin(job, v);
    if Done(v.session) {
      AllPlaced(job, v.session);
      assert done == Below(job.plan.N());
    }
  }

  lemma HashedWithin(job: Job, v: Watched)
    requires job.Valid() && Safety.PlacesKept(job, v.session) && HashedKept(job, v)
    ensures v.report.snap.hashedBytes <= job.plan.fileSize as int
  {
    var sizes := PartSizes.SizesOf(job.plan);
    forall i | 0 <= i < |v.hashed| ensures v.hashed[i] <= sizes[i] {
      assert HashedOf(job, v, i);
    }
    TotalPointwise(v.hashed, sizes, Below(job.plan.N()));
    PartSizes.TotalIsFileSize(job.plan);
  }

  lemma AllPlaced(job: Job, s: Session)
    requires job.Valid() && Safety.PlacesKept(job, s) && Done(s)
    ensures forall j :: 0 <= j < |s.where| ==> s.where[j].Verified?
  {
    assert s.workers[0].Gone?;
    forall j | 0 <= j < |s.where| ensures s.where[j].Verified? {
      assert s.where[j].With? ==> Safety.HeldBy(s, j, s.where[j].worker);
    }
  }

  // ---- snapshot by snapshot ----

  /** A snapshot has no totals yet, and nothing counted, or those of the manifest. */
  ghost predicate HasTotals(job: Job, snap: Progress.Snapshot)
    requires job.Valid()
  {
    Unmeasured(snap) || (snap.totalParts == job.plan.N() && snap.totalBytes == job.plan.fileSize as int)
  }

  ghost predicate LogKept(job: Job, a: Progress.Account)
    requires job.Valid()
  {
    forall snap :: snap in a.log ==> HasTotals(job, snap)
  }

  /** A recording delivers the account's own snapshot or none. */
  lemma DeliversItsOwn(job: Job, a: Progress.Account, call: Progress.Call)
    requires job.Valid() && LogKept(job, a) && HasTotals(job, Progress.Apply(a, call).snap)
    ensures LogKept(job, Progress.Apply(a, call))
  {
  }

  /** Which recording an event makes, if any. */
  lemma EventIsCall(hash: Hash, job: Job, resume: bool, v: Watched, event: Event) returns (call: Progress.Call)
    requires job.Valid() && CanDo(job, v, event) && |v.hashed| == job.plan.N()
    ensures
      var t := After(hash, job, resume, v, event);
      t.report == v.report || t.report == Progress.Apply(v.report, call)
  {
    match event {
      case RetryNoted => call := Progress.CallRetried;
      case Finalize => call := Progress.CallFinalizing;
      case Finish(failed) => call := Progress.CallFinish(failed);
      case Work(move) =>
        var i := if v.session.workers[move.w].HasPart() then v.session.workers[move.w].part else 0;
        call :=
          if move.VerifyRead? then Progress.CallHashed(move.n)
          else if move.Chunk? then Progress.CallWire(|move.bytes|)
          else if i < job.plan.N() then Progress.CallComplete(i, job.plan.Size(i), move.VerifyEnd?)
          else Progress.CallRetried;
    }
  }

  lemma LogStep(hash: Hash, job: Job, resume: bool, v: Watched, event: Event)
    requires Inv(hash, job, v) && CanDo(job, v, event) && LogKept(job, v.report)
    ensures LogKept(job, After(hash, job, resume, v, event).report)
  {
    EventKept(hash, job, resume, v, event);
    var call := EventIsCall(hash, job, resume, v, event);
    var t := After(hash, job, resume, v, event);
    assert CreditKept(job, t);
    if t.report != v.report {
      DeliversItsOwn(job, v.report, call);
    }
  }

  lemma {:induction false} RunLog(hash: Hash, job: Job, resume: bool, v: Watched, events: seq<Event>)
    requires Inv(hash, job, v) && Runs(hash, job, resume, v, events) && LogKept(job, v.report)
    ensures LogKept(job, Run(hash, job, resume, v, events).report)
    decreases |events|
  {
    if events != [] {
      EventKept(hash, job, resume, v, events[0]);
      LogStep(hash, job, resume, v, events[0]);
      RunLog(hash, job, resume, After(hash, job, resume, v, events[0]), events[1..]);
    }
  }

  lemma BegunLog(job: Job, file: Bytes, pool: nat, retries: nat)
    requires job.Valid() && |file| == job.plan.fileSize as int
    ensures LogKept(job, Begun(job, file, pool, retries).report)
  {
    ResolvingKept(retries);
    DeliversItsOwn(job, Resolving(retries), Progress.CallMeasured(job.plan.fileSize as int, job.plan.N()));
  }

  /** A snapshot counts no more than it says there is, and what it says there is, is nothing yet or what the
      manifest says. */
  ghost predicate Bounded(job: Job, snap: Progress.Snapshot)
    requires job.Valid()
  {
    && HasTotals(job, snap)
    && snap.completedParts <= snap.totalParts
    && snap.completedBytes <= snap.totalBytes && snap.hashedBytes <= snap.totalBytes
  }

  /** In every interleaving of a watched pull, from its first snapshot on, every snapshot it delivers is within
      its own totals, and the last one counts everything once every worker has returned without an error. */
  lemma SnapshotsWithinTotals(
    hash: Hash, job: Job, resume: bool, file: Bytes, pool: nat, retries: nat, events: seq<Event>)
    requires job.Valid() && |file| == job.plan.fileSize as int
    requires Runs(hash, job, resume, Begun(job, file, pool, retries), events)
    ensures
      var v := Run(hash, job, resume, Begun(job, file, pool, retries), events);
      && (forall snap :: snap in v.report.log ==> Bounded(job, snap))
      && (Done(v.session) ==>
            && v.report.snap.completedParts == v.report.snap.totalParts == job.plan.N()
            && v.report.snap.completedBytes == v.report.snap.totalBytes == job.plan.fileSize as int)
  {
    var v := Run(hash, job, resume, Begun(job, file, pool, retries), events);
    BegunKept(hash, job, file, pool, retries);
    BegunLog(job, file, pool, retries);
    RunKept(hash, job, resume, Begun(job, file, pool, retries), events);
    RunLog(hash, job, resume, Begun(job, file, pool, retries), events);
    Within(hash, job, v);
    Progress.LogAtMost(v.report);
    forall snap | snap in v.report.log ensures Bounded(job, snap) {
      assert HasTotals(job, snap) && snap.AtMost(v.report.snap);
    }
  }

  /** A pull that ends before it has a manifest delivers one snapshot to begin with, one for each retry and one
      to end with, and none counts anything but retries. */
  lemma UnresolvedSnapshots(retries: nat)
    ensures
      var a := Resolving(retries).Finish(true);
      && |a.log| == retries + 2 && a.log[|a.log| - 1].phase == Progress.Failed
      && forall k :: 0 <= k < |a.log| ==> Unmeasured(a.log[k]) && a.log[k].retries == if k <= retries then k else retries
  {
    ResolvingKept(retries);
    ResolvingLog(retries);
  }

  lemma {:induction false} ResolvingLog(retries: nat)
    ensures
      var a := Resolving(retries);
      && !a.closed && a.snap.retries == retries && |a.log| == retries + 1
      && forall k :: 0 <= k < |a.log| ==> a.log[k].retries == k
    decreases retries
  {
    if retries > 0 {
      ResolvingLog(retries - 1);
    }
  }
}
