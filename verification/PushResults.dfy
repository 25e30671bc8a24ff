/** What a push promises about whole runs. */
module PushResults {
  import opened Base
  import opened SplitPlan
  import opened PushLedger
  import opened PushProtocol
  import opened PushSafety
  import opened Counting
  import PartSizes
  import Progress
  import Manifest

  /** At most one worker ever has a digest's upload in hand. */
  lemma OneOwner(c: Config, registry: set<Digest>, steps: seq<Step>, v: nat, w: nat)
    requires c.Valid() && Runs(c, Initial(c, registry), steps)
    requires
      var l := Run(c, Initial(c, registry), steps).ledger;
      && v < |l.workers| && w < |l.workers| && l.workers[v].Owns() && l.workers[w].Owns()
      && l.workers[v].part < |l.digests| && l.workers[w].part < |l.digests|
      && l.digests[l.workers[v].part] == l.digests[l.workers[w].part]
    ensures v == w
  {
    InitialKept(c, registry);
    RunKept(c, Initial(c, registry), steps);
    var l := Run(c, Initial(c, registry), steps).ledger;
    assert ClaimOf(l, v) && ClaimOf(l, w);
  }

  /** Whoever's credit is outstanding, somebody is answerable for it: the part is queued, or a worker that
      has not left has it, owns its digest, owes it as a twin, or failed with it. */
  lemma SomebodyAnswers(l: Ledger, j: nat) returns (w: nat)
    requires PlacesKept(l) && OwnersKept(l) && OwedKept(l) && TwinsKept(l) && j < |l.digests|
    ensures l.where[j].Credited? || j in l.queue || (w < |l.workers| && !l.workers[w].Gone?)
  {
    w := 0;
    match l.where[j]
    case With(v) => w := v; assert HeldBy(l, j, v);
    case Owed(d) => w := l.ownerWorker[d]; assert OwedOf(l, d) && OwnerOf(l, d);
    case TwinOf(v) => w := v; assert TwinsOf(l, v);
    case Lost(v) => w := v;
    case _ =>
  }

  /** When every worker has drained the queue, no part's credit is still owed to anyone. */
  lemma NothingLeftOwed(l: Ledger, j: nat)
    requires PlacesKept(l) && OwnersKept(l) && OwedKept(l) && TwinsKept(l)
    requires AllGone(l) && l.queue == [] && j < |l.digests|
    ensures l.where[j].Credited?
  {
    var w := SomebodyAnswers(l, j);
  }

  lemma AllCredited(c: Config, s: State)
    requires Inv(c, s) && s.hashing == HashDone && AllGone(s.ledger)
    ensures s.ledger.credited == Below(c.plan.N())
    ensures forall j :: 0 <= j < c.plan.N() ==> s.ledger.digests[j] in s.registry
  {
    var l := s.ledger;
    assert l.workers[0].Gone?;
    forall j | 0 <= j < c.plan.N() ensures j in l.credited && l.digests[j] in s.registry {
      NothingLeftOwed(l, j);
      assert CreditOf(l, j);
    }
    forall j | j in l.credited ensures j < c.plan.N() {
      assert CreditOf(l, j);
    }
  }

  /** The digests of the artifact about to be written are those of what the hash pass read at their
      ranges, and the registry holds every part and the empty config. */
  ghost predicate Backed(c: Config, s: State)
    requires c.Valid()
  {
    && |s.read| == c.plan.fileSize as int
    && |s.ledger.digests| == c.plan.N()
    && ArtifactOf(c, s).fileDigest == c.hash(s.read)
    && (forall i: nat :: i < c.plan.N() ==> PartBacked(c, s, i))
    && Manifest.EMPTY_DIGEST in s.registry
    && (c.steady ==> s.read == c.source)
  }

  ghost predicate PartBacked(c: Config, s: State, i: nat)
    requires c.Valid() && |s.read| == c.plan.fileSize as int && |s.ledger.digests| == c.plan.N() && i < c.plan.N()
  {
    var digest := ArtifactOf(c, s).parts[i].digest;
    digest == c.hash(c.plan.Slice(s.read, i)) && digest in s.registry
  }

  lemma WritingIsBacked(c: Config, s: State)
    requires Inv(c, s) && (s.stage == Writing || s.stage == Succeeded)
    ensures Backed(c, s)
  {
    AllCredited(c, s);
    ReadWhole(c, s);
    forall i: nat | i < c.plan.N() ensures PartBacked(c, s, i) {
      OnePartBacked(c, s, i);
    }
    ConfigBacked(c, s);
  }

  lemma OnePartBacked(c: Config, s: State, i: nat)
    requires c.Valid() && |s.read| == c.plan.fileSize as int && |s.ledger.digests| == c.plan.N() && i < c.plan.N()
    requires DigestOfPart(c, s, i) && s.ledger.digests[i] in s.registry
    ensures PartBacked(c, s, i)
  {
  }

  lemma ConfigBacked(c: Config, s: State)
    requires c.Valid() && StageKept(c, s) && (s.stage == Writing || s.stage == Succeeded)
    ensures Manifest.EMPTY_DIGEST in s.registry && s.hashing == HashDone && AllGone(s.ledger)
  {
  }

  lemma ReadWhole(c: Config, s: State)
    requires c.Valid() && HashKept(c, s) && s.hashing == HashDone
    ensures |s.read| == c.plan.fileSize as int && |s.ledger.digests| == c.plan.N()
    ensures forall j :: 0 <= j < c.plan.N() ==> DigestOfPart(c, s, j)
    ensures c.steady ==> s.read == c.source
  {
  }

  lemma NobodyFailed(c: Config, s: State)
    requires c.Valid() && StageKept(c, s) && s.stage == Writing
    ensures !SomeFailed(s)
  {
  }

  lemma ReachedKept(c: Config, registry: set<Digest>, steps: seq<Step>)
    requires c.Valid() && Runs(c, Initial(c, registry), steps)
    ensures Inv(c, Run(c, Initial(c, registry), steps))
  {
    InitialKept(c, registry);
    RunKept(c, Initial(c, registry), steps);
  }

  /** A manifest is written last. Whenever Manifests.Put is called, nobody has failed and the artifact
      is backed by the registry, although a worker that skips a digest goes on before its blob
      exists. */
  lemma ManifestLast(c: Config, registry: set<Digest>, steps: seq<Step>, accepted: bool)
    requires c.Valid() && Runs(c, Initial(c, registry), steps)
    requires Enabled(c, Run(c, Initial(c, registry), steps), PutManifest(accepted))
    ensures Backed(c, Run(c, Initial(c, registry), steps))
    ensures !SomeFailed(Run(c, Initial(c, registry), steps))
  {
    var s := Run(c, Initial(c, registry), steps);
    ReachedKept(c, registry, steps);
    WritingIsBacked(c, s);
    NobodyFailed(c, s);
  }

  lemma FailureStays(c: Config, s: State, step: Step)
    requires c.Valid() && Enabled(c, s, step) && SomeFailed(s)
    ensures SomeFailed(Apply(c, s, step))
  {
    var t := Apply(c, s, step);
    if s.hashing != HashFailed {
      var w :| 0 <= w < |s.ledger.workers| && s.ledger.workers[w].Failed?;
      if step.Work? {
        MoveKeepsDigests(s.ledger, step.move);
        FailedMakesNoMove(s.ledger, w, step.move);
      }
      assert t.ledger.workers[w].Failed?;
    }
  }

  lemma FailedMakesNoMove(l: Ledger, w: nat, move: Move)
    requires l.Can(move) && w < |l.workers| && l.workers[w].Failed?
    ensures w < |l.Do(move).workers| && l.Do(move).workers[w].Failed?
  {
  }

  lemma {:induction false} FailureIsFinal(c: Config, s: State, steps: seq<Step>)
    requires c.Valid() && Runs(c, s, steps) && SomeFailed(s)
    ensures SomeFailed(Run(c, s, steps))
    decreases |steps|
  {
    if steps != [] {
      FailureStays(c, s, steps[0]);
      FailureIsFinal(c, Apply(c, s, steps[0]), steps[1..]);
    }
  }

  lemma ReachedStage(c: Config, registry: set<Digest>, before: seq<Step>, after: seq<Step>)
    requires c.Valid() && Runs(c, Initial(c, registry), before)
    requires Runs(c, Run(c, Initial(c, registry), before), after)
    ensures StageKept(c, Run(c, Run(c, Initial(c, registry), before), after))
  {
    ReachedKept(c, registry, before);
    RunKept(c, Run(c, Initial(c, registry), before), after);
  }

  /** No manifest is written after a worker or the hash pass has failed, however the run goes on. */
  lemma NoManifestAfterFailure(c: Config, registry: set<Digest>, before: seq<Step>, after: seq<Step>, accepted: bool)
    requires c.Valid() && Runs(c, Initial(c, registry), before)
    requires SomeFailed(Run(c, Initial(c, registry), before))
    requires Runs(c, Run(c, Initial(c, registry), before), after)
    ensures !Enabled(c, Run(c, Run(c, Initial(c, registry), before), after), PutManifest(accepted))
  {
    var s := Run(c, Initial(c, registry), before);
    ReachedStage(c, registry, before, after);
    FailureIsFinal(c, s, after);
    if Run(c, s, after).stage == Writing {
      NobodyFailed(c, Run(c, s, after));
    }
  }

  /** Every snapshot delivered counts parts within the total, and no more hashed bytes than the file has. */
  lemma SnapshotsWithinTotals(c: Config, registry: set<Digest>, steps: seq<Step>)
    requires c.Valid() && Runs(c, Initial(c, registry), steps)
    ensures forall snap :: snap in Run(c, Initial(c, registry), steps).report.log ==> SnapshotWithin(c, snap)
  {
    var s := Run(c, Initial(c, registry), steps);
    ReachedKept(c, registry, steps);
    CreditedWithin(c, s);
    ReadWithin(c, s);
    LogWithin(c, s.report, s.ledger.credited, s.ledger.skipped);
  }

  ghost predicate SnapshotWithin(c: Config, snap: Progress.Snapshot)
    requires c.Valid()
  {
    && snap.totalParts == c.plan.N() && snap.totalBytes == c.plan.fileSize as int
    && snap.completedParts <= snap.totalParts
    && snap.hashedBytes <= snap.totalBytes
  }

  lemma LogWithin(c: Config, a: Progress.Account, credited: set<nat>, skipped: set<nat>)
    requires c.Valid() && AccountKept(c, a, credited, skipped)
    requires |credited| <= c.plan.N() && a.snap.hashedBytes <= c.plan.fileSize as int
    ensures forall snap :: snap in a.log ==> SnapshotWithin(c, snap)
  {
    var log := a.log;
    forall snap | snap in log ensures SnapshotWithin(c, snap) {
      var k :| 0 <= k < |log| && log[k] == snap;
      assert k > 0 ==> log[0].AtMost(log[k]);
      assert k < |log| - 1 ==> log[k].AtMost(log[|log| - 1]);
    }
  }

  lemma CreditedWithin(c: Config, s: State)
    requires Inv(c, s)
    ensures s.ledger.credited <= Below(c.plan.N()) && |s.ledger.credited| <= c.plan.N()
  {
    forall j | j in s.ledger.credited ensures 0 <= j < c.plan.N() {
      assert CreditOf(s.ledger, j);
    }
    SubsetCard(s.ledger.credited, Below(c.plan.N()));
  }

  lemma ReadWithin(c: Config, s: State)
    requires c.Valid() && HashKept(c, s)
    ensures |s.read| <= c.plan.fileSize as int
  {
    if |s.ledger.digests| < c.plan.N() {
      LoHi(c.plan, |s.ledger.digests|);
    }
  }

  /** The parts this push sent itself are one per digest it put. */
  lemma SentParts(l: Ledger)
    requires OwnersKept(l) && CreditKept(l)
    requires forall d :: d in l.puts ==> l.ownerPart[d] in l.credited
    ensures |l.credited - l.skipped| == |l.puts|
  {
    var sent := l.credited - l.skipped;
    forall d | d in l.puts ensures l.ownerPart[d] in sent && l.digests[l.ownerPart[d]] == d {
      assert OwnerOf(l, d) && CreditOf(l, l.ownerPart[d]);
    }
    forall j | j in sent ensures exists d :: d in l.puts && l.ownerPart[d] == j {
      assert CreditOf(l, j);
      assert l.digests[j] in l.puts;
    }
    ImageCard(l.puts, sent, l.ownerPart);
  }

  /** A push that succeeds has credited every part, and the parts it did not skip are as many as the
      digests Put was called for. */
  lemma SuccessCountsAddUp(c: Config, registry: set<Digest>, steps: seq<Step>)
    requires c.Valid() && Runs(c, Initial(c, registry), steps)
    requires Run(c, Initial(c, registry), steps).stage == Succeeded
    ensures
      var s := Run(c, Initial(c, registry), steps);
      var snap := s.report.snap;
      && snap.completedParts == snap.totalParts == c.plan.N()
      && snap.totalParts - snap.skippedParts == |s.ledger.puts|
      && snap.phase == (if s.report.closed then Progress.Done else Progress.Finalizing)
      && s.manifests != []
  {
    var s := Run(c, Initial(c, registry), steps);
    InitialKept(c, registry);
    RunKept(c, Initial(c, registry), steps);
    AllCredited(c, s);
    var l := s.ledger;
    forall d | d in l.puts ensures l.ownerPart[d] in l.credited {
      assert OwnerOf(l, d);
    }
    SentParts(l);
    SubsetCard(l.skipped, l.credited);
  }

  // ---- bytes ----

  ghost function Sizes(c: Config): (sizes: seq<nat>)
    requires c.Valid()
    ensures |sizes| == c.plan.N()
    ensures forall i :: 0 <= i < |sizes| ==> sizes[i] == c.plan.Size(i)
  {
    PartSizes.SizesOf(c.plan)
  }

  /** Parts with one digest have one size. completeTwins credits every twin at the claimer's size, so the
      byte count rests on it. */
  ghost predicate SizesAgree(c: Config, digests: seq<Digest>)
    requires c.Valid()
  {
    forall i, j :: 0 <= i < |digests| && 0 <= j < |digests| && i < c.plan.N() && j < c.plan.N() && digests[i] == digests[j] ==>
      c.plan.Size(i) == c.plan.Size(j)
  }

  ghost predicate BytesKept(c: Config, s: State)
    requires c.Valid()
  {
    s.report.snap.completedBytes == Total(Sizes(c), s.ledger.credited)
  }

  lemma BytesOne(c: Config, a: Progress.Account, credited: set<nat>, skipped: set<nat>, i: nat, skip: bool)
    requires c.Valid() && AccountKept(c, a, credited, skipped) && !a.closed
    requires i < c.plan.N() && i !in credited
    requires a.snap.completedBytes == Total(Sizes(c), credited)
    ensures a.Complete(i, c.plan.Size(i), skip).snap.completedBytes == Total(Sizes(c), credited + {i})
  {
    TotalAdd(Sizes(c), credited, i);
  }

  lemma BytesTwins(c: Config, s: State, w: nat)
    requires c.Valid() && s.ledger.Can(CreditRest(w)) && TwinsKept(s.ledger) && CreditKept(s.ledger)
    requires |s.ledger.digests| <= c.plan.N() && SizesAgree(c, s.ledger.digests) && BytesKept(c, s) && !s.report.closed
    ensures
      Reported(c, s, CreditRest(w)).snap.completedBytes == Total(Sizes(c), s.ledger.credited + s.ledger.twins[w])
  {
    var l := s.ledger;
    TwinsAreNew(l, w);
    TwinsAreEqual(c, l, w);
    BytesMany(c, s.report, l.credited, l.twins[w], c.plan.Size(l.workers[w].part));
  }

  lemma BytesMany(c: Config, a: Progress.Account, credited: set<nat>, twins: set<nat>, size: nat)
    requires c.Valid() && !a.closed && twins !! credited
    requires forall i :: i in twins ==> i < c.plan.N() && c.plan.Size(i) == size
    requires a.snap.completedBytes == Total(Sizes(c), credited)
    ensures a.CompleteTwins(|twins|, size).snap.completedBytes == Total(Sizes(c), credited + twins)
  {
    TotalAddEqual(Sizes(c), credited, twins, size);
    TwinBytes(a, |twins|, size);
  }

  lemma TwinBytes(a: Progress.Account, count: nat, size: nat)
    requires !a.closed
    ensures a.CompleteTwins(count, size).snap.completedBytes == a.snap.completedBytes + size * count
  {
  }

  /** A twin has its claimer's digest, so by hypothesis its size. */
  lemma TwinsAreEqual(c: Config, l: Ledger, w: nat)
    requires c.Valid() && l.Can(CreditRest(w)) && TwinsKept(l)
    requires |l.digests| <= c.plan.N() && SizesAgree(c, l.digests)
    ensures forall i :: i in l.twins[w] ==> i < c.plan.N() && c.plan.Size(i) == c.plan.Size(l.workers[w].part)
  {
    assert TwinsOf(l, w);
  }

  lemma BytesWork(c: Config, s: State, move: Move)
    requires c.Valid() && s.ledger.Can(move) && !s.report.closed
    requires PlacesKept(s.ledger) && TwinsKept(s.ledger) && CreditKept(s.ledger)
    requires AccountKept(c, s.report, s.ledger.credited, s.ledger.skipped)
    requires |s.ledger.digests| <= c.plan.N() && SizesAgree(c, s.ledger.digests) && BytesKept(c, s)
    ensures Reported(c, s, move).snap.completedBytes == Total(Sizes(c), s.ledger.Do(move).credited)
  {
    var l := s.ledger;
    match move
    case CreditSkip(w) =>
      PartIsNew(l, w);
      BytesOne(c, s.report, l.credited, l.skipped, l.workers[w].part, true);
    case CreditPart(w) =>
      PartIsNew(l, w);
      BytesOne(c, s.report, l.credited, l.skipped, l.workers[w].part, !l.workers[w].uploaded);
    case CreditRest(w) => BytesTwins(c, s, w);
    case _ => MoveKeepsCredit(l, move);
  }

  lemma BytesQuiet(c: Config, s: State, step: Step)
    requires c.Valid() && Enabled(c, s, step) && BytesKept(c, s) && !step.Work?
    ensures BytesKept(c, Apply(c, s, step))
  {
  }

  lemma BytesStep(c: Config, s: State, step: Step)
    requires Inv(c, s) && Enabled(c, s, step) && BytesKept(c, s) && SizesAgree(c, s.ledger.digests)
    ensures BytesKept(c, Apply(c, s, step))
  {
    if step.Work? {
      BytesWork(c, s, step.move);
    } else {
      BytesQuiet(c, s, step);
    }
  }

  lemma DigestsGrow(c: Config, s: State, steps: seq<Step>)
    requires c.Valid() && Runs(c, s, steps)
    ensures s.ledger.digests <= Run(c, s, steps).ledger.digests
    decreases |steps|
  {
    if steps != [] {
      if steps[0].Work? {
        MoveKeepsDigests(s.ledger, steps[0].move);
      }
      DigestsGrow(c, Apply(c, s, steps[0]), steps[1..]);
    }
  }

  lemma {:induction false} RunBytes(c: Config, s: State, steps: seq<Step>)
    requires Inv(c, s) && Runs(c, s, steps) && BytesKept(c, s)
    requires SizesAgree(c, Run(c, s, steps).ledger.digests)
    ensures BytesKept(c, Run(c, s, steps))
    decreases |steps|
  {
    if steps != [] {
      DigestsGrow(c, s, steps);
      BytesStep(c, s, steps[0]);
      StepKept(c, s, steps[0]);
      RunBytes(c, Apply(c, s, steps[0]), steps[1..]);
    }
  }

  lemma BytesWithin(c: Config, s: State)
    requires Inv(c, s) && BytesKept(c, s)
    ensures s.report.snap.completedBytes <= c.plan.fileSize as int
    ensures s.stage == Succeeded ==> s.report.snap.completedBytes == c.plan.fileSize as int
  {
    CreditedWithin(c, s);
    TotalAtMost(Sizes(c), s.ledger.credited, Below(c.plan.N()));
    PartSizes.TotalIsFileSize(c.plan);
    if s.stage == Succeeded {
      AllCredited(c, s);
    }
  }

  lemma BytesAgree(c: Config, registry: set<Digest>, steps: seq<Step>)
    requires c.Valid() && Runs(c, Initial(c, registry), steps)
    requires SizesAgree(c, Run(c, Initial(c, registry), steps).ledger.digests)
    ensures Conserved(c, Run(c, Initial(c, registry), steps))
  {
    var s := Run(c, Initial(c, registry), steps);
    InitialKept(c, registry);
    TotalNone(Sizes(c));
    RunBytes(c, Initial(c, registry), steps);
    RunKept(c, Initial(c, registry), steps);
    BytesWithin(c, s);
    Progress.LogAtMost(s.report);
  }

  /** Completed bytes are the sizes of the credited parts, never more than the file in any snapshot, and all
      of it when the push succeeds. */
  ghost predicate Conserved(c: Config, s: State)
    requires c.Valid()
  {
    && (forall snap :: snap in s.report.log ==> snap.completedBytes <= c.plan.fileSize as int)
    && s.report.snap.completedBytes == Total(Sizes(c), s.ledger.credited)
    && (s.stage == Succeeded ==> s.report.snap.completedBytes == s.report.snap.totalBytes == c.plan.fileSize as int)
  }

  /** What was read at two parts' ranges is of different sizes and yet has one digest. */
  ghost predicate PartsCollide(c: Config, s: State, i: nat, j: nat)
    requires c.Valid()
  {
    && i < |s.ledger.digests| <= c.plan.N() && j < |s.ledger.digests|
    && c.plan.Size(i) != c.plan.Size(j)
    && c.plan.Lo(i) <= c.plan.Hi(i) <= |s.read| && c.plan.Lo(j) <= c.plan.Hi(j) <= |s.read|
    && Collision(c.hash, s.read[c.plan.Lo(i)..c.plan.Hi(i)], s.read[c.plan.Lo(j)..c.plan.Hi(j)])
  }

  lemma DisagreeingCollide(c: Config, s: State) returns (i: nat, j: nat)
    requires c.Valid() && HashKept(c, s) && !SizesAgree(c, s.ledger.digests)
    ensures PartsCollide(c, s, i, j)
  {
    var digests := s.ledger.digests;
    i, j :| i < |digests| && j < |digests| && i < c.plan.N() && j < c.plan.N()
            && digests[i] == digests[j] && c.plan.Size(i) != c.plan.Size(j);
    assert DigestOfPart(c, s, i) && DigestOfPart(c, s, j);
  }

  /** In every interleaving bytes are conserved, or two parts of different sizes are an explicit collision of
      the hash. */
  lemma BytesConserved(c: Config, registry: set<Digest>, steps: seq<Step>)
    requires c.Valid() && Runs(c, Initial(c, registry), steps)
    ensures
      var s := Run(c, Initial(c, registry), steps);
      Conserved(c, s) || exists i: nat, j: nat :: PartsCollide(c, s, i, j)
  {
    var s := Run(c, Initial(c, registry), steps);
    if SizesAgree(c, s.ledger.digests) {
      BytesAgree(c, registry, steps);
    } else {
      ReachedKept(c, registry, steps);
      var i, j := DisagreeingCollide(c, s);
    }
  }
}
