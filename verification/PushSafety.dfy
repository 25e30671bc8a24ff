/** What every step of a push keeps, in every interleaving, and what follows for whole runs. */
module PushSafety {
  import opened Base
  import opened SplitPlan
  import opened PushLedger
  import opened PushProtocol
  import opened Counting
  import Progress
  import Manifest

  /** The digests are those of what the hash pass read, in file order. */
  ghost predicate HashKept(c: Config, s: State)
    requires c.Valid()
  {
    var k := |s.ledger.digests|;
    && k <= c.plan.N()
    && (s.hashing == HashDone ==> k == c.plan.N())
    && (k < c.plan.N() ==> c.plan.Lo(k) <= |s.read| <= c.plan.Hi(k))
    && (k == c.plan.N() ==> |s.read| == c.plan.fileSize as int)
    && (forall j :: 0 <= j < k ==> DigestOfPart(c, s, j))
    && (c.steady ==> s.read <= c.source)
  }

  ghost predicate DigestOfPart(c: Config, s: State, j: nat)
    requires c.Valid() && j < |s.ledger.digests|
  {
    && c.plan.Lo(j) <= c.plan.Hi(j) <= |s.read|
    && s.ledger.digests[j] == c.hash(s.read[c.plan.Lo(j)..c.plan.Hi(j)])
  }

  /** A worker leaves only when the channel is closed and drained. */
  ghost predicate PoolKept(c: Config, s: State)
    requires c.Valid()
  {
    && |s.ledger.workers| == c.Pool()
    && (forall w :: 0 <= w < |s.ledger.workers| && s.ledger.workers[w].Gone? ==>
                      s.ledger.queue == [] && s.hashing != Hashing)
  }

  ghost predicate RegistryKept(s: State) {
    var l := s.ledger;
    && (forall d :: d in l.claims && l.claims[d].done ==> d in s.registry)
    && (forall w :: 0 <= w < |l.workers| && l.workers[w].Placed? ==>
                      l.workers[w].part < |l.digests| && l.digests[l.workers[w].part] in s.registry)
  }

  /** Past the parts, nobody failed and every goroutine has returned. */
  ghost predicate StageKept(c: Config, s: State)
    requires c.Valid()
  {
    && (s.stage == Configuring || s.stage == Writing || s.stage == Succeeded ==>
          s.hashing == HashDone && AllGone(s.ledger))
    && (s.stage == Writing || s.stage == Succeeded ==> Manifest.EMPTY_DIGEST in s.registry)
    && (s.stage == Moving || s.stage == Configuring ==> s.manifests == [])
    && (s.stage == Succeeded ==> s.manifests != [])
    && (s.manifests != [] ==>
          && |s.ledger.digests| == c.plan.N()
          && Manifest.Encoded(c.utf8, ArtifactOf(c, s)).Ok?
          && (forall k :: 0 <= k < |s.manifests| ==> s.manifests[k] == ArtifactOf(c, s)))
  }

  /** The account counts exactly the credited parts. */
  ghost predicate AccountKept(c: Config, a: Progress.Account, credited: set<nat>, skipped: set<nat>)
    requires c.Valid()
  {
    && a.Kept()
    && a.log[0].totalParts == a.snap.totalParts == |a.credited| == c.plan.N()
    && a.log[0].totalBytes == a.snap.totalBytes == c.plan.fileSize as int
    && (forall i :: 0 <= i < |a.credited| && a.credited[i] ==> i in credited)
    && a.snap.completedParts == |credited|
    && a.snap.skippedParts == |skipped|
  }

  ghost predicate ReportKept(c: Config, s: State)
    requires c.Valid()
  {
    && AccountKept(c, s.report, s.ledger.credited, s.ledger.skipped)
    && s.report.snap.hashedBytes == |s.read|
    && (s.report.closed ==> s.stage == Succeeded || s.stage == Aborted)
    && (s.report.closed ==> s.report.snap.phase == if s.stage == Aborted then Progress.Failed else Progress.Done)
    && (!s.report.closed && s.stage == Moving ==> s.report.snap.phase == Progress.Transferring)
    && (!s.report.closed && (s.stage == Configuring || s.stage == Writing || s.stage == Succeeded) ==>
          s.report.snap.phase == Progress.Finalizing)
  }

  ghost predicate Inv(c: Config, s: State) {
    && c.Valid()
    && HashKept(c, s)
    && LedgerKept(s.ledger)
    && PoolKept(c, s)
    && RegistryKept(s)
    && StageKept(c, s)
    && ReportKept(c, s)
  }

  lemma InitialKept(c: Config, registry: set<Digest>)
    requires c.Valid()
    ensures Inv(c, Initial(c, registry))
  {
    LoHi(c.plan, 0);
    Progress.BeginKept(Progress.Transferring, c.plan.fileSize as int, c.plan.N());
  }

  lemma HashChunkKept(c: Config, s: State, chunk: Bytes)
    requires c.Valid() && Enabled(c, s, HashChunk(chunk)) && HashKept(c, s)
    ensures HashKept(c, Apply(c, s, HashChunk(chunk)))
  {
    var t := Apply(c, s, HashChunk(chunk));
    forall j | 0 <= j < |t.ledger.digests| ensures DigestOfPart(c, t, j) {
      assert DigestOfPart(c, s, j);
      assert t.read[c.plan.Lo(j)..c.plan.Hi(j)] == s.read[c.plan.Lo(j)..c.plan.Hi(j)];
    }
  }

  lemma HashPartKept(c: Config, s: State)
    requires c.Valid() && Enabled(c, s, HashPart) && HashKept(c, s)
    ensures HashKept(c, Apply(c, s, HashPart))
  {
    var k := |s.ledger.digests|;
    var t := Apply(c, s, HashPart);
    LoHi(c.plan, k);
    if k + 1 < c.plan.N() {
      LoHi(c.plan, k + 1);
    }
    forall j | 0 <= j < |t.ledger.digests| ensures DigestOfPart(c, t, j) {
      assert j < k ==> DigestOfPart(c, s, j);
    }
  }

  /** A move neither renames a part nor loses one: digests only grow. */
  lemma MoveKeepsDigests(l: Ledger, move: Move)
    requires l.Can(move) && !move.Enqueue?
    ensures l.Do(move).digests == l.digests && |l.Do(move).workers| == |l.workers|
  {
  }

  lemma HashStep(c: Config, s: State, step: Step)
    requires c.Valid() && Enabled(c, s, step) && HashKept(c, s)
    ensures HashKept(c, Apply(c, s, step))
  {
    var t := Apply(c, s, step);
    match step
    case HashChunk(chunk) => HashChunkKept(c, s, chunk);
    case HashPart => HashPartKept(c, s);
    case Work(move, _) =>
      MoveKeepsDigests(s.ledger, move);
      forall j | 0 <= j < |t.ledger.digests| ensures DigestOfPart(c, t, j) {
        assert DigestOfPart(c, s, j);
      }
    case _ =>
      forall j | 0 <= j < |t.ledger.digests| ensures DigestOfPart(c, t, j) {
        assert DigestOfPart(c, s, j);
      }
  }

  lemma LedgerStep(c: Config, s: State, step: Step)
    requires c.Valid() && Enabled(c, s, step) && LedgerKept(s.ledger)
    ensures LedgerKept(Apply(c, s, step).ledger)
  {
    match step
    case HashPart =>
      var k := |s.ledger.digests|;
      MoveKept(s.ledger, Enqueue(c.hash(s.read[c.plan.Lo(k)..c.plan.Hi(k)])));
    case Work(move, _) => MoveKept(s.ledger, move);
    case _ =>
  }

  lemma MoveKeepsPool(l: Ledger, move: Move)
    requires l.Can(move) && !move.Enqueue?
    ensures forall v :: 0 <= v < |l.workers| && l.Do(move).workers[v].Gone? ==> l.workers[v].Gone? || move.Leave?
    ensures l.queue == [] ==> l.Do(move).queue == []
    ensures move.Leave? ==> l.queue == []
  {
  }

  lemma PoolStep(c: Config, s: State, step: Step)
    requires c.Valid() && Enabled(c, s, step) && PoolKept(c, s)
    ensures PoolKept(c, Apply(c, s, step))
  {
    if step.Work? {
      MoveKeepsDigests(s.ledger, step.move);
      MoveKeepsPool(s.ledger, step.move);
    }
  }

  /** A move by another worker, or one that leaves the claims alone, keeps what is said of claims. */
  lemma RegistryClaims(s: State, move: Move, stored: bool)
    requires s.ledger.Can(move) && RegistryKept(s)
    ensures
      var l := s.ledger.Do(move);
      forall d :: d in l.claims && l.claims[d].done ==> d in Stored(s, move, stored)
  {
  }

  /** A worker's blob is in place by a move only when it finds the blob or its put succeeds. */
  lemma BecomesPlaced(l: Ledger, move: Move, w: nat)
    requires l.Can(move) && w < |l.workers|
    ensures
      var m := l.Do(move);
      && |m.workers| == |l.workers|
      && (m.workers[w].Placed? && !l.workers[w].Placed? ==>
            && !move.Enqueue? && move.w == w && (move.Found? || (move.EndsPut? && move.ok))
            && m.workers[w].part == l.workers[w].part)
      && (m.workers[w].Placed? && l.workers[w].Placed? ==> m.workers[w] == l.workers[w])
  {
  }

  lemma RegistryPlaced(s: State, move: Move, stored: bool)
    requires s.ledger.Can(move) && RegistryKept(s) && !move.Enqueue?
    requires move.Found? ==> s.ledger.DigestAt(move.w) in s.registry
    ensures
      var l := s.ledger.Do(move);
      forall w :: 0 <= w < |l.workers| && l.workers[w].Placed? ==>
                    l.workers[w].part < |l.digests| && l.digests[l.workers[w].part] in Stored(s, move, stored)
  {
    var l := s.ledger.Do(move);
    MoveKeepsDigests(s.ledger, move);
    forall w | 0 <= w < |l.workers| && l.workers[w].Placed?
      ensures l.workers[w].part < |l.digests| && l.digests[l.workers[w].part] in Stored(s, move, stored)
    {
      BecomesPlaced(s.ledger, move, w);
    }
  }

  lemma RegistryWork(s: State, move: Move, stored: bool)
    requires s.ledger.Can(move) && RegistryKept(s) && !move.Enqueue?
    requires move.Found? ==> s.ledger.DigestAt(move.w) in s.registry
    ensures RegistryKept(s.(ledger := s.ledger.Do(move), registry := Stored(s, move, stored)))
  {
    RegistryClaims(s, move, stored);
    RegistryPlaced(s, move, stored);
  }

  lemma RegistryStep(c: Config, s: State, step: Step)
    requires c.Valid() && Enabled(c, s, step) && RegistryKept(s)
    ensures RegistryKept(Apply(c, s, step))
  {
    if step.Work? {
      RegistryWork(s, step.move, step.stored);
    }
  }

  lemma StageStep(c: Config, s: State, step: Step)
    requires c.Valid() && Enabled(c, s, step) && StageKept(c, s)
    ensures StageKept(c, Apply(c, s, step))
  {
  }

  /** A part about to be credited has not been credited before. */
  lemma PartIsNew(l: Ledger, w: nat)
    requires PlacesKept(l) && CreditKept(l) && l.Has(w) && l.workers[w].HasPart()
    ensures l.workers[w].part !in l.credited && l.workers[w].part !in l.skipped
  {
  }

  lemma TwinsAreNew(l: Ledger, w: nat)
    requires TwinsKept(l) && CreditKept(l) && l.Can(CreditRest(w))
    ensures l.twins[w] !! l.credited && l.twins[w] !! l.skipped && l.workers[w].placed - 1 == |l.twins[w]|
  {
    assert TwinsOf(l, w);
  }

  lemma MoveKeepsCredit(l: Ledger, move: Move)
    requires l.Can(move) && !move.CreditSkip? && !move.CreditPart? && !move.CreditRest?
    ensures l.Do(move).credited == l.credited && l.Do(move).skipped == l.skipped
  {
  }

  lemma AccountComplete(
    c: Config, a: Progress.Account, credited: set<nat>, skipped: set<nat>, i: nat, size: nat, skip: bool)
    requires c.Valid() && AccountKept(c, a, credited, skipped) && !a.closed
    requires i < c.plan.N() && i !in credited && i !in skipped
    ensures AccountKept(c, a.Complete(i, size, skip), credited + {i}, if skip then skipped + {i} else skipped)
  {
    Progress.CallKept(a, Progress.CallComplete(i, size, skip));
  }

  lemma AccountTwins(c: Config, a: Progress.Account, credited: set<nat>, skipped: set<nat>, twins: set<nat>, size: nat)
    requires c.Valid() && AccountKept(c, a, credited, skipped) && !a.closed
    requires twins !! credited && twins !! skipped
    ensures AccountKept(c, a.CompleteTwins(|twins|, size), credited + twins, skipped + twins)
  {
    Progress.CallKept(a, Progress.CallTwins(|twins|, size));
    if twins == {} {
      assert credited + twins == credited && skipped + twins == skipped;
    }
  }

  /** Recordings that credit nothing. */
  lemma AccountOther(c: Config, a: Progress.Account, credited: set<nat>, skipped: set<nat>, call: Progress.Call)
    requires c.Valid() && AccountKept(c, a, credited, skipped) && Progress.InOrder(a, call)
    requires !call.CallMeasured? && !call.CallComplete? && !call.CallTwins?
    ensures AccountKept(c, Progress.Apply(a, call), credited, skipped)
  {
    Progress.CallKept(a, call);
  }

  lemma ReportWork(c: Config, s: State, move: Move)
    requires c.Valid() && s.ledger.Can(move) && |s.ledger.digests| <= c.plan.N() && !s.report.closed
    requires PlacesKept(s.ledger) && TwinsKept(s.ledger) && CreditKept(s.ledger)
    requires AccountKept(c, s.report, s.ledger.credited, s.ledger.skipped)
    ensures AccountKept(c, Reported(c, s, move), s.ledger.Do(move).credited, s.ledger.Do(move).skipped)
  {
    var l := s.ledger;
    match move
    case CreditSkip(w) =>
      PartIsNew(l, w);
      AccountComplete(c, s.report, l.credited, l.skipped, l.workers[w].part, c.plan.Size(l.workers[w].part), true);
    case CreditPart(w) =>
      PartIsNew(l, w);
      AccountComplete(
        c, s.report, l.credited, l.skipped, l.workers[w].part, c.plan.Size(l.workers[w].part), !l.workers[w].uploaded);
    case CreditRest(w) =>
      TwinsAreNew(l, w);
      AccountTwins(c, s.report, l.credited, l.skipped, l.twins[w], c.plan.Size(l.workers[w].part));
    case _ => MoveKeepsCredit(l, move);
  }

  lemma ReportedKeepsRest(c: Config, s: State, move: Move)
    requires c.Valid() && s.ledger.Can(move) && |s.ledger.digests| <= c.plan.N()
    ensures Reported(c, s, move).snap.hashedBytes == s.report.snap.hashedBytes
    ensures Reported(c, s, move).snap.phase == s.report.snap.phase
    ensures Reported(c, s, move).closed == s.report.closed
  {
  }

  lemma ReportStepQuiet(c: Config, s: State, step: Step)
    requires c.Valid() && Enabled(c, s, step) && ReportKept(c, s) && !step.Work?
    ensures ReportKept(c, Apply(c, s, step))
  {
    var a, credited, skipped := s.report, s.ledger.credited, s.ledger.skipped;
    match step
    case HashChunk(chunk) => AccountOther(c, a, credited, skipped, Progress.CallHashed(|chunk|));
    case WireBytes(n) => AccountOther(c, a, credited, skipped, Progress.CallWire(n));
    case RetryNoted => AccountOther(c, a, credited, skipped, Progress.CallRetried);
    case Finalize => AccountOther(c, a, credited, skipped, Progress.CallFinalizing);
    case ReportFinish => AccountOther(c, a, credited, skipped, Progress.CallFinish(s.stage == Aborted));
    case _ =>
  }

  lemma ReportStep(c: Config, s: State, step: Step)
    requires c.Valid() && Enabled(c, s, step) && LedgerKept(s.ledger) && ReportKept(c, s)
    ensures ReportKept(c, Apply(c, s, step))
  {
    if step.Work? {
      ReportWork(c, s, step.move);
      ReportedKeepsRest(c, s, step.move);
    } else {
      ReportStepQuiet(c, s, step);
    }
  }

  /** Every step keeps everything: conservation in every interleaving. */
  lemma StepKept(c: Config, s: State, step: Step)
    requires Inv(c, s) && Enabled(c, s, step)
    ensures Inv(c, Apply(c, s, step))
  {
    HashStep(c, s, step);
    LedgerStep(c, s, step);
    PoolStep(c, s, step);
    RegistryStep(c, s, step);
    StageStep(c, s, step);
    ReportStep(c, s, step);
  }

  lemma {:induction false} RunKept(c: Config, s: State, steps: seq<Step>)
    requires Inv(c, s) && Runs(c, s, steps)
    ensures Inv(c, Run(c, s, steps))
    decreases |steps|
  {
    if steps != [] {
      StepKept(c, s, steps[0]);
      RunKept(c, Apply(c, s, steps[0]), steps[1..]);
    }
  }
}
