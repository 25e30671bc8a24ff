/** What a pull's progress counts, event by event: parts found in place apart from parts fetched, bytes moved apart
    from bytes hashed. */
module PullCounts {
  import opened Base
  import opened SplitPlan
  import opened PullSession
  import opened PullReport
  import Progress
  import Safety = PullSafety

  /** How many parts an event put in place. */
  ghost function Placed(v: Watched, t: Watched): int {
    |VerifiedParts(t.session)| - |VerifiedParts(v.session)|
  }

  /** From one event to the next, while the transfer is open. */
  ghost predicate CountedBy(event: Event, v: Watched, t: Watched) {
    var a, b := v.report.snap, t.report.snap;
    && b.completedParts == a.completedParts + Placed(v, t)
    && b.skippedParts == a.skippedParts + (if event.Work? && event.move.VerifyEnd? then Placed(v, t) else 0)
    && b.wireBytes == a.wireBytes + (if event.Work? && event.move.Chunk? then |event.move.bytes| else 0)
    && b.hashedBytes == a.hashedBytes + (if event.Work? && event.move.VerifyRead? then event.move.n else 0)
    && b.retries == a.retries + (if event.RetryNoted? then 1 else 0)
    && b.totalBytes == a.totalBytes && b.totalParts == a.totalParts
    && b.phase == match event
                  case Finalize => Progress.Finalizing
                  case Finish(failed) => if failed then Progress.Failed else Progress.Done
                  case _ => a.phase
  }

  /** A part is skipped when it is found in the partial file and moved when it is fetched; bytes are moved when they
      reach the disk and hashed when they are read back from it. */
  lemma WhatAnEventCounts(hash: Hash, job: Job, resume: bool, v: Watched, event: Event)
    requires Inv(hash, job, v) && CanDo(job, v, event) && !v.report.closed
    ensures CountedBy(event, v, After(hash, job, resume, v, event))
  {
    if event.Work? {
      WorkCounts(hash, job, resume, v, event.move);
    }
  }

  lemma WorkCounts(hash: Hash, job: Job, resume: bool, v: Watched, move: Move)
    requires Inv(hash, job, v) && CanDo(job, v, Work(move)) && !v.report.closed
    ensures CountedBy(Work(move), v, After(hash, job, resume, v, Work(move)))
  {
    var f := v.session.workers[move.w];
    NewlyPlaced(hash, job, resume, v.session, move);
    if (move.VerifyEnd? || move.Check?) && hash(f.absorbed) == job.digests[f.part] {
      PlacedCounts(hash, job, resume, v, move);
    } else {
      QuietCounts(hash, job, resume, v, move);
    }
  }

  lemma QuietCounts(hash: Hash, job: Job, resume: bool, v: Watched, move: Move)
    requires job.Valid() && CanDo(job, v, Work(move)) && |v.hashed| == job.plan.N()
    requires VerifiedParts(Do(hash, job, resume, v.session, move)) == VerifiedParts(v.session)
    requires (move.VerifyEnd? || move.Check?) ==>
               hash(v.session.workers[move.w].absorbed) != job.digests[v.session.workers[move.w].part]
    ensures CountedBy(Work(move), v, After(hash, job, resume, v, Work(move)))
  {
  }

  lemma PlacedCounts(hash: Hash, job: Job, resume: bool, v: Watched, move: Move)
    requires job.Valid() && CanDo(job, v, Work(move)) && |v.hashed| == job.plan.N()
    requires Safety.PlacesKept(job, v.session) && CreditKept(job, v)
    requires move.VerifyEnd? || move.Check?
    requires hash(v.session.workers[move.w].absorbed) == job.digests[v.session.workers[move.w].part]
    ensures CountedBy(Work(move), v, After(hash, job, resume, v, Work(move)))
  {
    NewlyPlaced(hash, job, resume, v.session, move);
    PartHeld(job, v, move.w);
  }

  lemma PartHeld(job: Job, v: Watched, w: nat)
    requires job.Valid() && Safety.PlacesKept(job, v.session) && CreditKept(job, v)
    requires w < |v.session.workers| && v.session.workers[w].HasPart()
    ensures v.session.workers[w].part < |v.report.credited|
    ensures v.session.workers[w].part !in VerifiedParts(v.session) ==> !v.report.credited[v.session.workers[w].part]
  {
  }

  // ---- a pull that has nothing to take up ----

  ghost predicate NobodyVerifies(v: Watched) {
    forall w :: 0 <= w < |v.session.workers| ==> !v.session.workers[w].Verifying?
  }

  lemma MoveVerifiesNothing(hash: Hash, job: Job, s: Session, move: Move, w: nat)
    requires job.Valid() && Can(job, s, move) && forall u :: 0 <= u < |s.workers| ==> !s.workers[u].Verifying?
    requires w < |Do(hash, job, false, s, move).workers|
    ensures !Do(hash, job, false, s, move).workers[w].Verifying?
  {
    assert w < |s.workers|;
  }

  lemma StepVerifiesNothing(hash: Hash, job: Job, v: Watched, event: Event)
    requires Inv(hash, job, v) && CanDo(job, v, event) && NobodyVerifies(v)
    ensures NobodyVerifies(After(hash, job, false, v, event))
    ensures After(hash, job, false, v, event).report.snap.skippedParts == v.report.snap.skippedParts
    ensures After(hash, job, false, v, event).report.snap.hashedBytes == v.report.snap.hashedBytes
  {
    if event.Work? {
      WorkCounts(hash, job, false, v, event.move);
      var t := After(hash, job, false, v, event);
      forall w | 0 <= w < |t.session.workers| ensures !t.session.workers[w].Verifying? {
        MoveVerifiesNothing(hash, job, v.session, event.move, w);
      }
    }
  }

  /** It skips no part and hashes none back from the disk, in any interleaving. */
  lemma {:induction false} FreshPullSkipsNothing(hash: Hash, job: Job, v: Watched, events: seq<Event>)
    requires Inv(hash, job, v) && NobodyVerifies(v) && Runs(hash, job, false, v, events)
    ensures
      var t := Run(hash, job, false, v, events);
      && t.report.snap.skippedParts == v.report.snap.skippedParts
      && t.report.snap.hashedBytes == v.report.snap.hashedBytes
    decreases |events|
  {
    if events != [] {
      StepVerifiesNothing(hash, job, v, events[0]);
      assert Runs(hash, job, false, v, [events[0]]) by {
        assert [events[0]][1..] == [];
      }
      EventKept(hash, job, false, v, events[0]);
      FreshPullSkipsNothing(hash, job, After(hash, job, false, v, events[0]), events[1..]);
    }
  }
}
