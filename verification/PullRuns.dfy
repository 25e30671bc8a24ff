/** What the code of one worker of a pull does, as events of PullReport: moves of its session, with what they
    record. */
module PullRuns {
  import opened Base
  import opened SplitPlan
  import opened PullSession
  import opened PullReport

  /** What worker w does with the part it has. */
  ghost predicate EventOf(event: Event, w: nat) {
    match event
    case Work(move) => move.w == w && !move.Receive?
    case RetryNoted => true
    case _ => false
  }

  /** These events of worker w alone lead from s to t. */
  ghost predicate Ran(hash: Hash, job: Job, resume: bool, w: nat, s: Watched, events: seq<Event>, t: Watched)
    requires job.Valid()
    decreases |events|
  {
    if events == [] then s == t
    else
      && EventOf(events[0], w) && CanDo(job, s, events[0]) && |s.hashed| == job.plan.N()
      && Ran(hash, job, resume, w, After(hash, job, resume, s, events[0]), events[1..], t)
  }

  /** Some events of worker w alone lead from s to t. */
  ghost predicate Led(hash: Hash, job: Job, resume: bool, w: nat, s: Watched, t: Watched)
    requires job.Valid()
  {
    exists events :: Ran(hash, job, resume, w, s, events, t)
  }

  lemma {:induction false} RanThen(
    hash: Hash, job: Job, resume: bool, w: nat, s: Watched, events: seq<Event>, t: Watched,
    more: seq<Event>, u: Watched)
    requires job.Valid() && Ran(hash, job, resume, w, s, events, t) && Ran(hash, job, resume, w, t, more, u)
    ensures Ran(hash, job, resume, w, s, events + more, u)
    decreases |events|
  {
    if events == [] {
      assert events + more == more;
    } else {
      assert (events + more)[1..] == events[1..] + more;
      RanThen(hash, job, resume, w, After(hash, job, resume, s, events[0]), events[1..], t, more, u);
    }
  }

  lemma LedNowhere(hash: Hash, job: Job, resume: bool, w: nat, s: Watched)
    requires job.Valid()
    ensures Led(hash, job, resume, w, s, s)
  {
    assert Ran(hash, job, resume, w, s, [], s);
  }

  lemma LedOn(hash: Hash, job: Job, resume: bool, w: nat, s: Watched, t: Watched, event: Event)
    requires job.Valid() && Led(hash, job, resume, w, s, t)
    requires EventOf(event, w) && CanDo(job, t, event) && |t.hashed| == job.plan.N()
    ensures Led(hash, job, resume, w, s, After(hash, job, resume, t, event))
  {
    var u := After(hash, job, resume, t, event);
    var events :| Ran(hash, job, resume, w, s, events, t);
    assert [event][1..] == [] && Ran(hash, job, resume, w, u, [], u);
    assert Ran(hash, job, resume, w, t, [event], u);
    RanThen(hash, job, resume, w, s, events, t, [event], u);
  }

  lemma {:induction false} RanIsARun(
    hash: Hash, job: Job, resume: bool, w: nat, s: Watched, events: seq<Event>, t: Watched)
    requires job.Valid() && Ran(hash, job, resume, w, s, events, t)
    ensures Runs(hash, job, resume, s, events) && Run(hash, job, resume, s, events) == t
    decreases |events|
  {
    if events != [] {
      RanIsARun(hash, job, resume, w, After(hash, job, resume, s, events[0]), events[1..], t);
    }
  }

  /** What the code does is a run of the watched pull, so it keeps what every such run keeps. */
  lemma LedIsKept(hash: Hash, job: Job, resume: bool, w: nat, s: Watched, t: Watched)
    requires Inv(hash, job, s) && Led(hash, job, resume, w, s, t)
    ensures Inv(hash, job, t)
    ensures exists events :: Runs(hash, job, resume, s, events) && Run(hash, job, resume, s, events) == t
  {
    var events :| Ran(hash, job, resume, w, s, events, t);
    RanIsARun(hash, job, resume, w, s, events, t);
    RunKept(hash, job, resume, s, events);
  }

  // ---- what stays as it was ----

  /** Nothing outside part i's range differs. */
  ghost predicate OnlyPart(job: Job, i: nat, before: Bytes, after: Bytes)
    requires job.Valid() && i < job.plan.N()
  {
    && |before| == |after|
    && forall k :: 0 <= k < |before| && (k < job.plan.Lo(i) || job.plan.Hi(i) <= k) ==> after[k] == before[k]
  }

  lemma PutOnlyPart(job: Job, i: nat, file: Bytes, at: nat, bytes: Bytes)
    requires job.Valid() && i < job.plan.N() && |file| == job.plan.fileSize as int && at + |bytes| <= job.plan.Size(i)
    ensures OnlyPart(job, i, file, Put(job, file, i, at, bytes))
  {
    LoHi(job.plan, i);
  }

  lemma MoveKeepsPart(hash: Hash, job: Job, resume: bool, s: Session, move: Move, i: nat)
    requires job.Valid() && Can(job, s, move) && !move.Receive?
    requires s.workers[move.w].HasPart() ==> s.workers[move.w].part == i
    ensures
      var t := Do(hash, job, resume, s, move);
      && |t.workers| == |s.workers|
      && (t.workers[move.w].HasPart() ==> t.workers[move.w].part == i)
  {
  }

  lemma MoveOnlyPart(hash: Hash, job: Job, resume: bool, s: Session, move: Move, i: nat)
    requires job.Valid() && i < job.plan.N() && Can(job, s, move) && !move.Receive?
    requires s.workers[move.w].HasPart() ==> s.workers[move.w].part == i
    ensures OnlyPart(job, i, s.file, Do(hash, job, resume, s, move).file)
  {
    var f := s.workers[move.w];
    match move
    case Chunk(_, bytes) => PutOnlyPart(job, i, s.file, f.from + f.written, bytes);
    case WriteRefused(_, bytes, taken) => PutOnlyPart(job, i, s.file, f.from + f.written, bytes[..taken]);
    case _ =>
  }

  lemma {:induction false} RanOnlyPart(
    hash: Hash, job: Job, resume: bool, w: nat, s: Watched, events: seq<Event>, t: Watched, i: nat)
    requires job.Valid() && i < job.plan.N() && Ran(hash, job, resume, w, s, events, t)
    requires w < |s.session.workers| && (s.session.workers[w].HasPart() ==> s.session.workers[w].part == i)
    ensures OnlyPart(job, i, s.session.file, t.session.file)
    decreases |events|
  {
    if events != [] {
      if events[0].Work? {
        MoveKeepsPart(hash, job, resume, s.session, events[0].move, i);
        MoveOnlyPart(hash, job, resume, s.session, events[0].move, i);
      }
      RanOnlyPart(hash, job, resume, w, After(hash, job, resume, s, events[0]), events[1..], t, i);
    }
  }

  /** A worker that keeps to its part changes nothing outside its range. */
  lemma LedOnlyPart(hash: Hash, job: Job, resume: bool, w: nat, s: Watched, t: Watched, i: nat)
    requires job.Valid() && i < job.plan.N() && Led(hash, job, resume, w, s, t)
    requires w < |s.session.workers| && (s.session.workers[w].HasPart() ==> s.session.workers[w].part == i)
    ensures OnlyPart(job, i, s.session.file, t.session.file)
  {
    var events :| Ran(hash, job, resume, w, s, events, t);
    RanOnlyPart(hash, job, resume, w, s, events, t, i);
  }
}
