/** No pull is ever stuck: from every state that pulls, kills and crashes can lead to, a running pull whose
    manifest describes some file can still commit exactly when none of its workers has failed. So every file
    can be pulled. */
module PullSucceeds {
  import opened Base
  import opened SplitPlan
  import opened PullSession
  import opened PullProtocol
  import Safety = PullSafety

  /** The steps of a pull that has read its manifest and goes on to its commit. */
  ghost predicate Own(step: Step) {
    || step.Measure? || step.Resize? || step.Work? || step.AllFetched?
    || step.Sync? || step.CloseFile? || step.Rename? || step.SyncDir?
  }

  ghost predicate AllOwn(steps: seq<Step>) {
    forall i :: 0 <= i < |steps| ==> Own(steps[i])
  }

  /** The pull itself, without a kill or a crash, can go on from s to t. */
  ghost predicate Reaches(c: Config, s: State, t: State) {
    exists steps :: AllOwn(steps) && Runs(c, s, steps) && Run(c, s, steps) == t
  }

  /** Every state that any number of pulls, kills and crashes can lead to. */
  ghost predicate Reachable(c: Config, s: State) {
    exists leftover, steps :: Runs(c, Initial(c, leftover), steps) && Run(c, Initial(c, leftover), steps) == s
  }

  ghost predicate Good(c: Config, from: State, s: State) {
    Reachable(c, from) && Reaches(c, from, s)
  }

  lemma {:induction false} OneMore(c: Config, s: State, steps: seq<Step>, step: Step)
    requires Runs(c, s, steps) && Enabled(c, Run(c, s, steps), step)
    ensures Runs(c, s, steps + [step]) && Run(c, s, steps + [step]) == Apply(c, Run(c, s, steps), step)
    decreases |steps|
  {
    if steps == [] {
      assert steps + [step] == [step];
    } else {
      OneMore(c, Apply(c, s, steps[0]), steps[1..], step);
      assert (steps + [step])[1..] == steps[1..] + [step];
    }
  }

  lemma Here(c: Config, s: State)
    requires Reachable(c, s)
    ensures Good(c, s, s)
  {
    assert AllOwn([]) && Runs(c, s, []) && Run(c, s, []) == s;
  }

  lemma Onward(c: Config, from: State, s: State, step: Step) returns (t: State)
    requires Good(c, from, s) && Own(step) && Enabled(c, s, step)
    ensures t == Apply(c, s, step) && Good(c, from, t)
  {
    var steps :| AllOwn(steps) && Runs(c, from, steps) && Run(c, from, steps) == s;
    OneMore(c, from, steps, step);
    assert AllOwn(steps + [step]);
    t := Apply(c, s, step);
  }

  lemma Kept(c: Config, from: State, s: State)
    requires Good(c, from, s)
    ensures Inv(c, s)
  {
    var leftover, before :|
      Runs(c, Initial(c, leftover), before) && Run(c, Initial(c, leftover), before) == from;
    RunKept(c, Initial(c, leftover), before);
    var steps :| Runs(c, from, steps) && Run(c, from, steps) == s;
    RunKept(c, from, steps);
  }

  /** A state on the way in which this job's parts are being moved. */
  ghost predicate Moves(c: Config, from: State, job: Job, s: State) {
    && Good(c, from, s) && 1 <= c.workers && job.Valid()
    && s.process.Moving? && s.process.job == job
  }

  ghost function Workers(s: State): seq<Fetcher>
    requires s.process.Moving?
  {
    s.process.session.workers
  }

  /** What the invariant says of the session, and of one worker. */
  lemma SessionPoint(c: Config, from: State, job: Job, s: State)
    requires Moves(c, from, job, s)
    ensures Safety.PlacesKept(job, s.process.session) && |Workers(s)| > 0
  {
    Kept(c, from, s);
  }

  lemma WorkerPoint(c: Config, from: State, job: Job, s: State, w: nat)
    requires Moves(c, from, job, s) && w < |Workers(s)|
    ensures Has(job, s.process.session, w) && Safety.Aligned(job, s.process.session, w)
  {
    Kept(c, from, s);
    assert Safety.AllAligned(job, s.process.session);
  }

  /** From s to t only worker w has moved on. */
  ghost predicate OnlyWorker(s: State, t: State, w: nat) {
    && s.process.Moving? && t.process.Moving? && t.process.job == s.process.job && t.process.resume == s.process.resume
    && t.process.session.queue == s.process.session.queue
    && |Workers(t)| == |Workers(s)|
    && forall v :: 0 <= v < |Workers(s)| && v != w ==> Workers(t)[v] == Workers(s)[v]
  }

  lemma OthersRest(hash: Hash, job: Job, resume: bool, s: Session, move: Move)
    requires job.Valid() && Can(job, s, move)
    ensures
      var t := Do(hash, job, resume, s, move);
      && |t.workers| == |s.workers|
      && (!move.Receive? ==> t.queue == s.queue)
      && (move.Receive? ==> |t.queue| == |s.queue| - 1)
      && forall w :: 0 <= w < |s.workers| && w != move.w ==> t.workers[w] == s.workers[w]
  {
  }

  lemma WorkOn(c: Config, from: State, job: Job, s: State, t: State, move: Move) returns (u: State)
    requires Moves(c, from, job, t) && OnlyWorker(s, t, move.w)
    requires Can(job, t.process.session, move) && !move.Receive?
    ensures Moves(c, from, job, u) && OnlyWorker(s, u, move.w)
    ensures u.process.session == Do(c.hash, job, s.process.resume, t.process.session, move)
  {
    u := Onward(c, from, t, Work(move));
    OthersRest(c.hash, job, t.process.resume, t.process.session, move);
  }

  // ---- one worker goes on with the part it has ----

  /** Whatever came before, one request for the whole part that delivers it. */
  lemma FetchPart(c: Config, from: State, job: Job, file: Bytes, s: State, t: State, w: nat) returns (u: State)
    requires Moves(c, from, job, t) && OnlyWorker(s, t, w) && job.Describes(c.hash, file)
    requires w < |Workers(t)| && Workers(t)[w].Between?
    ensures Moves(c, from, job, u) && OnlyWorker(s, u, w) && Workers(u)[w].Ready?
  {
    WorkerPoint(c, from, job, t, w);
    var i := Workers(t)[w].part;
    u := WorkOn(c, from, job, s, t, Open(w, 0));
    u := DeliverPart(c, from, job, file, s, u, w, i);
    WorkerPoint(c, from, job, u, w);
    u := WorkOn(c, from, job, s, u, Drained(w));
    WorkerPoint(c, from, job, u, w);
    assert job.PartVerifies(c.hash, file, i);
    u := WorkOn(c, from, job, s, u, Check(w));
  }

  lemma DeliverPart(c: Config, from: State, job: Job, file: Bytes, s: State, t: State, w: nat, i: nat)
    returns (u: State)
    requires Moves(c, from, job, t) && OnlyWorker(s, t, w) && job.Describes(c.hash, file)
    requires w < |Workers(t)| && i < job.plan.N() && Workers(t)[w] == Streaming(i, [], 0, 0)
    ensures Moves(c, from, job, u) && OnlyWorker(s, u, w)
    ensures Workers(u)[w] == Streaming(i, job.plan.Slice(file, i), 0, job.plan.Size(i))
  {
    var bytes := job.plan.Slice(file, i);
    LoHi(job.plan, i);
    WorkerPoint(c, from, job, t, w);
    u := t;
    if bytes != [] {
      u := WorkOn(c, from, job, s, t, Chunk(w, bytes));
    }
    assert [] + bytes == bytes;
  }

  /** The part is verified out of the file, or left to be fetched. */
  lemma VerifyPart(c: Config, from: State, job: Job, s: State, w: nat) returns (t: State)
    requires Moves(c, from, job, s) && w < |Workers(s)| && Workers(s)[w].Verifying?
    ensures Moves(c, from, job, t) && OnlyWorker(s, t, w)
    ensures Workers(t)[w].Ready? || Workers(t)[w].Between?
  {
    WorkerPoint(c, from, job, s, w);
    t := s;
    var f := Workers(s)[w];
    var left := job.plan.Size(f.part) - |f.absorbed|;
    if left > 0 {
      t := WorkOn(c, from, job, s, t, VerifyRead(w, left));
    }
    WorkerPoint(c, from, job, t, w);
    t := WorkOn(c, from, job, s, t, VerifyEnd(w));
  }

  /** A stream can break and be asked for again. */
  lemma StartOver(c: Config, from: State, job: Job, s: State, w: nat) returns (t: State)
    requires Moves(c, from, job, s) && w < |Workers(s)| && (Workers(s)[w].Streaming? || Workers(s)[w].Whole?)
    ensures Moves(c, from, job, t) && OnlyWorker(s, t, w) && Workers(t)[w].Between?
  {
    WorkerPoint(c, from, job, s, w);
    if Workers(s)[w].Streaming? {
      t := WorkOn(c, from, job, s, s, StreamBreaks(w));
    } else {
      t := WorkOn(c, from, job, s, s, TailBreaks(w));
    }
  }

  /** A worker that has not failed can make itself ready, or has left. */
  lemma MakeReady(c: Config, from: State, job: Job, file: Bytes, s: State, w: nat) returns (t: State)
    requires Moves(c, from, job, s) && job.Describes(c.hash, file)
    requires w < |Workers(s)| && !Workers(s)[w].Failed?
    ensures Moves(c, from, job, t) && OnlyWorker(s, t, w)
    ensures Workers(t)[w].Ready? || (Workers(s)[w].Gone? && t == s)
  {
    t := s;
    if Workers(s)[w].Verifying? {
      t := VerifyPart(c, from, job, s, w);
    } else if Workers(s)[w].Streaming? || Workers(s)[w].Whole? {
      t := StartOver(c, from, job, s, w);
    }
    if Workers(t)[w].Between? {
      t := FetchPart(c, from, job, file, s, t, w);
    }
  }

  // ---- all of them, the queue, and the leave ----

  /** None of the first k workers is busy, and none has failed. */
  ghost predicate Resting(s: State, k: nat)
    requires s.process.Moving?
  {
    && (forall w :: 0 <= w < |Workers(s)| && w < k ==> Workers(s)[w].Ready? || Workers(s)[w].Gone?)
    && (forall w :: 0 <= w < |Workers(s)| ==> !Workers(s)[w].Failed?)
  }

  lemma {:induction false} AllReady(c: Config, from: State, job: Job, file: Bytes, s: State, k: nat) returns (t: State)
    requires Moves(c, from, job, s) && job.Describes(c.hash, file) && k <= |Workers(s)| && Resting(s, k)
    ensures Moves(c, from, job, t) && Resting(t, |Workers(t)|)
    decreases |Workers(s)| - k
  {
    if k == |Workers(s)| {
      t := s;
    } else {
      var next := MakeReady(c, from, job, file, s, k);
      t := AllReady(c, from, job, file, next, k + 1);
    }
  }

  lemma TakePart(c: Config, from: State, job: Job, s: State) returns (t: State)
    requires Moves(c, from, job, s) && Resting(s, |Workers(s)|) && s.process.session.queue != []
    ensures Moves(c, from, job, t) && |Workers(t)| == |Workers(s)| > 0
    ensures |t.process.session.queue| < |s.process.session.queue|
    ensures Workers(t)[0].HasPart()
    ensures forall w :: 1 <= w < |Workers(s)| ==> Workers(t)[w] == Workers(s)[w]
  {
    SessionPoint(c, from, job, s);
    WorkerPoint(c, from, job, s, 0);
    t := Onward(c, from, s, Work(Receive(0)));
    OthersRest(c.hash, job, s.process.resume, s.process.session, Receive(0));
  }

  lemma {:induction false} DrainAll(c: Config, from: State, job: Job, file: Bytes, s: State) returns (t: State)
    requires Moves(c, from, job, s) && job.Describes(c.hash, file) && Resting(s, |Workers(s)|)
    ensures Moves(c, from, job, t) && Resting(t, |Workers(t)|) && t.process.session.queue == []
    decreases |s.process.session.queue|
  {
    if s.process.session.queue == [] {
      t := s;
    } else {
      var taken := TakePart(c, from, job, s);
      var next := MakeReady(c, from, job, file, taken, 0);
      t := DrainAll(c, from, job, file, next);
    }
  }

  lemma {:induction false} LeaveAll(c: Config, from: State, job: Job, s: State, k: nat) returns (t: State)
    requires Moves(c, from, job, s) && Resting(s, |Workers(s)|) && s.process.session.queue == []
    requires k <= |Workers(s)| && forall w :: 0 <= w < k ==> Workers(s)[w].Gone?
    ensures Moves(c, from, job, t) && forall w :: 0 <= w < |Workers(t)| ==> Workers(t)[w].Gone?
    decreases |Workers(s)| - k
  {
    if k == |Workers(s)| {
      t := s;
    } else if Workers(s)[k].Gone? {
      t := LeaveAll(c, from, job, s, k + 1);
    } else {
      WorkerPoint(c, from, job, s, k);
      var next := WorkOn(c, from, job, s, s, Leave(k));
      t := LeaveAll(c, from, job, next, k + 1);
    }
  }

  // ---- the whole pull ----

  ghost predicate Committed(c: Config, job: Job, s: State) {
    s.process.Idle? && s.disk.dest.Some? && job.Describes(c.hash, s.disk.dest.value.bytes)
  }

  /** Some worker of the running pull has failed. */
  ghost predicate SomeFailed(s: State) {
    s.process.Moving? && exists w :: 0 <= w < |s.process.session.workers| && s.process.session.workers[w].Failed?
  }

  lemma BeginMoving(c: Config, from: State, job: Job, s: State) returns (t: State)
    requires Good(c, from, s) && 1 <= c.workers && job.Valid()
    requires s.process == Measuring(job) || (s.process.Sizing? && s.process.job == job)
    ensures Moves(c, from, job, t) && Resting(t, 0)
  {
    Kept(c, from, s);
    t := s;
    if t.process.Measuring? {
      t := Onward(c, from, t, Measure);
    }
    t := Onward(c, from, t, Resize);
  }

  lemma FinishMoving(c: Config, from: State, job: Job, file: Bytes, s: State) returns (t: State)
    requires Moves(c, from, job, s) && job.Describes(c.hash, file) && Resting(s, 0)
    ensures Good(c, from, t) && t.process == Syncing(job)
  {
    t := AllReady(c, from, job, file, s, 0);
    t := DrainAll(c, from, job, file, t);
    t := LeaveAll(c, from, job, t, 0);
    forall w | 0 <= w < |t.process.session.workers| ensures t.process.session.workers[w].Gone? {
      assert Workers(t)[w].Gone?;
    }
    t := Onward(c, from, t, AllFetched);
  }

  lemma FinishCommit(c: Config, from: State, job: Job, s: State) returns (t: State)
    requires Good(c, from, s) && 1 <= c.workers
    requires s.process in {Syncing(job), Closing(job), Renaming(job), DirSyncing(job)}
    ensures Good(c, from, t) && Committed(c, job, t)
  {
    Kept(c, from, s);
    t := s;
    if t.process.Syncing? {
      t := Onward(c, from, t, Sync);
    }
    if t.process.Closing? {
      t := Onward(c, from, t, CloseFile);
    }
    if t.process.Renaming? {
      t := Onward(c, from, t, Rename);
    }
    t := Onward(c, from, t, SyncDir);
  }

  lemma Commits(c: Config, s: State, file: Bytes) returns (t: State)
    requires Reachable(c, s) && 1 <= c.workers && !s.process.Idle? && !s.process.Resolving?
    requires s.process.job.Describes(c.hash, file) && !SomeFailed(s)
    ensures Good(c, s, t) && Committed(c, s.process.job, t)
  {
    var job := s.process.job;
    Here(c, s);
    t := s;
    if t.process.Measuring? || t.process.Sizing? {
      t := BeginMoving(c, s, job, t);
    }
    if t.process.Moving? {
      t := FinishMoving(c, s, job, file, t);
    }
    t := FinishCommit(c, s, job, t);
  }

  lemma {:induction false} FailureIsFinal(c: Config, s: State, steps: seq<Step>)
    requires AllOwn(steps) && Runs(c, s, steps) && SomeFailed(s)
    ensures SomeFailed(Run(c, s, steps))
    decreases |steps|
  {
    if steps != [] {
      var w :| 0 <= w < |s.process.session.workers| && s.process.session.workers[w].Failed?;
      if steps[0].Work? {
        OthersRest(c.hash, s.process.job, s.process.resume, s.process.session, steps[0].move);
        assert Apply(c, s, steps[0]).process.session.workers[w].Failed?;
      }
      assert AllOwn(steps[1..]);
      FailureIsFinal(c, Apply(c, s, steps[0]), steps[1..]);
    }
  }

  /** From every such state, a running pull whose manifest describes some file can still go on, by itself, to
      commit a described file exactly when no worker of it has failed. */
  lemma CanStillCommit(c: Config, s: State, file: Bytes)
    requires Reachable(c, s) && 1 <= c.workers && !s.process.Idle? && !s.process.Resolving?
    requires s.process.job.Describes(c.hash, file)
    ensures (exists t :: Reaches(c, s, t) && Committed(c, s.process.job, t)) <==> !SomeFailed(s)
  {
    if SomeFailed(s) {
      forall t | Reaches(c, s, t) ensures !Committed(c, s.process.job, t) {
        var steps :| AllOwn(steps) && Runs(c, s, steps) && Run(c, s, steps) == t;
        FailureIsFinal(c, s, steps);
      }
    } else {
      var t := Commits(c, s, file);
    }
  }

  /** So every described file can be pulled into any leftover partial. */
  lemma SomeRunCommits(c: Config, leftover: Option<Bytes>, job: Job, file: Bytes) returns (steps: seq<Step>)
    requires job.Describes(c.hash, file) && 1 <= c.workers
    ensures Runs(c, Initial(c, leftover), steps)
    ensures
      var t := Run(c, Initial(c, leftover), steps);
      t.process.Idle? && t.jobs == {job} && t.disk.dest.Some? && job.Describes(c.hash, t.disk.dest.value.bytes)
  {
    var s := Initial(c, leftover);
    var first := [OpenSink, Decode(job)];
    var opened' := Apply(c, s, OpenSink);
    var read := Apply(c, opened', Decode(job));
    assert first[1..] == [Decode(job)] && first[1..][1..] == [];
    assert Runs(c, read, []) && Run(c, read, []) == read;
    assert Runs(c, opened', first[1..]) && Run(c, opened', first[1..]) == read;
    assert Runs(c, s, first) && Run(c, s, first) == read;
    var t := Commits(c, read, file);
    var rest :| AllOwn(rest) && Runs(c, read, rest) && Run(c, read, rest) == t;
    JobsStay(c, read, rest);
    steps := [OpenSink] + ([Decode(job)] + rest);
    assert steps[1..] == [Decode(job)] + rest && steps[1..][1..] == rest;
    assert Runs(c, opened', steps[1..]) && Run(c, opened', steps[1..]) == t;
  }

  lemma {:induction false} JobsStay(c: Config, s: State, steps: seq<Step>)
    requires AllOwn(steps) && Runs(c, s, steps)
    ensures Run(c, s, steps).jobs == s.jobs
    decreases |steps|
  {
    if steps != [] {
      assert AllOwn(steps[1..]);
      JobsStay(c, Apply(c, s, steps[0]), steps[1..]);
    }
  }
}
