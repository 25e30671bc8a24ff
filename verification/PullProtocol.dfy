/** Any number of pulls into one destination, one after another, killed or crashed between any two
    steps (internal/transfer/pull.go over internal/file/sink.go). Unsynced writes may be lost in a
    crash, in any way, and so may a rename whose directory was not synced. */
module PullProtocol {
  import opened Base
  import opened SplitPlan
  import opened PullSession
  import Safety = PullSafety

  /** original is what the destination held before the first pull. */
  datatype Config = Config(hash: Hash, workers: nat, original: Option<Bytes>) {
    ghost function Pool(job: Job): (n: nat)
      requires job.Valid() && 1 <= workers
      ensures 1 <= n
    {
      if workers <= job.plan.N() then workers else job.plan.N()
    }
  }

  /** A file on disk; synced says that its content survives a crash. */
  datatype Inode = Inode(bytes: Bytes, synced: bool)

  /** fallback holds what the destination's name may point to again after a crash: what it pointed to
      before a rename that no directory flush has followed. */
  datatype Disk = Disk(partial: Option<Inode>, dest: Option<Inode>, fallback: set<Option<Inode>>)

  /** How far the one running pull has got. */
  datatype Process =
    | Idle
    | Resolving
    | Measuring(job: Job)
    | Sizing(job: Job, resume: bool)
    | Moving(job: Job, resume: bool, session: Session)
    | Syncing(job: Job)
    | Closing(job: Job)
    | Renaming(job: Job)
    | DirSyncing(job: Job)

  /** jobs is history: the manifests the pulls have decoded so far. */
  datatype State = State(disk: Disk, process: Process, jobs: set<Job>)

  datatype Step =
    | OpenSink
    | Decode(job: Job)
    | Measure
    | Resize
    | Work(move: Move)
    | AllFetched
    | Sync
    | CloseFile
    | Rename
    | SyncDir
    | StopFailed
    | DiscardEmpty
    | Kill
    | Crash(partial: Option<Bytes>, dest: Option<Bytes>)
    | Tamper(partial: Option<Bytes>)

  ghost function OnDisk(content: Option<Bytes>): Option<Inode> {
    match content
    case None => None
    case Some(bytes) => Some(Inode(bytes, true))
  }

  ghost function Initial(c: Config, leftover: Option<Bytes>): State {
    State(Disk(OnDisk(leftover), OnDisk(c.original), {}), Idle, {})
  }

  /** What a crash can leave of a file: all of it when it was synced, anything otherwise. */
  ghost predicate Survives(before: Option<Inode>, after: Option<Bytes>) {
    match before
    case None => after == None
    case Some(inode) => after.Some? && (inode.synced ==> after.value == inode.bytes)
  }

  /** Truncate: cut short, or extended with zeros. */
  ghost function Truncated(bytes: Bytes, size: nat): (r: Bytes)
    ensures |r| == size
  {
    if size <= |bytes| then bytes[..size] else bytes + seq(size - |bytes|, _ => 0)
  }

  /** A leftover is worth hashing only when it is exactly as long as the file, and not empty. */
  predicate Resumable(existing: int, fileSize: int) {
    existing == fileSize && fileSize > 0
  }

  ghost predicate Enabled(c: Config, s: State, step: Step) {
    1 <= c.workers &&
    match step
    case OpenSink => s.process.Idle?
    case Decode(job) => s.process.Resolving? && job.Valid()
    case Measure => s.process.Measuring? && s.disk.partial.Some?
    case Resize => s.process.Sizing? && s.process.job.Valid() && s.disk.partial.Some?
    case Work(move) => s.process.Moving? && s.process.job.Valid() && Can(s.process.job, s.process.session, move)
    case AllFetched =>
      s.process.Moving? && forall w :: 0 <= w < |s.process.session.workers| ==> s.process.session.workers[w].Gone?
    case Sync => s.process.Syncing? && s.disk.partial.Some?
    case CloseFile => s.process.Closing?
    case Rename => s.process.Renaming? && s.disk.partial.Some?
    case SyncDir => s.process.DirSyncing?
    case StopFailed =>
      && !s.process.Idle?
      && (s.process.Moving? ==>
            forall w :: 0 <= w < |s.process.session.workers| ==>
              s.process.session.workers[w].Gone? || s.process.session.workers[w].Failed?)
    case DiscardEmpty => s.process.Idle? && s.disk.partial.Some? && s.disk.partial.value.bytes == []
    case Kill => true
    case Crash(_, dest) => Survives(s.disk.dest, dest) || exists prior :: prior in s.disk.fallback && Survives(prior, dest)
    case Tamper(_) => s.process.Idle?
  }

  ghost function SetPartial(s: State, inode: Inode): State {
    s.(disk := s.disk.(partial := Some(inode)))
  }

  ghost function Apply(c: Config, s: State, step: Step): State
    requires Enabled(c, s, step)
  {
    match step
    case OpenSink =>
      (if s.disk.partial.Some? then s else SetPartial(s, Inode([], false))).(process := Resolving)
    case Decode(job) => s.(process := Measuring(job), jobs := s.jobs + {job})
    case Measure =>
      var job := s.process.job;
      s.(process := Sizing(job, Resumable(|s.disk.partial.value.bytes|, job.plan.fileSize as int)))
    case Resize =>
      var job := s.process.job;
      var file := Truncated(s.disk.partial.value.bytes, job.plan.fileSize as int);
      SetPartial(s, Inode(file, false)).(process := Moving(job, s.process.resume, Begin(job, file, c.Pool(job))))
    case Work(move) =>
      var next := Do(c.hash, s.process.job, s.process.resume, s.process.session, move);
      SetPartial(s, Inode(next.file, false)).(process := s.process.(session := next))
    case AllFetched => s.(process := Syncing(s.process.job))
    case Sync => SetPartial(s, s.disk.partial.value.(synced := true)).(process := Closing(s.process.job))
    case CloseFile => s.(process := Renaming(s.process.job))
    case Rename =>
      s.(disk := Disk(None, s.disk.partial, s.disk.fallback + {s.disk.dest}), process := DirSyncing(s.process.job))
    case SyncDir => s.(disk := s.disk.(fallback := {}), process := Idle)
    case StopFailed => s.(process := Idle)
    case DiscardEmpty => s.(disk := s.disk.(partial := None))
    case Kill => s.(process := Idle)
    case Crash(partial, dest) => s.(disk := Disk(OnDisk(partial), OnDisk(dest), {}), process := Idle)
    case Tamper(partial) => s.(disk := s.disk.(partial := OnDisk(partial)))
  }

  ghost predicate Runs(c: Config, s: State, steps: seq<Step>)
    decreases |steps|
  {
    steps == [] || (Enabled(c, s, steps[0]) && Runs(c, Apply(c, s, steps[0]), steps[1..]))
  }

  ghost function Run(c: Config, s: State, steps: seq<Step>): State
    requires Runs(c, s, steps)
    decreases |steps|
  {
    if steps == [] then s else Run(c, Apply(c, s, steps[0]), steps[1..])
  }

  /** A pull hashes what it finds exactly when that is as long as the file and not empty; then it starts from those
      bytes as they are, and otherwise from them cut, or extended with zeros, to the file's length. */
  lemma LeftoverIsTakenUp(c: Config, s: State)
    requires Enabled(c, s, Measure) && s.process.job.Valid()
    ensures Enabled(c, Apply(c, s, Measure), Resize)
    ensures
      var left, size := s.disk.partial.value.bytes, s.process.job.plan.fileSize as int;
      var t := Apply(c, Apply(c, s, Measure), Resize);
      && t.process.Moving? && t.disk.partial.Some? && t.process.session.file == t.disk.partial.value.bytes
      && (t.process.resume <==> |left| == size && size > 0)
      && (t.process.resume ==> t.process.session.file == left)
      && |t.process.session.file| == size
      && forall k :: 0 <= k < size ==> t.process.session.file[k] == if k < |left| then left[k] else 0
  {
  }

  // ---- what every step keeps ----

  ghost predicate DescribedBySome(c: Config, jobs: set<Job>, bytes: Bytes) {
    exists job :: job in jobs && job.Describes(c.hash, bytes)
  }

  /** The previous content, or a durable file whose every part verifies. */
  ghost predicate Good(c: Config, jobs: set<Job>, at: Option<Inode>) {
    at == OnDisk(c.original) || (at.Some? && at.value.synced && DescribedBySome(c, jobs, at.value.bytes))
  }

  ghost predicate ProcessKept(c: Config, s: State) {
    match s.process
    case Idle => true
    case Resolving => s.disk.partial.Some?
    case Measuring(job) => job.Valid() && job in s.jobs && s.disk.partial.Some?
    case Sizing(job, _) => job.Valid() && job in s.jobs && s.disk.partial.Some?
    case Moving(job, _, session) =>
      && job in s.jobs
      && Safety.Inv(c.hash, job, session)
      && 0 < |session.workers|
      && s.disk.partial == Some(Inode(session.file, false))
    case Syncing(job) =>
      job in s.jobs && s.disk.partial.Some? && job.Describes(c.hash, s.disk.partial.value.bytes)
    case Closing(job) =>
      job in s.jobs && s.disk.partial.Some? && s.disk.partial.value.synced && job.Describes(c.hash, s.disk.partial.value.bytes)
    case Renaming(job) =>
      job in s.jobs && s.disk.partial.Some? && s.disk.partial.value.synced && job.Describes(c.hash, s.disk.partial.value.bytes)
    case DirSyncing(job) => s.disk.dest.Some? && job.Describes(c.hash, s.disk.dest.value.bytes)
  }

  ghost predicate Inv(c: Config, s: State) {
    && ProcessKept(c, s)
    && Good(c, s.jobs, s.disk.dest)
    && (forall prior :: prior in s.disk.fallback ==> Good(c, s.jobs, prior))
  }

  lemma MoreJobsStillGood(c: Config, jobs: set<Job>, more: set<Job>, at: Option<Inode>)
    requires Good(c, jobs, at) && jobs <= more
    ensures Good(c, more, at)
  {
    if at != OnDisk(c.original) {
      var job :| job in jobs && job.Describes(c.hash, at.value.bytes);
      assert job in more;
    }
  }

  lemma SurvivorIsGood(c: Config, jobs: set<Job>, before: Option<Inode>, after: Option<Bytes>)
    requires Good(c, jobs, before) && Survives(before, after)
    ensures Good(c, jobs, OnDisk(after))
  {
  }

  lemma ProcessStep(c: Config, s: State, step: Step)
    requires Enabled(c, s, step) && ProcessKept(c, s)
    ensures ProcessKept(c, Apply(c, s, step))
  {
    match step
    case Resize =>
      var job := s.process.job;
      var file := Truncated(s.disk.partial.value.bytes, job.plan.fileSize as int);
      Safety.BeginKept(c.hash, job, file, c.Pool(job));
    case Work(move) =>
      Safety.MoveKept(c.hash, s.process.job, s.process.resume, s.process.session, move);
      WorkersStay(c.hash, s.process.job, s.process.resume, s.process.session, move);
    case AllFetched => Safety.AllReturnedVerified(c.hash, s.process.job, s.process.session);
    case _ =>
  }

  lemma WorkersStay(hash: Hash, job: Job, resume: bool, session: Session, move: Move)
    requires job.Valid() && Can(job, session, move)
    ensures |Do(hash, job, resume, session, move).workers| == |session.workers|
  {
  }

  lemma DestStep(c: Config, s: State, step: Step)
    requires Enabled(c, s, step) && Inv(c, s)
    ensures Good(c, Apply(c, s, step).jobs, Apply(c, s, step).disk.dest)
  {
    match step
    case Decode(job) => MoreJobsStillGood(c, s.jobs, s.jobs + {job}, s.disk.dest);
    case Rename => assert DescribedBySome(c, s.jobs, s.disk.partial.value.bytes);
    case Crash(_, dest) =>
      if Survives(s.disk.dest, dest) {
        SurvivorIsGood(c, s.jobs, s.disk.dest, dest);
      } else {
        var prior :| prior in s.disk.fallback && Survives(prior, dest);
        SurvivorIsGood(c, s.jobs, prior, dest);
      }
    case _ =>
  }

  lemma FallbackStep(c: Config, s: State, step: Step)
    requires Enabled(c, s, step) && Inv(c, s)
    ensures forall prior :: prior in Apply(c, s, step).disk.fallback ==> Good(c, Apply(c, s, step).jobs, prior)
  {
    if step.Decode? {
      forall prior | prior in s.disk.fallback ensures Good(c, s.jobs + {step.job}, prior) {
        MoreJobsStillGood(c, s.jobs, s.jobs + {step.job}, prior);
      }
    }
  }

  lemma StepKept(c: Config, s: State, step: Step)
    requires Enabled(c, s, step) && Inv(c, s)
    ensures Inv(c, Apply(c, s, step))
  {
    ProcessStep(c, s, step);
    DestStep(c, s, step);
    FallbackStep(c, s, step);
  }

  lemma {:induction false} RunKept(c: Config, s: State, steps: seq<Step>)
    requires Inv(c, s) && Runs(c, s, steps)
    ensures Inv(c, Run(c, s, steps))
    decreases |steps|
  {
    if steps != [] {
      StepKept(c, s, steps[0]);
      RunKept(c, Apply(c, s, steps[0]), steps[1..]);
    }
  }

  /** Through any number of pulls, kills and crashes, from any leftover, the destination is its
      previous content or a file whose every part verifies against a manifest a pull decoded. */
  lemma DestinationNeverTorn(c: Config, leftover: Option<Bytes>, steps: seq<Step>)
    requires Runs(c, Initial(c, leftover), steps)
    ensures
      var s := Run(c, Initial(c, leftover), steps);
      s.disk.dest == OnDisk(c.original) || (s.disk.dest.Some? && DescribedBySome(c, s.jobs, s.disk.dest.value.bytes))
  {
    RunKept(c, Initial(c, leftover), steps);
  }

  /** Whenever a pull reaches its commit, and again when it renames, the partial file is exactly as
      long as the manifest declares and every part range hashes to its digest. */
  lemma CommitOnlyWhatVerifies(c: Config, leftover: Option<Bytes>, steps: seq<Step>)
    requires Runs(c, Initial(c, leftover), steps)
    ensures
      var s := Run(c, Initial(c, leftover), steps);
      s.process.Syncing? || s.process.Closing? || s.process.Renaming? ==>
        s.disk.partial.Some? && s.process.job.Describes(c.hash, s.disk.partial.value.bytes)
  {
    RunKept(c, Initial(c, leftover), steps);
  }
}
