/** A push followed by pulls of what it wrote: from the source's bytes, through the manifest, to the
    destination's. */
module RoundTrip {
  import opened Base
  import opened SplitPlan
  import Manifest
  import Push = PushProtocol
  import PushSafety
  import PushResults
  import PushSucceeds
  import Pull = PullProtocol
  import PullSession
  import PullSucceeds

  /** What a pull makes of a decoded manifest: the split it implies, and each part's digest. */
  ghost function JobOf(a: Manifest.Artifact): PullSession.Job
    requires New(a.fileSize, a.partSize).Ok?
  {
    PullSession.Job(
      New(a.fileSize, a.partSize).value, seq(|a.parts|, i requires 0 <= i < |a.parts| => a.parts[i].digest))
  }

  /** Two files that differ on a part and have one digest for it. */
  ghost predicate PartCollision(hash: Hash, plan: Plan, a: Bytes, b: Bytes)
    requires plan.Valid() && |a| == |b| == plan.fileSize as int
  {
    exists i: nat :: i < plan.N() && Collision(hash, plan.Slice(a, i), plan.Slice(b, i))
  }

  /** Two files one manifest describes are the same, or a part of them is a collision. */
  lemma DescribedFilesAgree(hash: Hash, job: PullSession.Job, a: Bytes, b: Bytes)
    requires job.Describes(hash, a) && job.Describes(hash, b)
    ensures a == b || PartCollision(hash, job.plan, a, b)
  {
    if forall i: nat :: i < job.plan.N() ==> job.plan.Slice(a, i) == job.plan.Slice(b, i) {
      SameSlicesSameFile(job.plan, a, b);
    } else {
      var i: nat :| i < job.plan.N() && job.plan.Slice(a, i) != job.plan.Slice(b, i);
      assert job.PartVerifies(hash, a, i) && job.PartVerifies(hash, b, i);
      assert Collision(hash, job.plan.Slice(a, i), job.plan.Slice(b, i));
    }
  }

  /** Whatever a push has written reads back as the artifact it described, and describes what the hash
      pass read. */
  lemma WrittenDescribesRead(c: Push.Config, s: Push.State)
    requires PushSafety.Inv(c, s) && s.manifests != [] && (s.stage == Push.Succeeded || s.stage == Push.Writing)
    ensures
      var a := Push.ArtifactOf(c, s);
      && s.manifests[0] == a
      && Manifest.Encoded(c.utf8, a).Ok?
      && Manifest.Decode(c.utf8, Manifest.Encoded(c.utf8, a).value) == Ok(a)
      && New(a.fileSize, a.partSize) == Ok(c.plan)
      && a.title == c.title && a.fileDigest == c.hash(s.read)
      && JobOf(a).Describes(c.hash, s.read)
  {
    var a := Push.ArtifactOf(c, s);
    PushResults.WritingIsBacked(c, s);
    Manifest.DecodeInvertsEncode(c.utf8, a);
    PlanIsUnique(c.plan);
    var job := JobOf(a);
    forall i: nat | i < job.plan.N() ensures job.PartVerifies(c.hash, s.read, i) {
      assert PushResults.PartBacked(c, s, i);
    }
  }

  /** What a push that has written its manifest leaves for a reader: the wire record and the artifact. */
  ghost predicate Wrote(c: Push.Config, registry: set<Digest>, steps: seq<Push.Step>, wire: Manifest.WireManifest) {
    && c.Valid() && Push.Runs(c, Push.Initial(c, registry), steps)
    && var s := Push.Run(c, Push.Initial(c, registry), steps);
       s.stage == Push.Succeeded && s.manifests != [] && Manifest.Encoded(c.utf8, s.manifests[0]) == Ok(wire)
  }

  /** These pulls decoded this manifest and no other. */
  ghost predicate PulledOnly(utf8: string -> bool, wire: Manifest.WireManifest, jobs: set<PullSession.Job>) {
    && Manifest.Decode(utf8, wire).Ok?
    && New(Manifest.Decode(utf8, wire).value.fileSize, Manifest.Decode(utf8, wire).value.partSize).Ok?
    && forall job :: job in jobs ==> job == JobOf(Manifest.Decode(utf8, wire).value)
  }

  /** The file is the source byte for byte, unless a part of the two is a collision. */
  ghost predicate IsSource(c: Push.Config, file: Bytes)
    requires c.Valid()
  {
    |file| == |c.source| && (file == c.source || PartCollision(c.hash, c.plan, file, c.source))
  }

  lemma PulledIsSource(c: Push.Config, registry: set<Digest>, steps: seq<Push.Step>, wire: Manifest.WireManifest,
                       jobs: set<PullSession.Job>, job: PullSession.Job, file: Bytes)
    requires Wrote(c, registry, steps, wire) && c.steady && PulledOnly(c.utf8, wire, jobs)
    requires job in jobs && job.Describes(c.hash, file)
    ensures IsSource(c, file)
  {
    var s := Push.Run(c, Push.Initial(c, registry), steps);
    PushSafety.InitialKept(c, registry);
    PushSafety.RunKept(c, Push.Initial(c, registry), steps);
    WrittenDescribesRead(c, s);
    PushResults.WritingIsBacked(c, s);
    DescribedFilesAgree(c.hash, job, file, s.read);
  }

  /** For every file, part size, worker count and title, every interleaving of a push that succeeds over
      an unchanging source, and then any number of pulls of that manifest into any leftover partial, in
      every interleaving and with kills and crashes anywhere: the destination holds its previous content
      or the source. */
  lemma DestinationIsSource(
    c: Push.Config, registry: set<Digest>, steps: seq<Push.Step>, wire: Manifest.WireManifest,
    p: Pull.Config, leftover: Option<Bytes>, pulls: seq<Pull.Step>)
    requires Wrote(c, registry, steps, wire) && c.steady && p.hash == c.hash
    requires Pull.Runs(p, Pull.Initial(p, leftover), pulls)
    requires PulledOnly(c.utf8, wire, Pull.Run(p, Pull.Initial(p, leftover), pulls).jobs)
    ensures
      var t := Pull.Run(p, Pull.Initial(p, leftover), pulls);
      t.disk.dest == Pull.OnDisk(p.original) || (t.disk.dest.Some? && IsSource(c, t.disk.dest.value.bytes))
  {
    var t := Pull.Run(p, Pull.Initial(p, leftover), pulls);
    Pull.DestinationNeverTorn(p, leftover, pulls);
    if t.disk.dest != Pull.OnDisk(p.original) {
      var job :| job in t.jobs && job.Describes(p.hash, t.disk.dest.value.bytes);
      PulledIsSource(c, registry, steps, wire, t.jobs, job, t.disk.dest.value.bytes);
    }
  }

  /** And whenever such a pull reaches its commit, the partial file it commits is the source. */
  lemma CommittedIsSource(
    c: Push.Config, registry: set<Digest>, steps: seq<Push.Step>, wire: Manifest.WireManifest,
    p: Pull.Config, leftover: Option<Bytes>, pulls: seq<Pull.Step>)
    requires Wrote(c, registry, steps, wire) && c.steady && p.hash == c.hash
    requires Pull.Runs(p, Pull.Initial(p, leftover), pulls)
    requires PulledOnly(c.utf8, wire, Pull.Run(p, Pull.Initial(p, leftover), pulls).jobs)
    ensures
      var t := Pull.Run(p, Pull.Initial(p, leftover), pulls);
      t.process.Syncing? || t.process.Closing? || t.process.Renaming? ==>
        t.disk.partial.Some? && IsSource(c, t.disk.partial.value.bytes)
  {
    var t := Pull.Run(p, Pull.Initial(p, leftover), pulls);
    Pull.CommitOnlyWhatVerifies(p, leftover, pulls);
    Pull.RunKept(p, Pull.Initial(p, leftover), pulls);
    if t.process.Syncing? || t.process.Closing? || t.process.Renaming? {
      PulledIsSource(c, registry, steps, wire, t.jobs, t.process.job, t.disk.partial.value.bytes);
    }
  }

  /** And the trip can always be made: for every source, part size, worker counts and title, into any
      leftover partial, there are a push that succeeds and a pull of what it wrote that commits. */
  lemma EveryFileMakesTheTrip(c: Push.Config, registry: set<Digest>, p: Pull.Config, leftover: Option<Bytes>)
    returns (steps: seq<Push.Step>, wire: Manifest.WireManifest, pulls: seq<Pull.Step>)
    requires c.Valid() && c.steady && PushSucceeds.Writable(c) && p.hash == c.hash && 1 <= p.workers
    ensures Wrote(c, registry, steps, wire)
    ensures Pull.Runs(p, Pull.Initial(p, leftover), pulls)
    ensures
      var t := Pull.Run(p, Pull.Initial(p, leftover), pulls);
      t.process.Idle? && PulledOnly(c.utf8, wire, t.jobs) && t.disk.dest.Some? && IsSource(c, t.disk.dest.value.bytes)
  {
    steps := PushSucceeds.SomeRunSucceeds(c, registry);
    wire := WireOf(c, registry, steps);
    var s := Push.Run(c, Push.Initial(c, registry), steps);
    var job := JobOf(Manifest.Decode(c.utf8, wire).value);
    pulls := PullSucceeds.SomeRunCommits(p, leftover, job, s.read);
    var t := Pull.Run(p, Pull.Initial(p, leftover), pulls);
    PulledIsSource(c, registry, steps, wire, t.jobs, job, t.disk.dest.value.bytes);
  }

  lemma WireOf(c: Push.Config, registry: set<Digest>, steps: seq<Push.Step>) returns (wire: Manifest.WireManifest)
    requires c.Valid() && Push.Runs(c, Push.Initial(c, registry), steps)
    requires Push.Run(c, Push.Initial(c, registry), steps).stage == Push.Succeeded
    ensures Wrote(c, registry, steps, wire)
    ensures Manifest.Decode(c.utf8, wire).Ok?
    ensures
      var a := Manifest.Decode(c.utf8, wire).value;
      New(a.fileSize, a.partSize).Ok? && JobOf(a).Describes(c.hash, Push.Run(c, Push.Initial(c, registry), steps).read)
  {
    var s := Push.Run(c, Push.Initial(c, registry), steps);
    PushResults.ReachedKept(c, registry, steps);
    WrittenDescribesRead(c, s);
    wire := Manifest.Encoded(c.utf8, s.manifests[0]).value;
  }
}
