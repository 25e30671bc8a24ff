/** A push as a step machine: one hash pass, a queue, and workers that share a claim ledger, a
    registry and a reporter (internal/transfer/push.go). A step is one locked ledger or reporter
    call, one port call, or one chunk of the hash pass, by one goroutine; a run is any sequence of
    enabled steps. Steps of the registry and of stragglers may come anywhere. */
module PushProtocol {
  import opened Base
  import opened SplitPlan
  import opened PushLedger
  import Progress
  import Manifest

  /** steady says the source never changes; otherwise the hash pass may read anything. */
  datatype Config = Config(
    hash: Hash,
    plan: Plan,
    workers: nat,
    title: string,
    utf8: string -> bool,
    source: Bytes,
    steady: bool
  ) {
    ghost predicate Valid() {
      plan.Valid() && 1 <= workers && |source| == plan.fileSize as int
    }

    /** A goroutine is started for no more workers than there are parts. */
    ghost function Pool(): (n: nat)
      requires Valid()
      ensures 1 <= n
    {
      if workers <= plan.N() then workers else plan.N()
    }
  }

  datatype HashPass = Hashing | HashDone | HashFailed

  datatype Stage = Moving | Configuring | Writing | Succeeded | Aborted

  datatype State = State(
    read: Bytes,
    hashing: HashPass,
    ledger: Ledger,
    registry: set<Digest>,
    report: Progress.Account,
    stage: Stage,
    manifests: seq<Manifest.Artifact>
  )

  /** stored says whether the bytes of a put that failed had landed all the same. */
  datatype Step =
    | HashChunk(chunk: Bytes)
    | HashPart
    | HashFinish
    | HashFail
    | Work(move: Move, stored: bool)
    | WireBytes(n: int)
    | RetryNoted
    | RegistryGrows(digest: Digest)
    | Finalize
    | ConfigPlaced
    | PutManifest(accepted: bool)
    | Abort
    | ReportFinish

  ghost function Initial(c: Config, registry: set<Digest>): State
    requires c.Valid()
  {
    State(
      [], Hashing,
      Ledger([], [], seq(c.Pool(), _ => Ready), map[], [], map[], seq(c.Pool(), _ => {}), {}, {}, map[], map[], {}),
      registry,
      Progress.EMPTY_ACCOUNT.Begin(Progress.Transferring, c.plan.fileSize as int, c.plan.N()),
      Moving, [])
  }

  /** The artifact the push describes: what the hash pass read, cut by the plan. */
  ghost function ArtifactOf(c: Config, s: State): Manifest.Artifact
    requires c.Valid() && |s.ledger.digests| == c.plan.N()
  {
    Manifest.Artifact(
      c.hash(s.read), c.plan.fileSize, c.plan.partSize, c.title,
      seq(c.plan.N(), i requires 0 <= i < c.plan.N() =>
        Manifest.BlobPart(s.ledger.digests[i], c.plan.PartAt(i as int64).size)))
  }

  ghost predicate AllGone(l: Ledger) {
    forall w :: 0 <= w < |l.workers| ==> l.workers[w].Gone?
  }

  ghost predicate SomeFailed(s: State) {
    s.hashing == HashFailed || exists w :: 0 <= w < |s.ledger.workers| && s.ledger.workers[w].Failed?
  }

  ghost predicate AllReturned(l: Ledger) {
    forall w :: 0 <= w < |l.workers| ==> l.workers[w].Gone? || l.workers[w].Failed?
  }

  ghost predicate Enabled(c: Config, s: State, step: Step)
    requires c.Valid()
  {
    var l := s.ledger;
    match step
    case HashChunk(chunk) =>
      && s.stage == Moving && s.hashing == Hashing && |l.digests| < c.plan.N()
      && 0 < |chunk| && |s.read| + |chunk| <= c.plan.Hi(|l.digests|) <= |c.source|
      && (c.steady ==> chunk == c.source[|s.read|..|s.read| + |chunk|])
    case HashPart =>
      && s.stage == Moving && s.hashing == Hashing && |l.digests| < c.plan.N()
      && c.plan.Lo(|l.digests|) <= |s.read| == c.plan.Hi(|l.digests|)
    case HashFinish => s.stage == Moving && s.hashing == Hashing && |l.digests| == c.plan.N()
    case HashFail => s.stage == Moving && s.hashing == Hashing
    case Work(move, _) =>
      && s.stage == Moving && l.Can(move) && |l.digests| <= c.plan.N()
      && !move.Enqueue?
      && (move.Leave? ==> s.hashing != Hashing)
      && (move.Found? ==> l.DigestAt(move.w) in s.registry)
    case WireBytes(n) => true
    case RetryNoted => true
    case RegistryGrows(_) => true
    case Finalize => s.stage == Moving && s.hashing == HashDone && AllGone(l)
    case ConfigPlaced => s.stage == Configuring
    case PutManifest(_) =>
      s.stage == Writing && |l.digests| == c.plan.N() && Manifest.Encoded(c.utf8, ArtifactOf(c, s)).Ok?
    case Abort =>
      || s.stage == Configuring || s.stage == Writing
      || (s.stage == Moving && s.hashing != Hashing && AllReturned(l) && SomeFailed(s))
    case ReportFinish => s.stage == Succeeded || s.stage == Aborted
  }

  /** What a worker's step records. */
  ghost function Reported(c: Config, s: State, move: Move): Progress.Account
    requires c.Valid() && s.ledger.Can(move) && |s.ledger.digests| <= c.plan.N()
  {
    var l := s.ledger;
    match move
    case CreditSkip(w) => s.report.Complete(l.workers[w].part, c.plan.Size(l.workers[w].part), true)
    case CreditPart(w) => s.report.Complete(l.workers[w].part, c.plan.Size(l.workers[w].part), !l.workers[w].uploaded)
    case CreditRest(w) => s.report.CompleteTwins(l.workers[w].placed - 1, c.plan.Size(l.workers[w].part))
    case _ => s.report
  }

  ghost function Stored(s: State, move: Move, stored: bool): set<Digest>
    requires s.ledger.Can(move)
  {
    if move.EndsPut? && (move.ok || stored) then s.registry + {s.ledger.DigestAt(move.w)} else s.registry
  }

  ghost function Apply(c: Config, s: State, step: Step): State
    requires c.Valid() && Enabled(c, s, step)
  {
    match step
    case HashChunk(chunk) => s.(read := s.read + chunk, report := s.report.Hashed(|chunk|))
    case HashPart =>
      var k := |s.ledger.digests|;
      s.(ledger := s.ledger.EnqueuePart(c.hash(s.read[c.plan.Lo(k)..c.plan.Hi(k)])))
    case HashFinish => s.(hashing := HashDone)
    case HashFail => s.(hashing := HashFailed)
    case Work(move, stored) =>
      s.(ledger := s.ledger.Do(move), registry := Stored(s, move, stored), report := Reported(c, s, move))
    case WireBytes(n) => s.(report := s.report.Wire(n))
    case RetryNoted => s.(report := s.report.Retried())
    case RegistryGrows(d) => s.(registry := s.registry + {d})
    case Finalize => s.(stage := Configuring, report := s.report.Finalizing())
    case ConfigPlaced => s.(stage := Writing, registry := s.registry + {Manifest.EMPTY_DIGEST})
    case PutManifest(accepted) =>
      s.(manifests := s.manifests + [ArtifactOf(c, s)], stage := if accepted then Succeeded else Writing)
    case Abort => s.(stage := Aborted)
    case ReportFinish => s.(report := s.report.Finish(s.stage == Aborted))
  }

  ghost predicate Runs(c: Config, s: State, steps: seq<Step>)
    requires c.Valid()
    decreases |steps|
  {
    steps == [] || (Enabled(c, s, steps[0]) && Runs(c, Apply(c, s, steps[0]), steps[1..]))
  }

  ghost function Run(c: Config, s: State, steps: seq<Step>): State
    requires c.Valid() && Runs(c, s, steps)
    decreases |steps|
  {
    if steps == [] then s else Run(c, Apply(c, s, steps[0]), steps[1..])
  }
}
