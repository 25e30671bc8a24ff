/** No push is ever stuck: from every state a run can reach, in the middle of any interleaving, the push can
    still succeed exactly when nobody has failed. So every file can be pushed. */
module PushSucceeds {
  import opened Base
  import opened SplitPlan
  import opened PushLedger
  import opened PushProtocol
  import opened PushSafety
  import Manifest
  import Results = PushResults

  ghost predicate Reaches(c: Config, s: State, t: State)
    requires c.Valid()
  {
    exists steps :: Runs(c, s, steps) && Run(c, s, steps) == t
  }

  lemma {:induction false} OneMore(c: Config, s: State, steps: seq<Step>, step: Step)
    requires c.Valid() && Runs(c, s, steps) && Enabled(c, Run(c, s, steps), step)
    ensures Runs(c, s, steps + [step]) && Run(c, s, steps + [step]) == Apply(c, Run(c, s, steps), step)
    decreases |steps|
  {
    if steps == [] {
      assert steps + [step] == [step];
    } else {
      OneMore(c, Apply(c, s, steps[0]), steps[1..], step);
      assert (steps + [step])[1..] == steps[1..] + [step];
    }
  }

  /** Every state any interleaving of a push can reach. */
  ghost predicate Reachable(c: Config, s: State) {
    c.Valid() && exists registry :: Reaches(c, Initial(c, registry), s)
  }

  /** A run leads on from one reachable state to another. */
  ghost predicate Good(c: Config, from: State, s: State) {
    Reachable(c, from) && Reaches(c, from, s)
  }

  lemma Here(c: Config, s: State)
    requires Reachable(c, s)
    ensures Good(c, s, s)
  {
    assert Runs(c, s, []) && Run(c, s, []) == s;
  }

  lemma Beginning(c: Config, registry: set<Digest>)
    requires c.Valid()
    ensures Reachable(c, Initial(c, registry))
  {
    var s := Initial(c, registry);
    assert Runs(c, s, []) && Run(c, s, []) == s;
    assert Reaches(c, s, s);
  }

  lemma ReachableKept(c: Config, s: State)
    requires Reachable(c, s)
    ensures Inv(c, s)
  {
    var registry :| Reaches(c, Initial(c, registry), s);
    var steps :| Runs(c, Initial(c, registry), steps) && Run(c, Initial(c, registry), steps) == s;
    InitialKept(c, registry);
    RunKept(c, Initial(c, registry), steps);
  }

  lemma Kept(c: Config, from: State, s: State)
    requires Good(c, from, s)
    ensures Inv(c, s)
  {
    var steps :| Runs(c, from, steps) && Run(c, from, steps) == s;
    ReachableKept(c, from);
    RunKept(c, from, steps);
  }

  lemma Onward(c: Config, from: State, s: State, step: Step) returns (t: State)
    requires Good(c, from, s) && Enabled(c, s, step)
    ensures t == Apply(c, s, step) && Good(c, from, t)
  {
    var steps :| Runs(c, from, steps) && Run(c, from, steps) == s;
    OneMore(c, from, steps, step);
    t := Apply(c, s, step);
  }

  lemma ReachableOn(c: Config, s: State, step: Step)
    requires Reachable(c, s) && Enabled(c, s, step)
    ensures Reachable(c, Apply(c, s, step))
  {
    var registry :| Reaches(c, Initial(c, registry), s);
    var steps :| Runs(c, Initial(c, registry), steps) && Run(c, Initial(c, registry), steps) == s;
    OneMore(c, Initial(c, registry), steps, step);
    assert Reaches(c, Initial(c, registry), Apply(c, s, step));
  }

  /** The parts are being moved and nobody has failed. */
  ghost predicate Unfailed(s: State) {
    && s.stage == Moving && s.hashing != HashFailed
    && forall w :: 0 <= w < |s.ledger.workers| ==> !s.ledger.workers[w].Failed?
  }

  // ---- the hash pass ----

  /** What the invariant says of the hash pass. */
  lemma HashPoint(c: Config, from: State, s: State)
    requires Good(c, from, s)
    ensures HashKept(c, s)
  {
    Kept(c, from, s);
  }

  lemma HashOne(c: Config, from: State, s: State) returns (t: State)
    requires Good(c, from, s) && Unfailed(s) && s.hashing == Hashing && |s.ledger.digests| < c.plan.N()
    ensures Good(c, from, t) && Unfailed(t) && t.hashing == Hashing && |t.ledger.digests| == |s.ledger.digests| + 1
  {
    var k := |s.ledger.digests|;
    LoHi(c.plan, k);
    HashPoint(c, from, s);
    t := s;
    if |s.read| < c.plan.Hi(k) {
      t := Onward(c, from, t, HashChunk(c.source[|s.read|..c.plan.Hi(k)]));
    }
    t := Onward(c, from, t, HashPart);
  }

  lemma {:induction false} HashAll(c: Config, from: State, s: State) returns (t: State)
    requires Good(c, from, s) && Unfailed(s) && |s.ledger.digests| <= c.plan.N()
    ensures Good(c, from, t) && Unfailed(t) && t.hashing == HashDone
    decreases c.plan.N() - |s.ledger.digests|
  {
    if s.hashing == HashDone {
      t := s;
    } else if |s.ledger.digests| == c.plan.N() {
      t := Onward(c, from, s, HashFinish);
    } else {
      var next := HashOne(c, from, s);
      t := HashAll(c, from, next);
    }
  }

  // ---- one worker goes on with the part it has ----

  /** How far a worker is from being ready. */
  ghost function ToGo(f: Worker): nat {
    match f
    case Holding(_) => 6
    case Asking(_, _) => 5
    case Sending(_) => 4
    case Placed(_, _) => 3
    case Settled(_, _, _) => 2
    case Skipping(_) => 1
    case Crediting(_, _) => 1
    case _ => 0
  }

  /** What it does next when nothing goes wrong. */
  ghost function NextMove(l: Ledger, registry: set<Digest>, w: nat): Move
    requires l.Has(w)
  {
    match l.workers[w]
    case Holding(_) => TakeClaim(w)
    case Asking(_, _) => if l.DigestAt(w) in registry then Found(w) else StartsPut(w)
    case Sending(_) => EndsPut(w, true)
    case Placed(_, _) => SettleClaim(w)
    case Settled(_, _, _) => CreditPart(w)
    case Skipping(_) => CreditSkip(w)
    case _ => CreditRest(w)
  }

  lemma OwnerMaySettle(l: Ledger, w: nat)
    requires OwnersKept(l) && l.Has(w) && l.workers[w].Placed?
    ensures l.Can(SettleClaim(w))
  {
    assert ClaimOf(l, w);
  }

  /** Whatever the others have done meanwhile, it can. */
  lemma NextMoveCan(l: Ledger, registry: set<Digest>, w: nat)
    requires OwnersKept(l) && l.Has(w) && ToGo(l.workers[w]) > 0
    ensures
      var move := NextMove(l, registry, w);
      && l.Can(move) && move.w == w && !move.Enqueue? && !move.Receive? && !move.Leave?
      && (move.Found? ==> l.DigestAt(w) in registry)
  {
    if l.workers[w].Placed? {
      OwnerMaySettle(l, w);
    }
  }

  /** A move takes its worker closer to ready. */
  ghost predicate Gains(l: Ledger, move: Move)
    requires l.Can(move)
  {
    !move.Enqueue? &&
    var w, m := move.w, l.Do(move);
    && |m.workers| == |l.workers| && w < |l.workers| && ToGo(m.workers[w]) < ToGo(l.workers[w])
    && !m.workers[w].Failed? && !m.workers[w].Gone?
  }

  lemma TakeGains(l: Ledger, w: nat)
    requires l.Can(TakeClaim(w))
    ensures Gains(l, TakeClaim(w))
  {
  }

  lemma UploadGains(l: Ledger, move: Move)
    requires l.Can(move) && (move.Found? || move.StartsPut? || (move.EndsPut? && move.ok))
    ensures Gains(l, move)
  {
  }

  lemma CreditGains(l: Ledger, move: Move)
    requires l.Can(move) && (move.CreditSkip? || move.SettleClaim? || move.CreditPart? || move.CreditRest?)
    ensures Gains(l, move)
  {
  }

  /** And it comes closer. */
  lemma NextMoveGains(l: Ledger, registry: set<Digest>, w: nat)
    requires l.Has(w) && ToGo(l.workers[w]) > 0 && l.Can(NextMove(l, registry, w))
    ensures Gains(l, NextMove(l, registry, w))
  {
    var move := NextMove(l, registry, w);
    if move.TakeClaim? {
      TakeGains(l, w);
    } else if move.Found? || move.StartsPut? || move.EndsPut? {
      UploadGains(l, move);
    } else {
      CreditGains(l, move);
    }
  }

  /** From s to t only worker w has moved on. */
  ghost predicate OnlyWorker(s: State, t: State, w: nat) {
    && t.stage == s.stage && t.hashing == s.hashing && t.ledger.queue == s.ledger.queue
    && |t.ledger.workers| == |s.ledger.workers|
    && forall v :: 0 <= v < |s.ledger.workers| && v != w ==> t.ledger.workers[v] == s.ledger.workers[v]
  }

  lemma OthersRest(l: Ledger, move: Move)
    requires l.Can(move) && !move.Enqueue? && !move.Receive?
    ensures
      var m := l.Do(move);
      && |m.workers| == |l.workers| && m.queue == l.queue
      && forall w :: 0 <= w < |l.workers| && w != move.w ==> m.workers[w] == l.workers[w]
  {
  }

  /** What the invariant says of the ledger. */
  lemma LedgerPoint(c: Config, from: State, s: State)
    requires Good(c, from, s)
    ensures |s.ledger.digests| <= c.plan.N() && |s.ledger.workers| == c.Pool()
    ensures PlacesKept(s.ledger) && OwnersKept(s.ledger)
  {
    Kept(c, from, s);
  }

  lemma MoveOn(c: Config, from: State, s: State, w: nat) returns (t: State)
    requires Good(c, from, s) && s.stage == Moving && w < |s.ledger.workers| && ToGo(s.ledger.workers[w]) > 0
    ensures Good(c, from, t) && OnlyWorker(s, t, w)
    ensures ToGo(t.ledger.workers[w]) < ToGo(s.ledger.workers[w])
    ensures !t.ledger.workers[w].Failed? && !t.ledger.workers[w].Gone?
  {
    LedgerPoint(c, from, s);
    var move := NextMove(s.ledger, s.registry, w);
    NextMoveCan(s.ledger, s.registry, w);
    NextMoveGains(s.ledger, s.registry, w);
    t := Onward(c, from, s, Work(move, false));
    OthersRest(s.ledger, move);
  }

  /** A worker that has not failed can make itself ready, or has left. */
  lemma {:induction false} MakeReady(c: Config, from: State, s: State, w: nat) returns (t: State)
    requires Good(c, from, s) && s.stage == Moving && w < |s.ledger.workers| && !s.ledger.workers[w].Failed?
    ensures Good(c, from, t) && OnlyWorker(s, t, w)
    ensures t.ledger.workers[w].Ready? || t.ledger.workers[w].Gone?
    ensures !s.ledger.workers[w].Gone? ==> t.ledger.workers[w].Ready?
    decreases ToGo(s.ledger.workers[w])
  {
    if ToGo(s.ledger.workers[w]) == 0 {
      t := s;
    } else {
      var next := MoveOn(c, from, s, w);
      t := MakeReady(c, from, next, w);
    }
  }

  /** Nobody is busy. */
  ghost predicate Resting(s: State, k: nat) {
    forall w :: 0 <= w < |s.ledger.workers| && w < k ==> s.ledger.workers[w].Ready? || s.ledger.workers[w].Gone?
  }

  lemma {:induction false} AllReady(c: Config, from: State, s: State, k: nat) returns (t: State)
    requires Good(c, from, s) && Unfailed(s) && s.hashing == HashDone && k <= |s.ledger.workers| && Resting(s, k)
    ensures Good(c, from, t) && Unfailed(t) && t.hashing == HashDone && Resting(t, |t.ledger.workers|)
    decreases |s.ledger.workers| - k
  {
    if k == |s.ledger.workers| {
      t := s;
    } else {
      var next := MakeReady(c, from, s, k);
      t := AllReady(c, from, next, k + 1);
    }
  }

  // ---- the queue, the leave and the manifest ----

  lemma QueueHasWorker(c: Config, from: State, s: State)
    requires Good(c, from, s) && s.ledger.queue != [] && Resting(s, |s.ledger.workers|)
    ensures |s.ledger.workers| > 0 && s.ledger.workers[0].Ready?
  {
    Kept(c, from, s);
  }

  lemma TakePart(c: Config, from: State, s: State) returns (t: State)
    requires Good(c, from, s) && Unfailed(s) && s.hashing == HashDone
    requires s.ledger.queue != [] && |s.ledger.workers| > 0 && s.ledger.workers[0].Ready? && Resting(s, |s.ledger.workers|)
    ensures Good(c, from, t) && Unfailed(t) && t.hashing == HashDone
    ensures t.ledger.queue == s.ledger.queue[1..] && |t.ledger.workers| == |s.ledger.workers|
    ensures t.ledger.workers[0].Holding?
    ensures forall w :: 1 <= w < |t.ledger.workers| ==> t.ledger.workers[w] == s.ledger.workers[w]
  {
    LedgerPoint(c, from, s);
    t := Onward(c, from, s, Work(Receive(0), false));
  }

  lemma {:induction false} DrainAll(c: Config, from: State, s: State) returns (t: State)
    requires Good(c, from, s) && Unfailed(s) && s.hashing == HashDone && Resting(s, |s.ledger.workers|)
    ensures Good(c, from, t) && Unfailed(t) && t.hashing == HashDone && Resting(t, |t.ledger.workers|)
    ensures t.ledger.queue == []
    decreases |s.ledger.queue|
  {
    if s.ledger.queue == [] {
      t := s;
    } else {
      QueueHasWorker(c, from, s);
      var taken := TakePart(c, from, s);
      var next := MakeReady(c, from, taken, 0);
      t := DrainAll(c, from, next);
    }
  }

  lemma LeaveOne(c: Config, from: State, s: State, w: nat) returns (t: State)
    requires Good(c, from, s) && s.stage == Moving && s.hashing == HashDone && s.ledger.queue == []
    requires w < |s.ledger.workers| && s.ledger.workers[w].Ready?
    ensures Good(c, from, t) && OnlyWorker(s, t, w) && t.ledger.workers[w].Gone?
  {
    LedgerPoint(c, from, s);
    t := Onward(c, from, s, Work(Leave(w), false));
    OthersRest(s.ledger, Leave(w));
  }

  lemma {:induction false} LeaveAll(c: Config, from: State, s: State, k: nat) returns (t: State)
    requires Good(c, from, s) && s.stage == Moving && s.hashing == HashDone && s.ledger.queue == []
    requires Resting(s, |s.ledger.workers|) && k <= |s.ledger.workers|
    requires forall w :: 0 <= w < k ==> s.ledger.workers[w].Gone?
    ensures Good(c, from, t) && t.stage == Moving && t.hashing == HashDone && AllGone(t.ledger)
    decreases |s.ledger.workers| - k
  {
    if k == |s.ledger.workers| {
      t := s;
    } else if s.ledger.workers[k].Gone? {
      t := LeaveAll(c, from, s, k + 1);
    } else {
      var next := LeaveOne(c, from, s, k);
      t := LeaveAll(c, from, next, k + 1);
    }
  }

  /** The hash spells its digests the way the format requires, and the title is text. */
  ghost predicate Writable(c: Config) {
    && (forall b :: Manifest.IsSha256(c.hash(b)))
    && (c.title == "" || c.utf8(c.title))
  }

  lemma ArtifactIsWellFormed(c: Config, s: State)
    requires c.Valid() && HashKept(c, s) && s.hashing == HashDone && Writable(c)
    ensures |s.ledger.digests| == c.plan.N() && Manifest.Encoded(c.utf8, ArtifactOf(c, s)).Ok?
  {
    var a := ArtifactOf(c, s);
    PlanIsUnique(c.plan);
    forall i | 0 <= i < |a.parts| ensures Manifest.IsSha256(a.parts[i].digest) {
      assert DigestOfPart(c, s, i);
    }
    assert Manifest.WellFormed(c.utf8, a);
  }

  lemma FinishMoving(c: Config, from: State, s: State) returns (t: State)
    requires Good(c, from, s) && Unfailed(s)
    ensures Good(c, from, t) && t.stage == Configuring && t.hashing == HashDone
  {
    LedgerPoint(c, from, s);
    t := HashAll(c, from, s);
    t := AllReady(c, from, t, 0);
    t := DrainAll(c, from, t);
    t := LeaveAll(c, from, t, 0);
    t := Onward(c, from, t, Finalize);
  }

  lemma FinishWriting(c: Config, from: State, s: State) returns (t: State)
    requires Good(c, from, s) && Writable(c) && s.hashing == HashDone && (s.stage == Configuring || s.stage == Writing)
    ensures Good(c, from, t) && t.stage == Succeeded
  {
    t := s;
    if t.stage == Configuring {
      t := Onward(c, from, t, ConfigPlaced);
    }
    HashPoint(c, from, t);
    ArtifactIsWellFormed(c, t);
    t := Onward(c, from, t, PutManifest(true));
  }

  lemma DoneIsHashed(c: Config, s: State)
    requires Inv(c, s) && s.stage != Moving && s.stage != Aborted
    ensures s.hashing == HashDone && !SomeFailed(s)
  {
  }

  lemma Succeeds(c: Config, s: State) returns (t: State)
    requires Reachable(c, s) && Writable(c) && !SomeFailed(s) && s.stage != Aborted
    ensures Good(c, s, t) && t.stage == Succeeded
  {
    Here(c, s);
    t := s;
    if t.stage == Moving {
      t := FinishMoving(c, s, t);
    } else {
      ReachableKept(c, s);
      DoneIsHashed(c, s);
    }
    if t.stage != Succeeded {
      t := FinishWriting(c, s, t);
    }
  }

  lemma {:induction false} AbortedStays(c: Config, s: State, steps: seq<Step>)
    requires c.Valid() && Runs(c, s, steps) && s.stage == Aborted
    ensures Run(c, s, steps).stage == Aborted
    decreases |steps|
  {
    if steps != [] {
      AbortedStays(c, Apply(c, s, steps[0]), steps[1..]);
    }
  }

  /** From every state that any interleaving reaches, some continuation succeeds exactly when neither the hash
      pass nor a worker has failed and the push has not been given up. */
  lemma CanStillSucceed(c: Config, s: State)
    requires Reachable(c, s) && Writable(c)
    ensures (exists t :: Reaches(c, s, t) && t.stage == Succeeded) <==> !SomeFailed(s) && s.stage != Aborted
  {
    if t :| Reaches(c, s, t) && t.stage == Succeeded {
      var steps :| Runs(c, s, steps) && Run(c, s, steps) == t;
      Here(c, s);
      Kept(c, s, t);
      DoneIsHashed(c, t);
      if SomeFailed(s) {
        Results.FailureIsFinal(c, s, steps);
      }
      if s.stage == Aborted {
        AbortedStays(c, s, steps);
      }
    }
    if !SomeFailed(s) && s.stage != Aborted {
      var t := Succeeds(c, s);
    }
  }

  /** So every file can be pushed, whatever the registry already holds. */
  lemma SomeRunSucceeds(c: Config, registry: set<Digest>) returns (steps: seq<Step>)
    requires c.Valid() && Writable(c)
    ensures Runs(c, Initial(c, registry), steps)
    ensures Run(c, Initial(c, registry), steps).stage == Succeeded
  {
    Beginning(c, registry);
    var t := Succeeds(c, Initial(c, registry));
    steps :| Runs(c, Initial(c, registry), steps) && Run(c, Initial(c, registry), steps) == t;
  }
}
