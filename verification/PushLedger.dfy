/** What the workers of a push share, and what each worker's step does to it: the queue of hashed
    parts, the claims, and where every part's credit stands (internal/transfer/push.go). */
module PushLedger {
  import opened Base
  import opened ClaimLedger

  /** Where one worker is in drain and upload. */
  datatype Worker =
    | Ready
    | Holding(part: nat)
    | Skipping(part: nat)
    | Asking(part: nat, uploaded: bool)
    | Sending(part: nat)
    | Placed(part: nat, uploaded: bool)
    | Settled(part: nat, uploaded: bool, placed: nat)
    | Crediting(part: nat, placed: nat)
    | Gone
    | Failed
  {
    /** The worker is responsible for the credit of its part. */
    predicate HasPart() {
      !Ready? && !Crediting? && !Gone? && !Failed?
    }

    /** The worker whose claim is still open: it alone may put the digest in the registry. */
    predicate Owns() {
      Asking? || Sending? || Placed?
    }

    /** The worker owes credit to the twins its settle counted. */
    predicate OwesTwins() {
      Settled? || Crediting?
    }

    predicate CanFail() {
      Holding? || Asking? || Sending?
    }
  }

  /** Where a part's credit stands. */
  datatype Place =
    | Queued
    | With(worker: nat)
    | Owed(digest: Digest)
    | TwinOf(worker: nat)
    | Credited
    | Lost(worker: nat)

  /** digests, queue, workers and claims are the program's. The rest is history that nothing in the
      program reads: it names the parts that the program only counts. */
  datatype Ledger = Ledger(
    digests: seq<Digest>,
    queue: seq<nat>,
    workers: seq<Worker>,
    claims: Claims,
    where: seq<Place>,
    owed: map<Digest, set<nat>>,
    twins: seq<set<nat>>,
    credited: set<nat>,
    skipped: set<nat>,
    ownerPart: map<Digest, nat>,
    ownerWorker: map<Digest, nat>,
    puts: set<Digest>
  ) {
    /** Worker w exists, and so does the part it names. */
    ghost predicate Has(w: nat) {
      && w < |workers| == |twins|
      && |where| == |digests|
      && (workers[w].HasPart() || workers[w].Crediting? ==> workers[w].part < |digests|)
    }

    ghost function DigestAt(w: nat): Digest
      requires Has(w) && (workers[w].HasPart() || workers[w].Crediting?)
    {
      digests[workers[w].part]
    }

    ghost function SetWorker(w: nat, to: Worker): Ledger
      requires Has(w)
    {
      this.(workers := workers[w := to])
    }

    /** The hash pass names the next part and queues it. */
    ghost function EnqueuePart(d: Digest): Ledger {
      this.(digests := digests + [d], queue := queue + [|digests|], where := where + [Queued])
    }

    ghost function ReceivePart(w: nat): Ledger
      requires Has(w) && queue != [] && queue[0] < |where|
    {
      SetWorker(w, Holding(queue[0])).(queue := queue[1..], where := where[queue[0] := With(w)])
    }

    /** take made this worker the digest's owner. */
    ghost function Own(w: nat): Ledger
      requires Has(w) && workers[w].Holding?
    {
      var i, d := workers[w].part, DigestAt(w);
      SetWorker(w, Asking(i, false)).(
      claims := AfterTake(claims, d).claims,
      owed := owed[d := {}],
      ownerPart := ownerPart[d := i],
      ownerWorker := ownerWorker[d := w])
    }

    /** take said skip, and left the credit to the owner. */
    ghost function Owe(w: nat): Ledger
      requires Has(w) && workers[w].Holding? && DigestAt(w) in owed
    {
      var i, d := workers[w].part, DigestAt(w);
      SetWorker(w, Ready).(
      claims := AfterTake(claims, d).claims,
      where := where[i := Owed(d)],
      owed := owed[d := owed[d] + {i}])
    }

    /** take said skip, and that the blob is already in place. */
    ghost function Skip(w: nat): Ledger
      requires Has(w) && workers[w].Holding?
    {
      SetWorker(w, Skipping(workers[w].part)).(claims := AfterTake(claims, DigestAt(w)).claims)
    }

    /** claimSet.take, and what upload does with its answer. */
    ghost function Take(w: nat): Ledger
      requires Has(w) && workers[w].Holding? && claims.Keys == owed.Keys
    {
      var taken := AfterTake(claims, DigestAt(w));
      if taken.mustUpload then Own(w)
      else if taken.credit > 0 then Skip(w)
      else Owe(w)
    }

    ghost function CreditSkipped(w: nat): Ledger
      requires Has(w) && workers[w].Skipping?
    {
      var i := workers[w].part;
      SetWorker(w, Ready).(where := where[i := Credited], credited := credited + {i}, skipped := skipped + {i})
    }

    /** The registry does not hold the blob, so this worker puts it. */
    ghost function StartPut(w: nat): Ledger
      requires Has(w) && workers[w].Asking?
    {
      SetWorker(w, Sending(workers[w].part)).(puts := puts + {DigestAt(w)})
    }

    /** claimSet.settle: the parts that were owed become this worker's twins. */
    ghost function Settle(w: nat): Ledger
      requires Has(w) && workers[w].Placed? && DigestAt(w) in owed
    {
      var i, d := workers[w].part, DigestAt(w);
      var settled := AfterSettle(claims, d);
      SetWorker(w, Settled(i, workers[w].uploaded, settled.placed)).(
      claims := settled.claims,
      where := MoveAll(where, owed[d], TwinOf(w)),
      owed := owed[d := {}],
      twins := twins[w := owed[d]])
    }

    ghost function CreditOwn(w: nat): Ledger
      requires Has(w) && workers[w].Settled?
    {
      var i := workers[w].part;
      SetWorker(w, Crediting(i, workers[w].placed)).(
      where := where[i := Credited],
      credited := credited + {i},
      skipped := if workers[w].uploaded then skipped else skipped + {i})
    }

    ghost function CreditTwins(w: nat): Ledger
      requires Has(w) && workers[w].Crediting?
    {
      SetWorker(w, Ready).(
      where := MoveAll(where, twins[w], Credited),
      twins := twins[w := {}],
      credited := credited + twins[w],
      skipped := skipped + twins[w])
    }

    /** An error ends the worker; the part it was carrying is never credited. */
    ghost function Fail(w: nat): Ledger
      requires Has(w) && workers[w].CanFail()
    {
      SetWorker(w, Failed).(where := where[workers[w].part := Lost(w)])
    }

    ghost predicate Can(move: Move) {
      match move
      case Enqueue(_) => |where| == |digests|
      case Receive(w) => Has(w) && workers[w].Ready? && queue != [] && queue[0] < |where|
      case Leave(w) => Has(w) && workers[w].Ready? && queue == []
      case TakeClaim(w) => Has(w) && workers[w].Holding? && claims.Keys == owed.Keys
      case CreditSkip(w) => Has(w) && workers[w].Skipping?
      case Found(w) => Has(w) && workers[w].Asking?
      case StartsPut(w) => Has(w) && workers[w].Asking?
      case EndsPut(w, _) => Has(w) && workers[w].Sending?
      case SettleClaim(w) => Has(w) && workers[w].Placed? && DigestAt(w) in owed
      case CreditPart(w) => Has(w) && workers[w].Settled?
      case CreditRest(w) => Has(w) && workers[w].Crediting?
      case Abandon(w) => Has(w) && workers[w].CanFail()
    }

    ghost function Do(move: Move): Ledger
      requires Can(move)
    {
      match move
      case Enqueue(d) => EnqueuePart(d)
      case Receive(w) => ReceivePart(w)
      case Leave(w) => SetWorker(w, Gone)
      case TakeClaim(w) => Take(w)
      case CreditSkip(w) => CreditSkipped(w)
      case Found(w) => SetWorker(w, Placed(workers[w].part, workers[w].uploaded))
      case StartsPut(w) => StartPut(w)
      case EndsPut(w, ok) => SetWorker(w, if ok then Placed(workers[w].part, true) else Asking(workers[w].part, true))
      case SettleClaim(w) => Settle(w)
      case CreditPart(w) => CreditOwn(w)
      case CreditRest(w) => CreditTwins(w)
      case Abandon(w) => Fail(w)
    }
  }

  /** One step of the hash pass or of worker w. */
  datatype Move =
    | Enqueue(digest: Digest)
    | Receive(w: nat)
    | Leave(w: nat)
    | TakeClaim(w: nat)
    | CreditSkip(w: nat)
    | Found(w: nat)
    | StartsPut(w: nat)
    | EndsPut(w: nat, ok: bool)
    | SettleClaim(w: nat)
    | CreditPart(w: nat)
    | CreditRest(w: nat)
    | Abandon(w: nat)

  /** Move every part of a set to one place. */
  ghost function MoveAll(where: seq<Place>, parts: set<nat>, to: Place): (moved: seq<Place>)
    ensures |moved| == |where|
    ensures forall j :: 0 <= j < |where| ==> moved[j] == if j in parts then to else where[j]
  {
    seq(|where|, j requires 0 <= j < |where| => if j in parts then to else where[j])
  }

  /** Every hashed part is in exactly one place, and the queue and the workers hold what those places
      say. */
  ghost predicate PlacesKept(l: Ledger) {
    && |l.where| == |l.digests|
    && |l.twins| == |l.workers|
    && (forall k :: 0 <= k < |l.queue| ==> l.queue[k] < |l.where| && l.where[l.queue[k]].Queued?)
    && (forall k, m :: 0 <= k < m < |l.queue| ==> l.queue[k] != l.queue[m])
    && (forall j :: 0 <= j < |l.where| && l.where[j].Queued? ==> j in l.queue)
    && (forall w :: 0 <= w < |l.workers| && l.workers[w].HasPart() ==>
                      l.workers[w].part < |l.where| && l.where[l.workers[w].part] == With(w))
    && (forall w :: 0 <= w < |l.workers| && l.workers[w].Crediting? ==> l.workers[w].part < |l.where|)
    && (forall j :: 0 <= j < |l.where| && l.where[j].With? ==> HeldBy(l, j, l.where[j].worker))
    && (forall j :: 0 <= j < |l.where| && l.where[j].Lost? ==>
                      l.where[j].worker < |l.workers| && l.workers[l.where[j].worker].Failed?)
  }

  ghost predicate HeldBy(l: Ledger, j: nat, w: nat) {
    w < |l.workers| && l.workers[w].HasPart() && l.workers[w].part == j
  }

  /** Each claimed digest has one owner: the worker whose upload is in flight, or one that failed. */
  ghost predicate OwnersKept(l: Ledger) {
    && l.claims.Keys == l.owed.Keys == l.ownerPart.Keys == l.ownerWorker.Keys
    && (forall d :: d in l.claims ==> OwnerOf(l, d))
    && (forall w :: 0 <= w < |l.workers| ==> ClaimOf(l, w))
  }

  ghost predicate OwnerOf(l: Ledger, d: Digest)
    requires d in l.claims && d in l.ownerPart && d in l.ownerWorker
  {
    var i, w := l.ownerPart[d], l.ownerWorker[d];
    && i < |l.digests| && i < |l.where| && l.digests[i] == d
    && w < |l.workers|
    && (!l.claims[d].done ==> l.workers[w].Failed? || (l.workers[w].Owns() && l.workers[w].part == i))
    && (|| l.where[i].Credited? || l.where[i].Lost?
        || (l.where[i] == With(w) && (l.workers[w].Owns() || l.workers[w].Settled?) && l.workers[w].part == i))
  }

  ghost predicate ClaimOf(l: Ledger, w: nat)
    requires w < |l.workers|
    requires l.claims.Keys == l.owed.Keys == l.ownerPart.Keys == l.ownerWorker.Keys
  {
    l.workers[w].Owns() || l.workers[w].Settled? || l.workers[w].Skipping? ==>
      && l.workers[w].part < |l.digests|
      && var d := l.digests[l.workers[w].part];
      && d in l.claims
      && (l.workers[w].Owns() ==> !l.claims[d].done && l.ownerWorker[d] == w)
      && (!l.workers[w].Owns() ==> l.claims[d].done)
      && (!l.workers[w].Skipping? ==> l.ownerPart[d] == l.workers[w].part)
  }

  /** The count a claim holds is the number of parts whose workers skipped it in flight. */
  ghost predicate OwedKept(l: Ledger) {
    && l.claims.Keys == l.owed.Keys
    && (forall d :: d in l.claims ==> OwedOf(l, d))
    && (forall j :: 0 <= j < |l.where| && l.where[j].Owed? ==>
                      l.where[j].digest in l.owed && j in l.owed[l.where[j].digest])
  }

  ghost predicate OwedOf(l: Ledger, d: Digest)
    requires d in l.claims && d in l.owed
  {
    && l.claims[d].waiting == |l.owed[d]|
    && (l.claims[d].done ==> l.owed[d] == {})
    && (forall j :: j in l.owed[d] ==> j < |l.digests| && j < |l.where| && l.where[j] == Owed(d) && l.digests[j] == d)
  }

  /** A settled worker owes credit to as many twins as its settle counted, all of its own digest. */
  ghost predicate TwinsKept(l: Ledger) {
    && |l.twins| == |l.workers|
    && (forall j :: 0 <= j < |l.where| && l.where[j].TwinOf? ==>
                      l.where[j].worker < |l.twins| && j in l.twins[l.where[j].worker])
    && (forall w :: 0 <= w < |l.workers| ==> TwinsOf(l, w))
  }

  ghost predicate TwinsOf(l: Ledger, w: nat)
    requires w < |l.workers| == |l.twins|
  {
    if l.workers[w].OwesTwins() then
      && l.workers[w].part < |l.digests|
      && l.workers[w].placed == 1 + |l.twins[w]|
      && var d := l.digests[l.workers[w].part];
      && d in l.claims
      && l.claims[d].done
      && (forall j :: j in l.twins[w] ==>
                         j < |l.digests| && l.digests[j] == d && j < |l.where| && l.where[j] == TwinOf(w))
    else l.twins[w] == {}
  }

  /** A credited part's blob is in place, and it counts as skipped unless its own bytes were put. */
  ghost predicate CreditKept(l: Ledger) {
    && l.puts <= l.claims.Keys
    && l.claims.Keys == l.ownerPart.Keys
    && (forall w :: 0 <= w < |l.workers| ==> PutOf(l, w))
    && (forall j :: 0 <= j < |l.where| ==> (j in l.credited <==> l.where[j].Credited?))
    && l.skipped <= l.credited
    && (forall j :: j in l.credited ==> CreditOf(l, j))
  }

  ghost predicate PutOf(l: Ledger, w: nat)
    requires w < |l.workers|
  {
    && (l.workers[w].Asking? || l.workers[w].Placed? || l.workers[w].Settled? ==>
          l.workers[w].part < |l.digests| && (l.workers[w].uploaded <==> l.digests[l.workers[w].part] in l.puts))
    && (l.workers[w].Sending? ==> l.workers[w].part < |l.digests| && l.digests[l.workers[w].part] in l.puts)
  }

  ghost predicate CreditOf(l: Ledger, j: nat) {
    && j < |l.digests| && j < |l.where|
    && var d := l.digests[j];
    && d in l.claims && d in l.ownerPart
    && l.claims[d].done
    && (j in l.skipped <==> !(l.ownerPart[d] == j && d in l.puts))
  }

  ghost predicate LedgerKept(l: Ledger) {
    PlacesKept(l) && OwnersKept(l) && OwedKept(l) && TwinsKept(l) && CreditKept(l)
  }

  /** What the places say about the parts a move is about. */
  ghost predicate Fits(l: Ledger, move: Move) {
    && l.Can(move)
    && |l.where| == |l.digests| && |l.twins| == |l.workers|
    && (move.Receive? ==> l.where[l.queue[0]].Queued?)
    && (!move.Enqueue? && !move.Receive? && l.workers[move.w].HasPart() ==> l.where[l.workers[move.w].part] == With(move.w))
    && (move.SettleClaim? ==>
          forall j :: j in l.owed[l.DigestAt(move.w)] ==> j < |l.where| && l.where[j] == Owed(l.DigestAt(move.w)))
    && (move.CreditRest? ==> forall j :: j in l.twins[move.w] ==> j < |l.where| && l.where[j] == TwinOf(move.w))
  }

  lemma MoveFits(l: Ledger, move: Move)
    requires PlacesKept(l) && OwedKept(l) && TwinsKept(l) && l.Can(move)
    ensures Fits(l, move)
  {
    if move.SettleClaim? {
      assert OwedOf(l, l.DigestAt(move.w));
    } else if move.CreditRest? {
      assert TwinsOf(l, move.w);
    }
  }

  lemma OwedQuiet(l: Ledger, move: Move)
    requires Fits(l, move) && OwedKept(l) && !move.TakeClaim? && !move.SettleClaim?
    ensures OwedKept(l.Do(move))
  {
    var t := l.Do(move);
    forall d | d in t.claims ensures OwedOf(t, d) { assert OwedOf(l, d); }
  }

  lemma OwedOwn(l: Ledger, w: nat)
    requires Fits(l, TakeClaim(w)) && OwedKept(l) && l.DigestAt(w) !in l.claims
    ensures OwedKept(l.Own(w))
  {
    var t := l.Own(w);
    forall d | d in t.claims ensures OwedOf(t, d) { assert d in l.claims ==> OwedOf(l, d); }
  }

  lemma OwedOwe(l: Ledger, w: nat)
    requires Fits(l, TakeClaim(w)) && OwedKept(l) && l.DigestAt(w) in l.claims && !l.claims[l.DigestAt(w)].done
    ensures OwedKept(l.Owe(w))
  {
    var t := l.Owe(w);
    assert OwedOf(l, l.DigestAt(w));
    forall d | d in t.claims ensures OwedOf(t, d) { assert OwedOf(l, d); }
  }

  lemma OwedSettle(l: Ledger, w: nat)
    requires Fits(l, SettleClaim(w)) && OwedKept(l)
    ensures OwedKept(l.Settle(w))
  {
    var t := l.Settle(w);
    forall d | d in t.claims ensures OwedOf(t, d) { assert OwedOf(l, d); }
  }

  lemma OwedStep(l: Ledger, move: Move)
    requires Fits(l, move) && OwedKept(l)
    ensures OwedKept(l.Do(move))
  {
    match move
    case TakeClaim(w) =>
      var d := l.DigestAt(w);
      if d !in l.claims {
        OwedOwn(l, w);
      } else if !l.claims[d].done {
        OwedOwe(l, w);
      } else {
        forall d | d in l.claims ensures OwedOf(l.Do(move), d) { assert OwedOf(l, d); }
      }
    case SettleClaim(w) => OwedSettle(l, w);
    case _ => OwedQuiet(l, move);
  }

  lemma OwnersQuiet(l: Ledger, move: Move)
    requires Fits(l, move) && OwnersKept(l)
    requires move.Enqueue? || move.Receive? || move.Leave?
    ensures OwnersKept(l.Do(move))
  {
    var t := l.Do(move);
    forall d | d in t.claims ensures OwnerOf(t, d) { assert OwnerOf(l, d); }
    forall v | 0 <= v < |t.workers| ensures ClaimOf(t, v) { assert ClaimOf(l, v); }
  }

  /** Every claim has these keys. */
  ghost predicate SameKeys(l: Ledger) {
    l.claims.Keys == l.owed.Keys == l.ownerPart.Keys == l.ownerWorker.Keys
  }

  lemma OwnerCreditSkip(l: Ledger, w: nat, d: Digest)
    requires Fits(l, CreditSkip(w)) && SameKeys(l) && d in l.claims && OwnerOf(l, d)
    ensures OwnerOf(l.CreditSkipped(w), d)
  {
  }

  lemma OwnersCreditSkip(l: Ledger, w: nat)
    requires Fits(l, CreditSkip(w)) && OwnersKept(l)
    ensures OwnersKept(l.CreditSkipped(w))
  {
    var t := l.CreditSkipped(w);
    forall d | d in t.claims ensures OwnerOf(t, d) { OwnerCreditSkip(l, w, d); }
    forall v | 0 <= v < |t.workers| ensures ClaimOf(t, v) { assert ClaimOf(l, v); }
  }

  lemma OwnerCreditRest(l: Ledger, w: nat, d: Digest)
    requires Fits(l, CreditRest(w)) && SameKeys(l) && d in l.claims && OwnerOf(l, d)
    ensures OwnerOf(l.CreditTwins(w), d)
  {
  }

  lemma OwnersCreditRest(l: Ledger, w: nat)
    requires Fits(l, CreditRest(w)) && OwnersKept(l)
    ensures OwnersKept(l.CreditTwins(w))
  {
    var t := l.CreditTwins(w);
    forall d | d in t.claims ensures OwnerOf(t, d) { OwnerCreditRest(l, w, d); }
    forall v | 0 <= v < |t.workers| ensures ClaimOf(t, v) { assert ClaimOf(l, v); }
  }

  /** An owner goes on with its upload. */
  lemma OwnersSame(l: Ledger, t: Ledger, w: nat)
    requires OwnersKept(l) && w < |l.workers| && l.workers[w].Owns()
    requires t.claims == l.claims && t.owed == l.owed && t.ownerPart == l.ownerPart && t.ownerWorker == l.ownerWorker
    requires t.digests == l.digests && t.where == l.where
    requires |t.workers| == |l.workers| && t.workers == l.workers[w := t.workers[w]]
    requires t.workers[w].Owns() && t.workers[w].part == l.workers[w].part
    ensures OwnersKept(t)
  {
    forall d | d in t.claims ensures OwnerOf(t, d) { assert OwnerOf(l, d); }
    forall v | 0 <= v < |t.workers| ensures ClaimOf(t, v) { assert ClaimOf(l, v); }
  }

  lemma OwnersUpload(l: Ledger, move: Move)
    requires Fits(l, move) && OwnersKept(l)
    requires move.Found? || move.StartsPut? || move.EndsPut?
    ensures OwnersKept(l.Do(move))
  {
    OwnersSame(l, l.Do(move), move.w);
  }

  lemma OwnerOwn(l: Ledger, w: nat, d: Digest)
    requires Fits(l, TakeClaim(w)) && SameKeys(l) && l.DigestAt(w) !in l.claims
    requires d == l.DigestAt(w) || (d in l.claims && OwnerOf(l, d))
    ensures OwnerOf(l.Own(w), d)
  {
  }

  lemma ClaimOwn(l: Ledger, w: nat, v: nat)
    requires Fits(l, TakeClaim(w)) && SameKeys(l) && l.DigestAt(w) !in l.claims && v < |l.workers| && ClaimOf(l, v)
    ensures ClaimOf(l.Own(w), v)
  {
  }

  lemma OwnersOwn(l: Ledger, w: nat)
    requires Fits(l, TakeClaim(w)) && OwnersKept(l) && l.DigestAt(w) !in l.claims
    ensures OwnersKept(l.Own(w))
  {
    var t := l.Own(w);
    forall d | d in t.claims ensures OwnerOf(t, d) {
      assert d in l.claims ==> OwnerOf(l, d);
      OwnerOwn(l, w, d);
    }
    forall v | 0 <= v < |t.workers| ensures ClaimOf(t, v) { ClaimOwn(l, w, v); }
  }

  lemma OwnersOwe(l: Ledger, w: nat)
    requires Fits(l, TakeClaim(w)) && OwnersKept(l) && l.DigestAt(w) in l.claims && !l.claims[l.DigestAt(w)].done
    ensures OwnersKept(l.Owe(w))
  {
    var t := l.Owe(w);
    forall d | d in t.claims ensures OwnerOf(t, d) { assert OwnerOf(l, d); }
    forall v | 0 <= v < |t.workers| ensures ClaimOf(t, v) { assert ClaimOf(l, v); }
  }

  lemma OwnersSkip(l: Ledger, w: nat)
    requires Fits(l, TakeClaim(w)) && OwnersKept(l) && l.DigestAt(w) in l.claims && l.claims[l.DigestAt(w)].done
    ensures OwnersKept(l.Skip(w))
  {
    var t := l.Skip(w);
    forall d | d in t.claims ensures OwnerOf(t, d) { assert OwnerOf(l, d); }
    forall v | 0 <= v < |t.workers| ensures ClaimOf(t, v) { assert ClaimOf(l, v); }
  }

  lemma OwnersSettle(l: Ledger, w: nat)
    requires Fits(l, SettleClaim(w)) && OwnersKept(l)
    ensures OwnersKept(l.Settle(w))
  {
    var t := l.Settle(w);
    assert ClaimOf(l, w);
    forall d | d in t.claims ensures OwnerOf(t, d) { assert OwnerOf(l, d); }
    forall v | 0 <= v < |t.workers| ensures ClaimOf(t, v) { assert ClaimOf(l, v); }
  }

  lemma OwnerCreditPart(l: Ledger, w: nat, d: Digest)
    requires Fits(l, CreditPart(w)) && SameKeys(l) && d in l.claims && OwnerOf(l, d) && ClaimOf(l, w)
    ensures OwnerOf(l.CreditOwn(w), d)
  {
  }

  lemma ClaimCreditPart(l: Ledger, w: nat, v: nat)
    requires Fits(l, CreditPart(w)) && SameKeys(l) && v < |l.workers| && ClaimOf(l, v)
    ensures ClaimOf(l.CreditOwn(w), v)
  {
  }

  lemma OwnersCreditPart(l: Ledger, w: nat)
    requires Fits(l, CreditPart(w)) && OwnersKept(l)
    ensures OwnersKept(l.CreditOwn(w))
  {
    var t := l.CreditOwn(w);
    assert ClaimOf(l, w);
    forall d | d in t.claims ensures OwnerOf(t, d) { OwnerCreditPart(l, w, d); }
    forall v | 0 <= v < |t.workers| ensures ClaimOf(t, v) { ClaimCreditPart(l, w, v); }
  }

  lemma OwnersAbandon(l: Ledger, w: nat)
    requires Fits(l, Abandon(w)) && OwnersKept(l)
    ensures OwnersKept(l.Fail(w))
  {
    var t := l.Fail(w);
    assert ClaimOf(l, w);
    forall d | d in t.claims ensures OwnerOf(t, d) { assert OwnerOf(l, d); }
    forall v | 0 <= v < |t.workers| ensures ClaimOf(t, v) { assert ClaimOf(l, v); }
  }

  lemma OwnersStep(l: Ledger, move: Move)
    requires Fits(l, move) && OwnersKept(l)
    ensures OwnersKept(l.Do(move))
  {
    match move
    case TakeClaim(w) =>
      var d := l.DigestAt(w);
      if d !in l.claims {
        OwnersOwn(l, w);
      } else if l.claims[d].done {
        OwnersSkip(l, w);
      } else {
        OwnersOwe(l, w);
      }
    case Found(_) => OwnersUpload(l, move);
    case StartsPut(_) => OwnersUpload(l, move);
    case EndsPut(_, _) => OwnersUpload(l, move);
    case SettleClaim(w) => OwnersSettle(l, w);
    case CreditPart(w) => OwnersCreditPart(l, w);
    case Abandon(w) => OwnersAbandon(l, w);
    case CreditSkip(w) => OwnersCreditSkip(l, w);
    case CreditRest(w) => OwnersCreditRest(l, w);
    case _ => OwnersQuiet(l, move);
  }

  lemma TwinsQuiet(l: Ledger, move: Move)
    requires Fits(l, move) && TwinsKept(l)
    requires !move.TakeClaim? && !move.SettleClaim? && !move.CreditRest?
    ensures TwinsKept(l.Do(move))
  {
    var t := l.Do(move);
    forall v | 0 <= v < |t.workers| ensures TwinsOf(t, v) { assert TwinsOf(l, v); }
  }

  lemma TwinsOwn(l: Ledger, w: nat)
    requires Fits(l, TakeClaim(w)) && TwinsKept(l) && l.DigestAt(w) !in l.claims
    ensures TwinsKept(l.Own(w))
  {
    var t := l.Own(w);
    forall v | 0 <= v < |t.workers| ensures TwinsOf(t, v) { assert TwinsOf(l, v); }
  }

  lemma TwinsOwe(l: Ledger, w: nat)
    requires Fits(l, TakeClaim(w)) && TwinsKept(l) && l.DigestAt(w) in l.claims && !l.claims[l.DigestAt(w)].done
    ensures TwinsKept(l.Owe(w))
  {
    var t := l.Owe(w);
    forall v | 0 <= v < |t.workers| ensures TwinsOf(t, v) { assert TwinsOf(l, v); }
  }

  lemma TwinsSkip(l: Ledger, w: nat)
    requires Fits(l, TakeClaim(w)) && TwinsKept(l) && l.DigestAt(w) in l.claims && l.claims[l.DigestAt(w)].done
    ensures TwinsKept(l.Skip(w))
  {
    var t := l.Skip(w);
    forall v | 0 <= v < |t.workers| ensures TwinsOf(t, v) { assert TwinsOf(l, v); }
  }

  lemma TwinsSettle(l: Ledger, w: nat)
    requires Fits(l, SettleClaim(w)) && TwinsKept(l) && OwedKept(l)
    ensures TwinsKept(l.Settle(w))
  {
    var t := l.Settle(w);
    assert OwedOf(l, l.DigestAt(w)) && TwinsOf(l, w);
    forall v | 0 <= v < |t.workers| ensures TwinsOf(t, v) { assert TwinsOf(l, v); }
  }

  lemma TwinsCredited(l: Ledger, w: nat)
    requires Fits(l, CreditRest(w)) && TwinsKept(l)
    ensures TwinsKept(l.CreditTwins(w))
  {
    var t := l.CreditTwins(w);
    forall v | 0 <= v < |t.workers| ensures TwinsOf(t, v) { assert TwinsOf(l, v); }
  }

  lemma TwinsStep(l: Ledger, move: Move)
    requires Fits(l, move) && TwinsKept(l) && OwedKept(l)
    ensures TwinsKept(l.Do(move))
  {
    match move
    case TakeClaim(w) =>
      var d := l.DigestAt(w);
      if d !in l.claims {
        TwinsOwn(l, w);
      } else if l.claims[d].done {
        TwinsSkip(l, w);
      } else {
        TwinsOwe(l, w);
      }
    case SettleClaim(w) => TwinsSettle(l, w);
    case CreditRest(w) => TwinsCredited(l, w);
    case _ => TwinsQuiet(l, move);
  }

  lemma CreditQuiet(l: Ledger, move: Move)
    requires Fits(l, move) && CreditKept(l)
    requires move.Enqueue? || move.Receive? || move.Leave? || move.Found? || move.EndsPut? || move.Abandon?
    ensures CreditKept(l.Do(move))
  {
    var t := l.Do(move);
    forall v | 0 <= v < |t.workers| ensures PutOf(t, v) { assert PutOf(l, v); }
    forall j | j in t.credited ensures CreditOf(t, j) { assert CreditOf(l, j); }
  }

  lemma PutTake(l: Ledger, w: nat, v: nat)
    requires Fits(l, TakeClaim(w)) && l.puts <= l.claims.Keys && v < |l.workers| && PutOf(l, v)
    ensures PutOf(l.Take(w), v)
  {
  }

  lemma CreditOfTake(l: Ledger, w: nat, j: nat)
    requires Fits(l, TakeClaim(w)) && CreditOf(l, j)
    ensures CreditOf(l.Take(w), j)
  {
  }

  lemma CreditTake(l: Ledger, w: nat)
    requires Fits(l, TakeClaim(w)) && CreditKept(l)
    ensures CreditKept(l.Take(w))
  {
    var t := l.Take(w);
    forall v | 0 <= v < |t.workers| ensures PutOf(t, v) { PutTake(l, w, v); }
    forall j | j in t.credited ensures CreditOf(t, j) { CreditOfTake(l, w, j); }
  }

  /** Only the owner puts, and nothing of its digest has been credited yet. */
  lemma CreditStartPut(l: Ledger, w: nat)
    requires Fits(l, StartsPut(w)) && CreditKept(l) && OwnersKept(l)
    ensures CreditKept(l.StartPut(w))
  {
    var t := l.StartPut(w);
    assert ClaimOf(l, w);
    forall v | 0 <= v < |t.workers| ensures PutOf(t, v) { assert PutOf(l, v) && ClaimOf(l, v); }
    forall j | j in t.credited ensures CreditOf(t, j) { assert CreditOf(l, j); }
  }

  lemma CreditSettle(l: Ledger, w: nat)
    requires Fits(l, SettleClaim(w)) && CreditKept(l) && OwnersKept(l)
    ensures CreditKept(l.Settle(w))
  {
    var t := l.Settle(w);
    assert ClaimOf(l, w);
    forall v | 0 <= v < |t.workers| ensures PutOf(t, v) { assert PutOf(l, v); }
    forall j | j in t.credited ensures CreditOf(t, j) { assert CreditOf(l, j); }
  }

  lemma CreditSkipKept(l: Ledger, w: nat)
    requires Fits(l, CreditSkip(w)) && CreditKept(l) && OwnersKept(l)
    ensures CreditKept(l.CreditSkipped(w))
  {
    var t := l.CreditSkipped(w);
    assert ClaimOf(l, w) && OwnerOf(l, l.DigestAt(w));
    forall v | 0 <= v < |t.workers| ensures PutOf(t, v) { assert PutOf(l, v); }
    forall j | j in t.credited ensures CreditOf(t, j) { assert j in l.credited ==> CreditOf(l, j); }
  }

  lemma CreditOwnOf(l: Ledger, w: nat, j: nat)
    requires Fits(l, CreditPart(w)) && SameKeys(l) && ClaimOf(l, w) && PutOf(l, w)
    requires l.skipped <= l.credited && l.workers[w].part !in l.credited
    requires (j in l.credited && CreditOf(l, j)) || j == l.workers[w].part
    ensures CreditOf(l.CreditOwn(w), j)
  {
  }

  lemma PutCreditPart(l: Ledger, w: nat, v: nat)
    requires Fits(l, CreditPart(w)) && v < |l.workers| && PutOf(l, v)
    ensures PutOf(l.CreditOwn(w), v)
  {
  }

  lemma CreditOwnPlaces(l: Ledger, w: nat)
    requires Fits(l, CreditPart(w)) && l.skipped <= l.credited
    requires forall j :: 0 <= j < |l.where| ==> (j in l.credited <==> l.where[j].Credited?)
    ensures l.workers[w].part !in l.credited
    ensures
      var t := l.CreditOwn(w);
      && t.skipped <= t.credited
      && forall j :: 0 <= j < |t.where| ==> (j in t.credited <==> t.where[j].Credited?)
  {
  }

  lemma CreditOwnCredits(l: Ledger, w: nat)
    requires Fits(l, CreditPart(w)) && SameKeys(l) && ClaimOf(l, w) && PutOf(l, w)
    requires l.skipped <= l.credited && l.workers[w].part !in l.credited
    requires forall j :: j in l.credited ==> CreditOf(l, j)
    ensures forall j :: j in l.CreditOwn(w).credited ==> CreditOf(l.CreditOwn(w), j)
  {
    forall j | j in l.CreditOwn(w).credited ensures CreditOf(l.CreditOwn(w), j) {
      CreditOwnOf(l, w, j);
    }
  }

  lemma CreditOwnKept(l: Ledger, w: nat)
    requires Fits(l, CreditPart(w)) && CreditKept(l) && OwnersKept(l)
    ensures CreditKept(l.CreditOwn(w))
  {
    var t := l.CreditOwn(w);
    assert ClaimOf(l, w) && PutOf(l, w);
    CreditOwnPlaces(l, w);
    CreditOwnCredits(l, w);
    forall v | 0 <= v < |t.workers| ensures PutOf(t, v) { PutCreditPart(l, w, v); }
  }

  /** A twin is not its digest's owner, and that digest is in place. */
  lemma TwinIsNoOwner(l: Ledger, w: nat, j: nat)
    requires Fits(l, CreditRest(w)) && OwnersKept(l) && TwinsKept(l) && j in l.twins[w]
    ensures j < |l.digests| && l.digests[j] in l.claims && l.digests[j] in l.ownerPart
    ensures l.claims[l.digests[j]].done && l.ownerPart[l.digests[j]] != j
  {
    assert TwinsOf(l, w) && OwnerOf(l, l.DigestAt(w));
  }

  lemma CreditMany(l: Ledger, w: nat)
    requires Fits(l, CreditRest(w)) && CreditKept(l) && OwnersKept(l) && TwinsKept(l)
    ensures CreditKept(l.CreditTwins(w))
  {
    forall j | j in l.twins[w]
      ensures j < |l.digests| && l.digests[j] in l.claims && l.digests[j] in l.ownerPart
      ensures l.claims[l.digests[j]].done && l.ownerPart[l.digests[j]] != j
    {
      TwinIsNoOwner(l, w, j);
    }
    CreditManyFrom(l, w);
  }

  lemma CreditManyFrom(l: Ledger, w: nat)
    requires Fits(l, CreditRest(w)) && CreditKept(l)
    requires forall j :: j in l.twins[w] ==>
               && j < |l.digests| && l.digests[j] in l.claims && l.digests[j] in l.ownerPart
               && l.claims[l.digests[j]].done && l.ownerPart[l.digests[j]] != j
    ensures CreditKept(l.CreditTwins(w))
  {
    var t := l.CreditTwins(w);
    forall v | 0 <= v < |t.workers| ensures PutOf(t, v) { assert PutOf(l, v); }
    forall j | j in t.credited ensures CreditOf(t, j) { assert j in l.credited ==> CreditOf(l, j); }
  }

  lemma CreditStep(l: Ledger, move: Move)
    requires Fits(l, move) && CreditKept(l) && OwnersKept(l) && TwinsKept(l)
    ensures CreditKept(l.Do(move))
  {
    match move
    case TakeClaim(w) => CreditTake(l, w);
    case StartsPut(w) => CreditStartPut(l, w);
    case SettleClaim(w) => CreditSettle(l, w);
    case CreditSkip(w) => CreditSkipKept(l, w);
    case CreditPart(w) => CreditOwnKept(l, w);
    case CreditRest(w) => CreditMany(l, w);
    case _ => CreditQuiet(l, move);
  }

  lemma PlacesEnqueue(l: Ledger, d: Digest)
    requires PlacesKept(l)
    ensures PlacesKept(l.EnqueuePart(d))
  {
    var t := l.EnqueuePart(d);
    assert t.queue[|l.queue|] == |l.digests|;
    forall j | 0 <= j < |t.where| && t.where[j].With? ensures HeldBy(t, j, t.where[j].worker) {
      assert HeldBy(l, j, l.where[j].worker);
    }
  }

  lemma PlacesReceive(l: Ledger, w: nat)
    requires PlacesKept(l) && l.Can(Receive(w))
    ensures PlacesKept(l.ReceivePart(w))
  {
    var t := l.ReceivePart(w);
    forall j | 0 <= j < |t.where| && t.where[j].Queued? ensures j in t.queue {
      PopKeepsRest(l.queue, j);
    }
    forall j | 0 <= j < |t.where| && t.where[j].With? ensures HeldBy(t, j, t.where[j].worker) {
      assert j != l.queue[0] ==> HeldBy(l, j, l.where[j].worker);
    }
  }

  /** A worker goes on with the part it has, or leaves without one. */
  lemma PlacesSame(l: Ledger, t: Ledger, w: nat)
    requires PlacesKept(l) && w < |l.workers| && !l.workers[w].Failed?
    requires t.queue == l.queue && |t.digests| == |l.digests| && |t.twins| == |l.twins| && t.where == l.where
    requires |t.workers| == |l.workers| && t.workers == l.workers[w := t.workers[w]] && !t.workers[w].Crediting?
    requires t.workers[w].HasPart() == l.workers[w].HasPart()
    requires t.workers[w].HasPart() ==> t.workers[w].part == l.workers[w].part
    ensures PlacesKept(t)
  {
    forall j | 0 <= j < |t.where| && t.where[j].With? ensures HeldBy(t, j, t.where[j].worker) {
      assert HeldBy(l, j, l.where[j].worker);
    }
  }

  lemma PlacesUpload(l: Ledger, move: Move)
    requires PlacesKept(l) && l.Can(move)
    requires move.Leave? || move.Found? || move.StartsPut? || move.EndsPut?
    ensures PlacesKept(l.Do(move))
  {
    PlacesSame(l, l.Do(move), move.w);
  }

  lemma PlacesOwe(l: Ledger, w: nat)
    requires PlacesKept(l) && l.Can(TakeClaim(w)) && l.DigestAt(w) in l.claims
    ensures PlacesKept(l.Owe(w))
  {
    var t := l.Owe(w);
    forall j | 0 <= j < |t.where| && t.where[j].With? ensures HeldBy(t, j, t.where[j].worker) {
      assert HeldBy(l, j, l.where[j].worker);
    }
  }

  lemma PlacesTake(l: Ledger, w: nat)
    requires PlacesKept(l) && l.Can(TakeClaim(w)) && (l.DigestAt(w) in l.claims ==> l.claims[l.DigestAt(w)].done)
    ensures PlacesKept(l.Take(w))
  {
    var t := l.Take(w);
    forall j | 0 <= j < |t.where| && t.where[j].With? ensures HeldBy(t, j, t.where[j].worker) {
      assert HeldBy(l, j, l.where[j].worker);
    }
  }

  /** A worker's part ends, credited or lost with the worker. */
  lemma PlacesEnded(l: Ledger, t: Ledger, w: nat)
    requires PlacesKept(l) && w < |l.workers| && l.workers[w].HasPart()
    requires t.queue == l.queue && |t.digests| == |l.digests| && |t.twins| == |l.twins|
    requires |t.workers| == |l.workers| && t.workers == l.workers[w := t.workers[w]] && !t.workers[w].HasPart()
    requires t.workers[w].Crediting? ==> t.workers[w].part < |l.where|
    requires
      || t.where == l.where[l.workers[w].part := Credited]
      || (t.where == l.where[l.workers[w].part := Lost(w)] && t.workers[w].Failed?)
    ensures PlacesKept(t)
  {
    forall j | 0 <= j < |t.where| && t.where[j].With? ensures HeldBy(t, j, t.where[j].worker) {
      assert HeldBy(l, j, l.where[j].worker);
    }
  }

  lemma PlacesPartEnds(l: Ledger, move: Move)
    requires PlacesKept(l) && l.Can(move)
    requires move.CreditSkip? || move.CreditPart? || move.Abandon?
    ensures PlacesKept(l.Do(move))
  {
    PlacesEnded(l, l.Do(move), move.w);
  }

  lemma PlacesSettle(l: Ledger, w: nat)
    requires PlacesKept(l) && Fits(l, SettleClaim(w))
    ensures PlacesKept(l.Settle(w))
  {
    var t := l.Settle(w);
    forall j | 0 <= j < |t.where| && t.where[j].With? ensures HeldBy(t, j, t.where[j].worker) {
      assert HeldBy(l, j, l.where[j].worker);
    }
  }

  lemma PlacesTwins(l: Ledger, w: nat)
    requires PlacesKept(l) && Fits(l, CreditRest(w))
    ensures PlacesKept(l.CreditTwins(w))
  {
    var t := l.CreditTwins(w);
    forall j | 0 <= j < |t.where| && t.where[j].With? ensures HeldBy(t, j, t.where[j].worker) {
      assert HeldBy(l, j, l.where[j].worker);
    }
  }

  lemma PlacesStep(l: Ledger, move: Move)
    requires PlacesKept(l) && Fits(l, move)
    ensures PlacesKept(l.Do(move))
  {
    match move
    case Enqueue(d) => PlacesEnqueue(l, d);
    case Receive(w) => PlacesReceive(l, w);
    case TakeClaim(w) =>
      if l.DigestAt(w) in l.claims && !l.claims[l.DigestAt(w)].done {
        PlacesOwe(l, w);
      } else {
        PlacesTake(l, w);
      }
    case CreditSkip(_) => PlacesPartEnds(l, move);
    case CreditPart(_) => PlacesPartEnds(l, move);
    case Abandon(_) => PlacesPartEnds(l, move);
    case SettleClaim(w) => PlacesSettle(l, w);
    case CreditRest(w) => PlacesTwins(l, w);
    case _ => PlacesUpload(l, move);
  }

  /** Every move of every worker, in any order, keeps the ledger. */
  lemma MoveKept(l: Ledger, move: Move)
    requires LedgerKept(l) && l.Can(move)
    ensures LedgerKept(l.Do(move))
  {
    MoveFits(l, move);
    PlacesStep(l, move);
    OwnersStep(l, move);
    OwedStep(l, move);
    TwinsStep(l, move);
    CreditStep(l, move);
  }
}
