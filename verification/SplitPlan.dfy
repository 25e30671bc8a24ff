/** The split rule: how a file of a given size is cut into parts (internal/plan/plan.go). */
module SplitPlan {
  import opened Base

  const MAX_PARTS: int64 := 4096

  datatype Part = Part(index: int64, offset: int64, size: int64)

  datatype PlanError =
    | NegativeFileSize
    | NonPositivePartSize
    | TooManyParts(needed: int64, atLeast: int64)

  datatype Plan = Plan(fileSize: int64, partSize: int64, numParts: int64) {
    /** What New promises of every plan it returns: numParts is the least positive number of
        parts that covers the file, and it is at most MAX_PARTS. */
    ghost predicate Valid() {
      && 0 <= fileSize
      && 0 < partSize
      && 1 <= numParts <= MAX_PARTS
      && fileSize as int <= numParts as int * partSize as int
      && (numParts == 1 || (numParts as int - 1) * partSize as int < fileSize as int)
    }

    /** The number of parts as a natural number. */
    ghost function N(): (n: nat)
      requires Valid()
    {
      numParts as int
    }

    /** Byte position where part i starts, as a natural number; Lo(N()) is not the end of the file. */
    ghost function Lo(i: nat): nat
      requires Valid()
    {
      i * partSize as int
    }

    /** Byte position where part i ends. */
    ghost function Hi(i: nat): nat
      requires Valid()
    {
      if (i + 1) * partSize as int <= fileSize as int then (i + 1) * partSize as int else fileSize as int
    }

    ghost function Size(i: nat): nat
      requires Valid() && i < N()
    {
      LoHi(this, i);
      Hi(i) - Lo(i)
    }

    /** Part i of a file's content. */
    ghost function Slice(content: Bytes, i: nat): Bytes
      requires Valid() && i < N() && |content| == fileSize as int
    {
      LoHi(this, i);
      content[Lo(i)..Hi(i)]
    }

    /** The range of part i, computed in int64 as the source does: neither the product nor the
        difference can overflow, because both are bounded by the file size. */
    function PartAt(i: int64): (part: Part)
      requires Valid() && 0 <= i < numParts
      ensures part.index == i
      ensures part.offset as int == Lo(i as int)
      ensures part.offset as int + part.size as int == Hi(i as int)
      ensures 0 <= part.offset <= fileSize && 0 <= part.size <= partSize
    {
      LoHi(this, i as int);
      var offset := i * partSize;
      var left := fileSize - offset;
      Part(i, offset, if partSize <= left then partSize else left)
    }
  }

  function CountParts(fileSize: int64, partSize: int64): (n: int64)
    requires 0 <= fileSize && 0 < partSize
    ensures 1 <= n
    ensures fileSize as int <= n as int * partSize as int
    ensures n == 1 || (n as int - 1) * partSize as int < fileSize as int
  {
    DivFacts(fileSize as int, partSize as int);
    var parts := fileSize / partSize;
    if parts == 0 || fileSize % partSize != 0 then parts + 1 else parts
  }

  function SmallestPartSize(fileSize: int64): (p: int64)
    requires 0 <= fileSize
    ensures fileSize as int <= p as int * MAX_PARTS as int
    ensures fileSize == 0 ==> p == 0
    ensures fileSize > 0 ==> 1 <= p && (p as int - 1) * MAX_PARTS as int < fileSize as int
  {
    var size := fileSize / MAX_PARTS;
    if fileSize % MAX_PARTS != 0 then size + 1 else size
  }

  function New(fileSize: int64, partSize: int64): (r: Result<Plan, PlanError>)
    ensures r.Ok? ==> r.value.Valid() && r.value.fileSize == fileSize && r.value.partSize == partSize
  {
    if fileSize < 0 then Err(NegativeFileSize)
    else if partSize <= 0 then Err(NonPositivePartSize)
    else
      var numParts := CountParts(fileSize, partSize);
      if numParts > MAX_PARTS then Err(TooManyParts(numParts, SmallestPartSize(fileSize)))
      else Ok(Plan(fileSize, partSize, numParts))
  }

  lemma DivFacts(a: nat, b: nat)
    requires 0 < b
    ensures a == (a / b) * b + a % b
    ensures 0 <= a / b <= a
    ensures b == 1 ==> a % b == 0
    ensures 1 < b && 0 < a ==> a / b < a
  {
    var q, m := a / b, a % b;
    assert a == q * b + m;
    ProductBounds(q, b);
  }

  lemma ProductBounds(q: int, b: nat)
    requires 0 < b
    ensures q >= 0 ==> q <= q * b
    ensures q > 0 && b > 1 ==> q < q * b
    ensures q < 0 ==> q * b + b <= 0
  {
    if q > 0 {
      MulMono(1, b, q);
      if b > 1 { MulMono(2, b, q); }
    } else if q < 0 {
      MulMono(1, -q, b);
    }
  }

  lemma MulMono(a: nat, b: nat, p: nat)
    requires a <= b
    ensures a * p <= b * p
  {
  }

  /** New accepts exactly when max(1, ceil(fileSize / partSize)) is at most MAX_PARTS, that is,
      when MAX_PARTS parts can hold the file. */
  lemma NewAccepts(fileSize: int64, partSize: int64)
    ensures New(fileSize, partSize).Ok? <==>
            0 <= fileSize && 0 < partSize && fileSize as int <= MAX_PARTS as int * partSize as int
  {
    if 0 <= fileSize && 0 < partSize {
      var n := CountParts(fileSize, partSize) as int;
      if n <= MAX_PARTS as int {
        MulMono(n, MAX_PARTS as int, partSize as int);
      } else {
        MulMono(MAX_PARTS as int, n - 1, partSize as int);
      }
    }
  }

  /** The part size an over-large split is told to use is the least one that New accepts. */
  lemma SmallestPartSizeIsLeast(fileSize: int64, partSize: int64)
    requires 0 < fileSize
    ensures New(fileSize, partSize).Ok? <==> SmallestPartSize(fileSize) <= partSize
  {
    NewAccepts(fileSize, partSize);
    var least := SmallestPartSize(fileSize) as int;
    if 0 < partSize {
      if least <= partSize as int {
        MulMono(least, partSize as int, MAX_PARTS as int);
      } else {
        MulMono(partSize as int, least - 1, MAX_PARTS as int);
      }
    }
  }

  /** Why a split is refused: a size that makes no sense, or more parts than are allowed, with the least number that
      would do and the least part size that would be accepted. */
  lemma WhyRefused(fileSize: int64, partSize: int64)
    ensures New(fileSize, partSize) == Err(NegativeFileSize) <==> fileSize < 0
    ensures New(fileSize, partSize) == Err(NonPositivePartSize) <==> 0 <= fileSize && partSize <= 0
    ensures
      match New(fileSize, partSize)
      case Err(TooManyParts(needed, atLeast)) =>
        && 4096 < needed && (needed as int - 1) * partSize as int < fileSize as int <= needed as int * partSize as int
        && New(fileSize, atLeast).Ok? && forall p: int64 :: New(fileSize, p).Ok? ==> atLeast <= p
      case _ => true
  {
    var r := New(fileSize, partSize);
    if r.Err? && r.error.TooManyParts? {
      SmallestPartSizeIsLeast(fileSize, r.error.atLeast);
      forall p: int64 | New(fileSize, p).Ok? ensures r.error.atLeast <= p {
        SmallestPartSizeIsLeast(fileSize, p);
      }
    }
  }

  /** A valid plan is the one New computes from its own sizes. */
  lemma PlanIsUnique(plan: Plan)
    requires plan.Valid()
    ensures New(plan.fileSize, plan.partSize) == Ok(plan)
  {
    NewAccepts(plan.fileSize, plan.partSize);
    MulMono(plan.N(), MAX_PARTS as int, plan.partSize as int);
    var n := New(plan.fileSize, plan.partSize).value.numParts as int;
    if n < plan.N() {
      MulMono(n, plan.N() - 1, plan.partSize as int);
    } else if plan.N() < n {
      MulMono(plan.N(), n - 1, plan.partSize as int);
    }
  }

  /** A part's range lies inside the file, and the next part starts where it ends. */
  lemma LoHi(plan: Plan, i: nat)
    requires plan.Valid() && i < plan.N()
    ensures plan.Lo(i) <= plan.Hi(i) <= plan.fileSize as int
    ensures i + 1 < plan.N() ==> plan.Hi(i) == plan.Lo(i + 1) && plan.Hi(i) - plan.Lo(i) == plan.partSize as int
    ensures i + 1 == plan.N() ==> plan.Hi(i) == plan.fileSize as int
    ensures plan.Hi(i) - plan.Lo(i) <= plan.partSize as int
    ensures plan.fileSize > 0 ==> plan.Lo(i) < plan.Hi(i)
    ensures plan.Lo(0) == 0
  {
    var p := plan.partSize as int;
    MulMono(i, plan.N() - 1, p);
    if i + 1 < plan.N() {
      MulMono(i + 1, plan.N() - 1, p);
    }
    assert (i + 1) * p == i * p + p;
  }

  /** Ranges of earlier parts end before ranges of later parts start. */
  lemma RangesDisjoint(plan: Plan, i: nat, j: nat)
    requires plan.Valid() && i < j < plan.N()
    ensures plan.Hi(i) <= plan.Lo(j)
  {
    LoHi(plan, i);
    MulMono(i + 1, j, plan.partSize as int);
  }

  /** Every byte of the file is in one part. */
  lemma {:induction false} PartHolding(plan: Plan, at: nat, from: nat) returns (i: nat)
    requires plan.Valid() && at < plan.fileSize as int
    requires from < plan.N() && plan.Lo(from) <= at
    ensures i < plan.N() && plan.Lo(i) <= at < plan.Hi(i)
    ensures forall j: nat :: j < plan.N() && plan.Lo(j) <= at < plan.Hi(j) ==> j == i
    decreases plan.N() - from
  {
    LoHi(plan, from);
    if at < plan.Hi(from) {
      i := from;
      forall j: nat | j < plan.N() && plan.Lo(j) <= at < plan.Hi(j) ensures j == i {
        OnePartOnly(plan, at, i, j);
      }
    } else {
      i := PartHolding(plan, at, from + 1);
    }
  }

  lemma OnePartOnly(plan: Plan, at: nat, i: nat, j: nat)
    requires plan.Valid() && i < plan.N() && j < plan.N()
    requires plan.Lo(i) <= at < plan.Hi(i) && plan.Lo(j) <= at < plan.Hi(j)
    ensures i == j
  {
    if j < i {
      RangesDisjoint(plan, j, i);
    } else if i < j {
      RangesDisjoint(plan, i, j);
    }
  }

  /** The concatenation of the first k parts. */
  ghost function Joined(plan: Plan, content: Bytes, k: nat): Bytes
    requires plan.Valid() && k <= plan.N() && |content| == plan.fileSize as int
  {
    if k == 0 then [] else Joined(plan, content, k - 1) + plan.Slice(content, k - 1)
  }

  lemma {:induction false} JoinedIsPrefix(plan: Plan, content: Bytes, k: nat)
    requires plan.Valid() && 0 < k <= plan.N() && |content| == plan.fileSize as int
    ensures plan.Hi(k - 1) <= |content| && Joined(plan, content, k) == content[..plan.Hi(k - 1)]
  {
    LoHi(plan, k - 1);
    if k > 1 {
      JoinedIsPrefix(plan, content, k - 1);
      LoHi(plan, k - 2);
      var lo, hi := plan.Lo(k - 1), plan.Hi(k - 1);
      assert content[..lo] + content[lo..hi] == content[..hi];
    } else {
      assert Joined(plan, content, 0) == [];
      assert Joined(plan, content, 1) == [] + plan.Slice(content, 0);
      assert content[..plan.Hi(0)] == [] + content[0..plan.Hi(0)];
    }
  }

  /** The parts, in order, are the file: no gap, no overlap. */
  lemma PartsTileTheFile(plan: Plan, content: Bytes)
    requires plan.Valid() && |content| == plan.fileSize as int
    ensures Joined(plan, content, plan.N()) == content
  {
    JoinedIsPrefix(plan, content, plan.N());
    LoHi(plan, plan.N() - 1);
    assert content[..|content|] == content;
  }

  /** Two files of the planned size that agree part by part are the same file. */
  lemma {:induction false} SameSlicesSameFile(plan: Plan, a: Bytes, b: Bytes)
    requires plan.Valid() && |a| == |b| == plan.fileSize as int
    requires forall i: nat :: i < plan.N() ==> plan.Slice(a, i) == plan.Slice(b, i)
    ensures a == b
  {
    forall at | 0 <= at < |a| ensures a[at] == b[at] {
      LoHi(plan, 0);
      var i := PartHolding(plan, at, 0);
      assert plan.Slice(a, i)[at - plan.Lo(i)] == plan.Slice(b, i)[at - plan.Lo(i)];
    }
  }
}
