/** The sizes of a plan's parts, and that they add up to the file. */
module PartSizes {
  import opened SplitPlan
  import opened Counting

  ghost function SizesOf(plan: Plan): (sizes: seq<nat>)
    requires plan.Valid()
    ensures |sizes| == plan.N()
    ensures forall i :: 0 <= i < |sizes| ==> sizes[i] == plan.Size(i)
  {
    seq(plan.N(), i requires 0 <= i < plan.N() => plan.Size(i))
  }

  lemma {:induction false} TotalOfPrefix(plan: Plan, k: nat)
    requires plan.Valid() && 0 < k <= plan.N()
    ensures Total(SizesOf(plan)[..k], Below(plan.N())) == plan.Hi(k - 1)
  {
    var sizes := SizesOf(plan);
    LoHi(plan, k - 1);
    assert sizes[..k][..k - 1] == sizes[..k - 1];
    if k > 1 {
      TotalOfPrefix(plan, k - 1);
      LoHi(plan, k - 2);
    }
  }

  /** All parts together are the whole file. */
  lemma TotalIsFileSize(plan: Plan)
    requires plan.Valid()
    ensures Total(SizesOf(plan), Below(plan.N())) == plan.fileSize as int
  {
    TotalOfPrefix(plan, plan.N());
    LoHi(plan, plan.N() - 1);
    assert SizesOf(plan)[..plan.N()] == SizesOf(plan);
  }
}
