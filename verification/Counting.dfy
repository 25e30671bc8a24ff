/** Sizes of finite sets of parts. */
module Counting {
  /** The total size of the picked parts. */
  ghost function Total(sizes: seq<nat>, picked: set<nat>): nat {
    if sizes == [] then 0
    else
      var last := |sizes| - 1;
      Total(sizes[..last], picked) + if last in picked then sizes[last] else 0
  }

  lemma {:induction false} TotalSame(sizes: seq<nat>, a: set<nat>, b: set<nat>)
    requires forall i :: 0 <= i < |sizes| ==> (i in a <==> i in b)
    ensures Total(sizes, a) == Total(sizes, b)
  {
    if sizes != [] {
      TotalSame(sizes[..|sizes| - 1], a, b);
    }
  }

  lemma {:induction false} TotalAdd(sizes: seq<nat>, picked: set<nat>, i: nat)
    requires i < |sizes| && i !in picked
    ensures Total(sizes, picked + {i}) == Total(sizes, picked) + sizes[i]
  {
    var last := |sizes| - 1;
    if i == last {
      TotalSame(sizes[..last], picked, picked + {i});
    } else {
      TotalAdd(sizes[..last], picked, i);
    }
  }

  lemma {:induction false} TotalAddEqual(sizes: seq<nat>, picked: set<nat>, more: set<nat>, size: nat)
    requires picked !! more
    requires forall i :: i in more ==> i < |sizes| && sizes[i] == size
    ensures Total(sizes, picked + more) == Total(sizes, picked) + size * |more|
    decreases |more|
  {
    if more == {} {
      assert picked + more == picked;
    } else {
      var i :| i in more;
      var rest := more - {i};
      TotalAddEqual(sizes, picked, rest, size);
      TotalAdd(sizes, picked + rest, i);
      assert picked + rest + {i} == picked + more;
      Distribute(size, |rest|);
    }
  }

  lemma Distribute(size: nat, n: nat)
    ensures size * (n + 1) == size * n + size
  {
  }

  lemma {:induction false} TotalAtMost(sizes: seq<nat>, a: set<nat>, b: set<nat>)
    requires forall i :: 0 <= i < |sizes| && i in a ==> i in b
    ensures Total(sizes, a) <= Total(sizes, b)
  {
    if sizes != [] {
      TotalAtMost(sizes[..|sizes| - 1], a, b);
    }
  }

  /** Raising one picked size raises the total by as much. */
  lemma {:induction false} TotalRaise(sizes: seq<nat>, picked: set<nat>, i: nat, n: nat)
    requires i < |sizes| && i in picked
    ensures Total(sizes[i := sizes[i] + n], picked) == Total(sizes, picked) + n
  {
    var last := |sizes| - 1;
    var raised := sizes[i := sizes[i] + n];
    if i == last {
      assert raised[..last] == sizes[..last];
    } else {
      assert raised[..last] == sizes[..last][i := sizes[i] + n];
      TotalRaise(sizes[..last], picked, i, n);
    }
  }

  lemma {:induction false} TotalPointwise(small: seq<nat>, large: seq<nat>, picked: set<nat>)
    requires |small| == |large| && forall i :: 0 <= i < |small| ==> small[i] <= large[i]
    ensures Total(small, picked) <= Total(large, picked)
  {
    if small != [] {
      TotalPointwise(small[..|small| - 1], large[..|large| - 1], picked);
    }
  }

  lemma {:induction false} TotalZero(sizes: seq<nat>, picked: set<nat>)
    requires forall i :: 0 <= i < |sizes| ==> sizes[i] == 0
    ensures Total(sizes, picked) == 0
  {
    if sizes != [] {
      TotalZero(sizes[..|sizes| - 1], picked);
    }
  }

  lemma {:induction false} TotalNone(sizes: seq<nat>)
    ensures Total(sizes, {}) == 0
  {
    if sizes != [] {
      TotalNone(sizes[..|sizes| - 1]);
    }
  }

  /** The indexes below n. */
  ghost function Below(n: nat): (r: set<nat>)
    ensures |r| == n
    ensures forall i :: i in r <==> 0 <= i < n
  {
    if n == 0 then {} else Below(n - 1) + {n - 1}
  }

  lemma {:induction false} SubsetCard<T>(a: set<T>, b: set<T>)
    requires a <= b
    ensures |a| <= |b|
    ensures |b - a| == |b| - |a|
    decreases |a|
  {
    if a == {} {
      assert b - a == b;
    } else {
      var x :| x in a;
      SubsetCard(a - {x}, b - {x});
      assert (b - {x}) - (a - {x}) == b - a;
    }
  }

  /** A map that is one-to-one on a set has an image of the same size. */
  lemma {:induction false} ImageCard<A, B>(from: set<A>, to: set<B>, f: map<A, B>)
    requires forall a :: a in from ==> a in f && f[a] in to
    requires forall b :: b in to ==> exists a :: a in from && f[a] == b
    requires forall a, a' :: a in from && a' in from && f[a] == f[a'] ==> a == a'
    ensures |from| == |to|
    decreases |from|
  {
    if from == {} {
      assert to == {};
    } else {
      var a :| a in from;
      var rest, left := from - {a}, to - {f[a]};
      forall b | b in left ensures exists a' :: a' in rest && f[a'] == b {
        var a' :| a' in from && f[a'] == b;
        assert a' in rest;
      }
      ImageCard(rest, left, f);
    }
  }
}
