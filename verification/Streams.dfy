/** Readers that deliver any bytes in any pieces and end in any way, as data. */
module Streams {
  import opened Base

  /** How a read ends: more may follow, the stream is over, or it broke. */
  datatype End = More | Eof | Broken(transient: bool)

  datatype Delivery = Delivery(bytes: Bytes, end: End)

  /** Everything a stream delivers, and how it ends. */
  function Total(script: seq<Delivery>): Delivery {
    if script == [] then Delivery([], Eof)
    else if script[0].end != More then script[0]
    else Onto(script[0].bytes, Total(script[1..]))
  }

  function Onto(bytes: Bytes, d: Delivery): Delivery {
    d.(bytes := bytes + d.bytes)
  }

  /** What is still to come after a read that ended so. */
  function Rest(end: End, left: seq<Delivery>): Delivery {
    if end == More then Total(left) else Delivery([], end)
  }

  lemma OntoOnto(a: Bytes, b: Bytes, d: Delivery)
    ensures Onto(a, Onto(b, d)) == Onto(a + b, d)
    ensures Onto([], d) == d
  {
    assert a + (b + d.bytes) == (a + b) + d.bytes;
    assert [] + d.bytes == d.bytes;
  }

  lemma {:induction false} TotalEnds(script: seq<Delivery>)
    ensures Total(script).end != More
    decreases |script|
  {
    if script != [] {
      TotalEnds(script[1..]);
    }
  }

  const COPY_BUFFER_SIZE: nat := 1_048_576

  function Least(a: nat, b: nat): nat {
    if a <= b then a else b
  }

  datatype Got = Got(bytes: Bytes, end: End, left: seq<Delivery>)

  /** One read of at most limit bytes; what does not fit is kept for the next read. A stream that is over
      stays over. */
  function ReadOnce(left: seq<Delivery>, limit: nat): Got {
    if left == [] then Got([], Eof, [])
    else if |left[0].bytes| <= limit then
      Got(left[0].bytes, left[0].end, if left[0].end == Eof then [] else left[1..])
    else
      Got(left[0].bytes[..limit], More, [Delivery(left[0].bytes[limit..], left[0].end)] + left[1..])
  }

  lemma WholeIsOnto(left: seq<Delivery>)
    ensures left == [] ==> Total(left) == Onto([], Rest(Eof, []))
    ensures left != [] ==> Total(left) == Onto(left[0].bytes, Rest(left[0].end, left[1..]))
  {
    if left != [] && left[0].end != More {
      assert left[0].bytes + [] == left[0].bytes;
    }
  }

  /** Reading piece by piece delivers the whole. */
  lemma ReadOnceKeepsTotal(left: seq<Delivery>, limit: nat)
    ensures
      var g := ReadOnce(left, limit);
      && |g.bytes| <= limit && (g.end == Eof ==> g.left == [])
      && Total(left) == Onto(g.bytes, Rest(g.end, g.left))
      && (|g.left| < |left| || (g.end == More && |g.left| == |left| && |g.bytes| == limit) || (g.end == Eof && g.left == []))
  {
    if left != [] && |left[0].bytes| > limit {
      var c := left[0];
      OntoOnto(c.bytes[..limit], c.bytes[limit..], Rest(c.end, left[1..]));
      assert c.bytes == c.bytes[..limit] + c.bytes[limit..];
    }
    WholeIsOnto(left);
  }

  class Body {
    var left: seq<Delivery>

    constructor (script: seq<Delivery>)
      ensures left == script
    {
      left := script;
    }

    method Read(limit: nat) returns (bytes: Bytes, end: End)
      modifies this
      ensures Got(bytes, end, left) == ReadOnce(old(left), limit)
      ensures |bytes| <= limit && (end == Eof ==> left == [])
      ensures Total(old(left)) == Onto(bytes, Rest(end, left))
      ensures |left| < |old(left)| || (end == More && |left| == |old(left)| && |bytes| == limit) || (end == Eof && left == [])
    {
      ReadOnceKeepsTotal(left, limit);
      var g := ReadOnce(left, limit);
      bytes, end, left := g.bytes, g.end, g.left;
    }
  }
}
