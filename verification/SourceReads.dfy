/** The reader an upload streams a part from, which checks the part's digest as it goes
    (tagSourceReads in internal/transfer/push.go), and a transport that reads it. */
module SourceReads {
  import opened Base
  import opened Streams

  /** Passing and AtEof hand the source's own answer on; the others are the tagged source errors. */
  datatype TagEnd = Passing | AtEof | SourceBroke | SourceChanged

  /** What the reader is made for: the digest the hash pass recorded, and the size the upload declared. */
  datatype Expected = Expected(hash: Hash, digest: Digest, size: nat)

  datatype Reader = Reader(left: seq<Delivery>, hasher: Bytes, read: nat)

  datatype Handed = Handed(reader: Reader, bytes: Bytes, end: TagEnd)

  /** One Read. The completing chunk is withheld when the bytes do not match. */
  function ReadTagged(x: Expected, r: Reader, limit: nat): Handed {
    var g := ReadOnce(r.left, limit);
    var after := Reader(g.left, r.hasher + g.bytes, r.read + |g.bytes|);
    if g.end.Broken? then Handed(after, g.bytes, SourceBroke)
    else if after.read < x.size then Handed(after, g.bytes, if g.end == Eof then SourceChanged else Passing)
    else if x.hash(after.hasher) != x.digest then Handed(after, [], SourceChanged)
    else Handed(after, g.bytes, if g.end == Eof then AtEof else Passing)
  }

  class TagSourceReads {
    const want: Expected
    const source: Body
    var hasher: Bytes
    var read: nat

    ghost function State(): Reader
      reads this, source
    {
      Reader(source.left, hasher, read)
    }

    constructor (want: Expected, source: Body)
      ensures this.want == want && this.source == source && State() == Reader(source.left, [], 0)
    {
      this.want, this.source, hasher, read := want, source, [], 0;
    }

    method Read(limit: nat) returns (bytes: Bytes, end: TagEnd)
      modifies this, source
      ensures Handed(State(), bytes, end) == ReadTagged(want, old(State()), limit)
    {
      var got, how := source.Read(limit);
      assert hasher + [] == hasher;
      if |got| > 0 {
        hasher := hasher + got;
        read := read + |got|;
      }
      if how.Broken? {
        return got, SourceBroke;
      }
      if read < want.size {
        if how == Eof {
          return got, SourceChanged;
        }
        return got, Passing;
      }
      if want.hash(hasher) != want.digest {
        return [], SourceChanged;
      }
      return got, if how == Eof then AtEof else Passing;
    }
  }

  // ---- a transport that declared the size ----

  /** What a transport has taken when it stops, and how its last read ended. full says that some broken
      read delivered everything it was asked for, which a source does not do. */
  datatype Sent = Sent(bytes: Bytes, end: TagEnd, full: bool)

  /** A transport reads with any buffer sizes until it has the declared size, or a read fails, or the
      stream ends, or it gives up because limits has run out. */
  function Send(x: Expected, r: Reader, sent: Bytes, limits: seq<nat>): Sent
    decreases |limits|
  {
    if limits == [] || |sent| >= x.size then Sent(sent, Passing, false)
    else
      var limit := Least(limits[0], x.size - |sent|);
      var h := ReadTagged(x, r, limit);
      if h.end != Passing then Sent(sent + h.bytes, h.end, h.end == SourceBroke && |h.bytes| == limit)
      else Send(x, h.reader, sent + h.bytes, limits[1..])
  }

  /** The hasher has taken exactly what the transport has. */
  predicate InStep(r: Reader, sent: Bytes) {
    r.hasher == sent && r.read == |sent|
  }

  /** A transport that has taken every declared byte has taken bytes that hash to the digest, unless the
      read that completed them also broke and had still delivered all it was asked for. */
  lemma {:induction false} AllSentIsWhatWasHashed(x: Expected, r: Reader, sent: Bytes, limits: seq<nat>)
    requires InStep(r, sent) && |sent| <= x.size && (|sent| == x.size ==> x.hash(sent) == x.digest)
    ensures
      var s := Send(x, r, sent, limits);
      && |s.bytes| <= x.size
      && (|s.bytes| == x.size ==> x.hash(s.bytes) == x.digest || (s.end == SourceBroke && s.full))
    decreases |limits|
  {
    if limits != [] && |sent| < x.size {
      var limit := Least(limits[0], x.size - |sent|);
      ReadOnceKeepsTotal(r.left, limit);
      var h := ReadTagged(x, r, limit);
      if h.end == Passing {
        AllSentIsWhatWasHashed(x, h.reader, sent + h.bytes, limits[1..]);
      }
    }
  }

  /** One read hands on the next bytes of the source, and leaves the rest. */
  lemma ReadTakesNext(x: Expected, r: Reader, limit: nat)
    ensures
      var h := ReadTagged(x, r, limit);
      && h.bytes <= Total(r.left).bytes
      && (h.end == Passing ==> h.bytes + Total(h.reader.left).bytes <= Total(r.left).bytes)
  {
    ReadOnceKeepsTotal(r.left, limit);
    var g := ReadOnce(r.left, limit);
    assert g.bytes <= g.bytes + Rest(g.end, g.left).bytes;
  }

  /** With bytes next and then left, what a transport that had sent ends up with is a prefix of it all. */
  lemma PrefixGrows(sent: Bytes, bytes: Bytes, left: Bytes, all: Bytes, taken: Bytes)
    requires bytes + left <= all && sent + bytes <= taken <= sent + bytes + left
    ensures sent <= taken <= sent + all
  {
    assert sent + bytes + left == sent + (bytes + left);
  }

  /** What the transport takes is the source's bytes, in order. */
  lemma {:induction false} SentIsPrefix(x: Expected, r: Reader, sent: Bytes, limits: seq<nat>)
    requires InStep(r, sent)
    ensures
      var s := Send(x, r, sent, limits);
      sent <= s.bytes && s.bytes <= sent + Total(r.left).bytes
    decreases |limits|
  {
    if limits != [] && |sent| < x.size {
      var limit := Least(limits[0], x.size - |sent|);
      var h := ReadTagged(x, r, limit);
      ReadTakesNext(x, r, limit);
      if h.end == Passing {
        SentIsPrefix(x, h.reader, sent + h.bytes, limits[1..]);
        var taken := Send(x, h.reader, sent + h.bytes, limits[1..]).bytes;
        PrefixGrows(sent, h.bytes, Total(h.reader.left).bytes, Total(r.left).bytes, taken);
      } else {
        assert h.bytes + [] == h.bytes && sent + h.bytes + [] == sent + h.bytes;
        PrefixGrows(sent, h.bytes, [], Total(r.left).bytes, sent + h.bytes);
      }
    }
  }

  // ---- exactly when bytes of another digest complete an upload ----

  /** The transport has taken every declared byte, and they do not hash to the digest. */
  predicate TookWrong(x: Expected, r: Reader, sent: Bytes, limits: seq<nat>) {
    var s := Send(x, r, sent, limits);
    |s.bytes| == x.size && x.hash(s.bytes) != x.digest
  }

  /** The delivery that ends the stream carries bytes. */
  predicate EndsWithBytes(script: seq<Delivery>) {
    script != [] && if script[0].end != More then script[0].bytes != [] else EndsWithBytes(script[1..])
  }

  /** What is left of the source lets a mismatch through: it breaks in a read that carries bytes, that
      read completes the declared size, and the bytes hash to something else. When nothing is left to be
      declared, no read is made and no digest compared. */
  predicate LetsThrough(x: Expected, left: seq<Delivery>, sent: Bytes) {
    var all := sent + Total(left).bytes;
    if |sent| == x.size then x.hash(sent) != x.digest
    else Total(left).end.Broken? && EndsWithBytes(left) && |all| == x.size && x.hash(all) != x.digest
  }

  /** After one read of a stream that goes on, what is left lets through what the whole did. */
  lemma ReadKeepsLetting(x: Expected, left: seq<Delivery>, limit: nat, sent: Bytes)
    requires ReadOnce(left, limit).end == More && |sent| < x.size && |sent + ReadOnce(left, limit).bytes| < x.size
    ensures
      var g := ReadOnce(left, limit);
      LetsThrough(x, left, sent) <==> LetsThrough(x, g.left, sent + g.bytes)
  {
    var g := ReadOnce(left, limit);
    ReadOnceKeepsTotal(left, limit);
    OntoOnto(sent, g.bytes, Total(g.left));
    assert sent + (g.bytes + Total(g.left).bytes) == (sent + g.bytes) + Total(g.left).bytes;
  }

  lemma {:induction false} WrongWasLetThrough(x: Expected, r: Reader, sent: Bytes, limits: seq<nat>)
    requires InStep(r, sent) && |sent| <= x.size && TookWrong(x, r, sent, limits)
    ensures LetsThrough(x, r.left, sent)
    decreases |limits|
  {
    if limits != [] && |sent| < x.size {
      var limit := Least(limits[0], x.size - |sent|);
      ReadOnceKeepsTotal(r.left, limit);
      var h := ReadTagged(x, r, limit);
      if h.end == Passing {
        WrongWasLetThrough(x, h.reader, sent + h.bytes, limits[1..]);
        PassingGoesOn(x, r, limit, sent);
      }
    }
  }

  /** A read that passes was neither broken nor the end, or it completed bytes of the right digest. */
  lemma PassingGoesOn(x: Expected, r: Reader, limit: nat, sent: Bytes)
    requires InStep(r, sent) && |sent| < x.size && limit <= x.size - |sent|
    requires ReadTagged(x, r, limit).end == Passing
    requires LetsThrough(x, ReadTagged(x, r, limit).reader.left, sent + ReadTagged(x, r, limit).bytes)
    ensures LetsThrough(x, r.left, sent)
  {
    var g := ReadOnce(r.left, limit);
    if |sent + g.bytes| < x.size {
      ReadKeepsLetting(x, r.left, limit, sent);
    }
  }

  /** A transport that always offers room for the whole size takes it. */
  lemma {:induction false} WrongIsTaken(x: Expected, r: Reader, sent: Bytes) returns (limits: seq<nat>)
    requires InStep(r, sent) && |sent| <= x.size && LetsThrough(x, r.left, sent)
    ensures TookWrong(x, r, sent, limits)
    decreases |r.left|
  {
    if |sent| == x.size {
      limits := [];
    } else {
      var limit := x.size - |sent|;
      var first := r.left[0];
      WholeIsOnto(r.left);
      assert |first.bytes| <= limit;
      assert ReadOnce(r.left, limit).bytes == first.bytes;
      if first.end == More {
        var h := ReadTagged(x, r, limit);
        ShortOfTheEnd(x, r.left, sent);
        ReadKeepsLetting(x, r.left, limit, sent);
        var rest := WrongIsTaken(x, h.reader, sent + h.bytes);
        limits := [x.size] + rest;
        assert limits[1..] == rest;
      } else {
        limits := [x.size];
      }
    }
  }

  /** When the last delivery carries bytes, none before it completes the size. */
  lemma ShortOfTheEnd(x: Expected, left: seq<Delivery>, sent: Bytes)
    requires |sent| < x.size && LetsThrough(x, left, sent) && left[0].end == More
    ensures |sent + left[0].bytes| < x.size
  {
    LastHasBytes(left[1..]);
  }

  lemma {:induction false} LastHasBytes(script: seq<Delivery>)
    requires EndsWithBytes(script)
    ensures Total(script).bytes != []
    decreases |script|
  {
    if script[0].end == More {
      LastHasBytes(script[1..]);
    }
  }

  /** For every source: some transport completes an upload of bytes that do not hash to the digest exactly
      when the source breaks in a read that still carries bytes, with the declared size then complete. An
      empty part is sent without a read, so for it only its own digest decides. */
  lemma MismatchIsSentExactly(x: Expected, script: seq<Delivery>)
    ensures
      (exists limits :: TookWrong(x, Reader(script, [], 0), [], limits)) <==>
      if x.size == 0 then x.hash([]) != x.digest
      else
        var all := Total(script);
        all.end.Broken? && EndsWithBytes(script) && |all.bytes| == x.size && x.hash(all.bytes) != x.digest
  {
    var r := Reader(script, [], 0);
    assert [] + Total(script).bytes == Total(script).bytes;
    if limits :| TookWrong(x, r, [], limits) {
      WrongWasLetThrough(x, r, [], limits);
    }
    if LetsThrough(x, script, []) {
      var limits := WrongIsTaken(x, r, []);
    }
  }

  /** One such source: its range comes whole with an error, and no longer hashes to the digest. */
  lemma BrokenFullReadEscapes(x: Expected, bytes: Bytes)
    requires x.size == |bytes| > 0 && x.hash(bytes) != x.digest
    ensures TookWrong(x, Reader([Delivery(bytes, Broken(false))], [], 0), [], [x.size])
  {
    assert [] + bytes == bytes;
  }

  /** A source that breaks leaves its range short: the part of a reader's contract the code relies on. */
  predicate BreaksShort(script: seq<Delivery>, size: nat) {
    Total(script).end.Broken? ==> |Total(script).bytes| < size
  }

  /** From such a source, an upload that completes has sent bytes that hash to the digest, whatever buffers
      the transport used: a source that changed under the push is never uploaded under the old digest. */
  lemma ChangedSourceIsNeverSent(x: Expected, script: seq<Delivery>, limits: seq<nat>)
    requires BreaksShort(script, x.size) && (x.size == 0 ==> x.hash([]) == x.digest)
    ensures
      var s := Send(x, Reader(script, [], 0), [], limits);
      |s.bytes| == x.size ==> x.hash(s.bytes) == x.digest
  {
    MismatchIsSentExactly(x, script);
    assert !TookWrong(x, Reader(script, [], 0), [], limits);
  }

  /** A range that still holds what the hash pass read is never refused, however it is cut into reads. */
  lemma {:induction false} UnchangedIsNeverRefused(x: Expected, r: Reader, sent: Bytes, limits: seq<nat>)
    requires InStep(r, sent) && !Total(r.left).end.Broken?
    requires |sent + Total(r.left).bytes| == x.size && x.hash(sent + Total(r.left).bytes) == x.digest
    ensures Send(x, r, sent, limits).end == Passing || Send(x, r, sent, limits).end == AtEof
    decreases |limits|
  {
    if limits != [] && |sent| < x.size {
      var limit := Least(limits[0], x.size - |sent|);
      ReadOnceKeepsTotal(r.left, limit);
      var g := ReadOnce(r.left, limit);
      var h := ReadTagged(x, r, limit);
      OntoOnto(sent, g.bytes, Rest(g.end, g.left));
      assert |sent + g.bytes| == x.size && g.end == More ==> sent + g.bytes == sent + g.bytes + Total(g.left).bytes;
      if h.end == Passing {
        UnchangedIsNeverRefused(x, h.reader, sent + h.bytes, limits[1..]);
      }
    }
  }

  /** How a transport that is stopped is stopped, when the range holds no more than was declared: a source that ends
      or whose bytes do not hash to the digest has changed, one that breaks on the way has broken, and only an
      unchanged one is over. */
  lemma {:induction false} WhatStopsATransport(x: Expected, r: Reader, sent: Bytes, limits: seq<nat>)
    requires InStep(r, sent) && |sent + Total(r.left).bytes| <= x.size
    requires |sent + Total(r.left).bytes| == x.size ==> Total(r.left).end == Eof
    ensures
      var all, end := sent + Total(r.left).bytes, Send(x, r, sent, limits).end;
      || end == Passing
      || end == if |all| < x.size && Total(r.left).end.Broken? then SourceBroke
                else if |all| == x.size && x.hash(all) == x.digest then AtEof
                else SourceChanged
    decreases |limits|
  {
    TotalEnds(r.left);
    if limits != [] && |sent| < x.size {
      var limit := Least(limits[0], x.size - |sent|);
      ReadOnceKeepsTotal(r.left, limit);
      var g := ReadOnce(r.left, limit);
      OntoOnto(sent, g.bytes, Rest(g.end, g.left));
      assert sent + (g.bytes + Rest(g.end, g.left).bytes) == sent + g.bytes + Rest(g.end, g.left).bytes;
      if g.end == More {
        TotalEnds(g.left);
      }
      if ReadTagged(x, r, limit).end == Passing {
        WhatStopsATransport(x, ReadTagged(x, r, limit).reader, sent + g.bytes, limits[1..]);
      } else {
        StoppedHere(x, r, sent, limit);
      }
    }
  }

  lemma StoppedHere(x: Expected, r: Reader, sent: Bytes, limit: nat)
    requires InStep(r, sent) && ReadTagged(x, r, limit).end != Passing
    requires |sent + Total(r.left).bytes| <= x.size
    requires |sent + Total(r.left).bytes| == x.size ==> Total(r.left).end == Eof
    ensures
      var all := sent + Total(r.left).bytes;
      ReadTagged(x, r, limit).end ==
      if |all| < x.size && Total(r.left).end.Broken? then SourceBroke
      else if |all| == x.size && x.hash(all) == x.digest then AtEof
      else SourceChanged
  {
    ReadOnceKeepsTotal(r.left, limit);
    var g := ReadOnce(r.left, limit);
    var all := sent + Total(r.left).bytes;
    assert all == (sent + g.bytes) + Rest(g.end, g.left).bytes;
    if |sent + g.bytes| == x.size {
      assert all == sent + g.bytes;
    }
  }
}
