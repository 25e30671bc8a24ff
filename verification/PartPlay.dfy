/** What a blob port's answers make of one part (internal/transfer/pull.go: attempt, stream, and the attempts of
    internal/retry/retry.go): which answers are asked for, from where, and how the fetch ends, as a function of
    the answers alone. PartFetch shows that the code does exactly this. */
module PartPlay {
  import opened Base
  import opened Streams
  import BlobRange

  /** What the blob port answers a read with. */
  datatype Answer = NoStream(transient: bool) | Stream(start: nat, body: seq<Delivery>)

  /** A port may answer anything; the adapter of internal/oci/blobs.go makes its answer of a response. */
  datatype Source = AnyPort(answer: Answer) | Adapter(resp: BlobRange.Response, transient: bool, body: seq<Delivery>)

  function AnswerTo(source: Source, from: nat): Answer
    requires from <= MAX_INT64
  {
    match source
    case AnyPort(answer) => answer
    case Adapter(resp, transient, body) =>
      match BlobRange.BlobReadStart(resp, from as int64)
      case Ok(start) => Stream(start as int, body)
      case Err(_) => NoStream(transient)
  }

  datatype Failure =
    | FetchFailed(tagged: bool)
    | UnusableOffset
    | ReadBroken(tagged: bool)
    | EndedEarly
    | TailUnread(tagged: bool)
    | TooLong
    | Mismatch
    | WriteFailed
    | ResumeUnread
    | Stopped

  /** Worth another attempt. A disk that will not take bytes never is, nor is wrong content. */
  predicate Transient(f: Failure) {
    match f
    case FetchFailed(tagged) => tagged
    case ReadBroken(tagged) => tagged
    case TailUnread(tagged) => tagged
    case EndedEarly => true
    case _ => false
  }

  /** Whether a body that breaks once the part is full is said to have broken before or after it depends on how
      its last bytes were cut, and nothing else does. */
  predicate Alike(f: Failure, g: Failure) {
    f == g || (f.ReadBroken? && g.TailUnread? && f.tagged == g.tagged)
  }

  /** What one request brings: the part, or a failure and the bytes that are held after it. */
  datatype Reply = Fetched | Short(why: Failure, held: Bytes)

  /** A body that delivers d where these bytes are kept. */
  ghost function BodyReply(hash: Hash, size: nat, digest: Digest, kept: Bytes, d: Delivery): (r: Reply)
    ensures r.Short? && Transient(r.why) ==> |r.held| <= size
  {
    var all := kept + d.bytes;
    if |all| > size then Short(TooLong, [])
    else if d.end.Broken? then Short(ReadBroken(d.end.transient), all)
    else if |all| < size then Short(EndedEarly, all)
    else if hash(all) != digest then Short(Mismatch, [])
    else Fetched
  }

  /** A part that has all its bytes is asked for whole. */
  function AskFrom(size: nat, held: nat): nat {
    if held == size then 0 else held
  }

  /** A stream is placed where it starts, when that is the beginning of the part or where it was asked to. */
  ghost function StreamReply(hash: Hash, size: nat, digest: Digest, held: Bytes, from: nat, start: nat, d: Delivery): (r: Reply)
    ensures r.Short? && Transient(r.why) ==> |r.held| <= size
  {
    if start != 0 && start != from then Short(UnusableOffset, [])
    else BodyReply(hash, size, digest, if start == 0 then [] else held, d)
  }

  ghost function ReplyTo(hash: Hash, size: nat, digest: Digest, held: Bytes, source: Source): (r: Reply)
    requires |held| <= size <= MAX_INT64
    ensures r.Short? && Transient(r.why) ==> |r.held| <= size
  {
    var from := AskFrom(size, |held|);
    match AnswerTo(source, from)
    case NoStream(transient) => Short(FetchFailed(transient), if from == 0 then [] else held)
    case Stream(start, body) => StreamReply(hash, size, digest, held, from, start, Total(body))
  }

  ghost function NextReply(hash: Hash, size: nat, digest: Digest, held: Bytes, sources: seq<Source>): (r: Reply)
    requires |held| <= size <= MAX_INT64
    ensures r.Short? && Transient(r.why) ==> |r.held| <= size
  {
    if sources == [] then Short(FetchFailed(false), []) else ReplyTo(hash, size, digest, held, sources[0])
  }

  /** How a fetch ends, and the offset of each request it makes. */
  datatype Played = Played(failed: Option<Failure>, asked: seq<nat>)

  /** A fetch that holds these bytes, has made done attempts and may make left more. stopped says before which
      attempts the context has ended. */
  ghost function Plays(
    hash: Hash, size: nat, digest: Digest, held: Bytes, sources: seq<Source>, stopped: nat -> bool, done: nat, left: nat): Played
    requires |held| <= size <= MAX_INT64 && left > 0
    decreases left
  {
    if stopped(done) then Played(Some(Stopped), [])
    else
      var reply := NextReply(hash, size, digest, held, sources);
      var from := AskFrom(size, |held|);
      if reply.Fetched? then Played(None, [from])
      else if !Transient(reply.why) || left == 1 then Played(Some(reply.why), [from])
      else
        var rest := Plays(hash, size, digest, reply.held, sources[Least(1, |sources|)..], stopped, done + 1, left - 1);
        rest.(asked := [from] + rest.asked)
  }

  /** Every request starts inside the part, none is made once the context has ended or past the policy, the
      context is blamed only when it has ended, and a failure worth repeating ends the fetch only when the attempts
      are used up. */
  ghost predicate InPolicy(play: Played, size: nat, stopped: nat -> bool, done: nat, left: nat) {
    && |play.asked| <= left
    && (forall k :: 0 <= k < |play.asked| ==> AskedAt(play.asked[k], size, stopped, done + k))
    && (play.failed == Some(Stopped) ==> |play.asked| < left && stopped(done + |play.asked|))
    && (play.failed.Some? && Transient(play.failed.value) ==> |play.asked| == left)
  }

  ghost predicate AskedAt(from: nat, size: nat, stopped: nat -> bool, k: nat) {
    (from == 0 || from < size) && !stopped(k)
  }

  lemma InPolicyAfter(rest: Played, from: nat, size: nat, stopped: nat -> bool, done: nat, left: nat)
    requires left > 1 && InPolicy(rest, size, stopped, done + 1, left - 1) && AskedAt(from, size, stopped, done)
    ensures InPolicy(rest.(asked := [from] + rest.asked), size, stopped, done, left)
  {
    var all := [from] + rest.asked;
    forall k | 0 <= k < |all| ensures AskedAt(all[k], size, stopped, done + k) {
      assert k > 0 ==> AskedAt(rest.asked[k - 1], size, stopped, done + 1 + (k - 1));
    }
  }

  lemma {:induction false} PlaysInPolicy(
    hash: Hash, size: nat, digest: Digest, held: Bytes, sources: seq<Source>, stopped: nat -> bool, done: nat, left: nat)
    requires |held| <= size <= MAX_INT64 && left > 0
    ensures InPolicy(Plays(hash, size, digest, held, sources, stopped, done, left), size, stopped, done, left)
    decreases left
  {
    var reply := NextReply(hash, size, digest, held, sources);
    if !stopped(done) && reply.Short? && Transient(reply.why) && left > 1 {
      var after := sources[Least(1, |sources|)..];
      PlaysInPolicy(hash, size, digest, reply.held, after, stopped, done + 1, left - 1);
      var rest := Plays(hash, size, digest, reply.held, after, stopped, done + 1, left - 1);
      InPolicyAfter(rest, AskFrom(size, |held|), size, stopped, done, left);
    }
  }

  // ---- what that means for a registry that serves the part ----

  /** Wherever it is asked to start, this answer brings some of the part from there or from its beginning and then
      breaks or ends, or brings nothing but a failure that is worth repeating. */
  ghost predicate Honest(content: Bytes, source: Source)
    requires |content| <= MAX_INT64
  {
    forall from: nat :: from <= |content| ==>
      match AnswerTo(source, from)
      case NoStream(transient) => transient
      case Stream(start, body) =>
        && (start == 0 || start == from)
        && Total(body).bytes <= content[start..]
        && (Total(body).end.Broken? ==> Total(body).end.transient)
  }

  /** And this one brings all of it. */
  ghost predicate Serves(content: Bytes, source: Source)
    requires |content| <= MAX_INT64
  {
    forall from: nat :: from <= |content| ==>
      var a := AnswerTo(source, from);
      a.Stream? && (a.start == 0 || a.start == from) && Total(a.body) == Delivery(content[a.start..], Eof)
  }

  /** Held bytes stay the beginning of the part, and the part that ends up whole is the part. */
  lemma HonestReply(hash: Hash, content: Bytes, held: Bytes, source: Source)
    requires |content| <= MAX_INT64 && held <= content && Honest(content, source)
    ensures
      var reply := ReplyTo(hash, |content|, hash(content), held, source);
      reply.Fetched? || (Transient(reply.why) && reply.held <= content)
  {
    var from := AskFrom(|content|, |held|);
    var a := AnswerTo(source, from);
    if a.Stream? {
      TotalEnds(a.body);
      var kept := if a.start == 0 then [] else held;
      var all := kept + Total(a.body).bytes;
      assert kept == content[..a.start];
      PrefixJoins(content, a.start, Total(a.body).bytes);
    }
  }

  lemma PrefixJoins(content: Bytes, at: nat, more: Bytes)
    requires at <= |content| && more <= content[at..]
    ensures content[..at] + more <= content
    ensures |more| == |content| - at ==> content[..at] + more == content
  {
    var all := content[..at] + more;
    forall k | 0 <= k < |all| ensures all[k] == content[k] {
      if at <= k {
        assert more[k - at] == content[at..][k - at];
      }
    }
  }

  lemma ServedReply(hash: Hash, content: Bytes, held: Bytes, source: Source)
    requires |content| <= MAX_INT64 && held <= content && Serves(content, source)
    ensures ReplyTo(hash, |content|, hash(content), held, source).Fetched?
  {
    var from := AskFrom(|content|, |held|);
    var a := AnswerTo(source, from);
    assert (if a.start == 0 then [] else held) == content[..a.start];
    assert content[..a.start] + content[a.start..] == content;
  }

  /** As long as one of the answers within the policy serves the part and those before it are honest, the part is
      fetched, however often and wherever the others broke. */
  lemma {:induction false} HonestPortIsFetched(
    hash: Hash, content: Bytes, held: Bytes, sources: seq<Source>, stopped: nat -> bool, done: nat, left: nat, k: nat)
    requires |content| <= MAX_INT64 && held <= content && k < left && k < |sources|
    requires Serves(content, sources[k]) && forall j :: 0 <= j < k ==> Honest(content, sources[j])
    requires forall j: nat :: done <= j <= done + k ==> !stopped(j)
    ensures
      var play := Plays(hash, |content|, hash(content), held, sources, stopped, done, left);
      play.failed.None? && 1 <= |play.asked| <= k + 1
    decreases k
  {
    if k == 0 {
      ServedReply(hash, content, held, sources[0]);
    } else {
      HonestReply(hash, content, held, sources[0]);
      var reply := ReplyTo(hash, |content|, hash(content), held, sources[0]);
      if reply.Short? {
        assert sources[1..][k - 1] == sources[k];
        HonestPortIsFetched(hash, content, reply.held, sources[1..], stopped, done + 1, left - 1, k - 1);
      }
    }
  }

  /** Continued, not started over: while the port breaks after so many bytes each time, the next request starts
      where the bytes before it end. */
  ghost predicate BreaksAfter(content: Bytes, source: Source, at: nat, more: nat)
    requires at <= |content| <= MAX_INT64
  {
    var a := AnswerTo(source, at);
    && at + more < |content|
    && a.Stream? && a.start == at && Total(a.body) == Delivery(content[at..at + more], Broken(true))
  }

  lemma BrokenIsContinued(
    hash: Hash, content: Bytes, held: Bytes, sources: seq<Source>, stopped: nat -> bool, done: nat, left: nat, more: nat)
    requires |content| <= MAX_INT64 && held <= content && |held| < |content| && left > 1 && sources != []
    requires BreaksAfter(content, sources[0], |held|, more) && !stopped(done)
    ensures
      var play := Plays(hash, |content|, hash(content), held, sources, stopped, done, left);
      var rest := Plays(hash, |content|, hash(content), content[..|held| + more], sources[1..], stopped, done + 1, left - 1);
      && play.failed == rest.failed && play.asked == [|held|] + rest.asked
      && (!stopped(done + 1) ==> rest.asked != [] && rest.asked[0] == |held| + more)
  {
    var a := AnswerTo(sources[0], |held|);
    assert (if a.start == 0 then [] else held) == held;
    assert held + content[|held|..|held| + more] == content[..|held| + more];
  }

  /** What no further answer can mend ends the fetch at once: a failure that is not worth repeating, a stream that
      starts elsewhere, more bytes than the part has, or all of them and the wrong ones. */
  ghost predicate Hopeless(hash: Hash, size: nat, digest: Digest, held: Bytes, source: Source)
    requires |held| <= size <= MAX_INT64
  {
    var from := if |held| == size then 0 else |held|;
    match AnswerTo(source, from)
    case NoStream(transient) => !transient
    case Stream(start, body) =>
      var d := Total(body);
      || (start != 0 && start != from)
      || (d.end.Broken? && !d.end.transient)
      || start + |d.bytes| > size
      || (start + |d.bytes| == size && d.end == Eof && hash(held[..start] + d.bytes) != digest)
  }

  lemma HopelessEndsIt(
    hash: Hash, size: nat, digest: Digest, held: Bytes, sources: seq<Source>, stopped: nat -> bool, done: nat, left: nat)
    requires |held| <= size <= MAX_INT64 && left > 1 && sources != [] && !stopped(done)
    ensures
      var play := Plays(hash, size, digest, held, sources, stopped, done, left);
      Hopeless(hash, size, digest, held, sources[0]) <==>
        play.failed.Some? && !Transient(play.failed.value) && play.failed != Some(Stopped) && |play.asked| == 1
  {
    var a := AnswerTo(sources[0], AskFrom(size, |held|));
    if a.Stream? {
      TotalEnds(a.body);
      assert a.start == |held| ==> held[..a.start] == held;
    }
    var reply := ReplyTo(hash, size, digest, held, sources[0]);
    if reply.Short? && Transient(reply.why) {
      AsksAgain(hash, size, digest, reply.held, sources[1..], stopped, done + 1, left - 1);
    }
  }

  lemma AsksAgain(
    hash: Hash, size: nat, digest: Digest, held: Bytes, sources: seq<Source>, stopped: nat -> bool, done: nat, left: nat)
    requires |held| <= size <= MAX_INT64 && left > 0
    ensures
      var play := Plays(hash, size, digest, held, sources, stopped, done, left);
      if stopped(done) then play == Played(Some(Stopped), [])
      else play.asked != [] && play.asked[0] == AskFrom(size, |held|)
  {
  }
}
