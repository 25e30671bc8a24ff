/** Types every module shares: Go's int64, bytes, digests and the result shapes. */
module Base {
  /** Go's int64. Dafny proves that no arithmetic on it leaves the range. */
  newtype int64 = x: int | -0x8000_0000_0000_0000 <= x < 0x8000_0000_0000_0000

  const MAX_INT64: int := 0x7fff_ffff_ffff_ffff

  /** What int64 makes of n. */
  function Wrapped(n: int): (w: int64)
    ensures -MAX_INT64 - 1 <= n <= MAX_INT64 ==> w as int == n
  {
    ((n + MAX_INT64 + 1) % (2 * (MAX_INT64 + 1)) - MAX_INT64 - 1) as int64
  }

  /** Half of n as Go divides: rounded toward zero. */
  function HalfOf(n: int): (h: int)
    ensures 0 <= n ==> 0 <= 2 * h <= n <= 2 * h + 1
    ensures n < 0 ==> n <= 2 * h <= n + 1 <= 1
  {
    if n >= 0 then n / 2 else -((-n) / 2)
  }

  newtype byte = x: int | 0 <= x < 256

  type Bytes = seq<byte>

  /** A digest is the text "sha256:<hex>"; two digests are compared as text. */
  type Digest = string

  /** SHA-256 as an unknown total function. Nothing below assumes it has no collisions. */
  type Hash = Bytes -> Digest

  datatype Option<+T> = None | Some(value: T)

  datatype Result<+T, +E> = Ok(value: T) | Err(error: E)

  /** Two different byte strings with one digest. */
  ghost predicate Collision(hash: Hash, a: Bytes, b: Bytes) {
    a != b && hash(a) == hash(b)
  }

  /** A letter without its case, for ASCII. */
  function LowerChar(c: char): char {
    if 'A' <= c <= 'Z' then c + 32 as char else c
  }

  function Lower(s: string): (r: string)
    ensures |r| == |s|
  {
    seq(|s|, i requires 0 <= i < |s| => LowerChar(s[i]))
  }

  lemma PopKeepsRest(queue: seq<nat>, j: nat)
    requires j in queue && j != queue[0]
    ensures j in queue[1..]
  {
    assert queue == [queue[0]] + queue[1..];
  }
}
