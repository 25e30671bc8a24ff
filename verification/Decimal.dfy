/** Base-10 text of int64 values: strconv.FormatInt(n, 10) and strconv.ParseInt(s, 10, 64). */
module Decimal {
  import opened Base

  function DigitChar(d: nat): (c: char)
    requires d < 10
    ensures '0' <= c <= '9' && DigitValue(c) == d
  {
    '0' + d as char
  }

  function DigitValue(c: char): nat
    requires '0' <= c <= '9'
  {
    (c - '0') as nat
  }

  predicate IsDigit(c: char) {
    '0' <= c <= '9'
  }

  predicate AllDigits(s: string) {
    forall i :: 0 <= i < |s| ==> IsDigit(s[i])
  }

  function FormatNat(n: nat): (s: string)
    ensures s != [] && AllDigits(s)
  {
    if n < 10 then [DigitChar(n)] else FormatNat(n / 10) + [DigitChar(n % 10)]
  }

  function FormatInt(n: int64): (s: string)
    ensures s != []
  {
    if n < 0 then "-" + FormatNat(-(n as int)) else FormatNat(n as int)
  }

  /** The value a run of digits spells. */
  function NatValue(s: string): nat
    requires AllDigits(s)
  {
    if s == [] then 0 else NatValue(s[..|s| - 1]) * 10 + DigitValue(s[|s| - 1])
  }

  /** An optional sign, at least one digit, nothing else, and a value that fits. */
  function ParseInt(s: string): (r: Option<int64>)
  {
    var signed := s != [] && (s[0] == '+' || s[0] == '-');
    var digits := if signed then s[1..] else s;
    if digits == [] || !AllDigits(digits) then None
    else
      var magnitude: int := NatValue(digits);
      var value := if s[0] == '-' then -magnitude else magnitude;
      if -MAX_INT64 - 1 <= value <= MAX_INT64 then Some(value as int64) else None
  }

  lemma {:induction false} NatRoundTrip(n: nat)
    ensures NatValue(FormatNat(n)) == n
  {
    var s := FormatNat(n);
    if n >= 10 {
      NatRoundTrip(n / 10);
      assert s[..|s| - 1] == FormatNat(n / 10);
    } else {
      assert s[..0] == [];
    }
  }

  /** What FormatInt writes, ParseInt reads back. */
  lemma RoundTrip(n: int64)
    ensures ParseInt(FormatInt(n)) == Some(n)
  {
    var m: nat := if n < 0 then -(n as int) else n as int;
    NatRoundTrip(m);
    var s := FormatInt(n);
    if n < 0 {
      assert s[1..] == FormatNat(m);
    } else {
      assert IsDigit(s[0]);
    }
  }

  function Zeros(n: nat): (s: string)
    ensures |s| == n && AllDigits(s)
  {
    if n == 0 then "" else Zeros(n - 1) + "0"
  }

  lemma {:induction false} ZerosValue(z: nat, digits: string)
    requires AllDigits(digits)
    ensures AllDigits(Zeros(z) + digits) && NatValue(Zeros(z) + digits) == NatValue(digits)
    decreases |digits|, z
  {
    var s := Zeros(z) + digits;
    if digits != "" {
      assert s[..|s| - 1] == Zeros(z) + digits[..|digits| - 1];
      ZerosValue(z, digits[..|digits| - 1]);
    } else if z > 0 {
      assert s == Zeros(z - 1) + "0" && s[..|s| - 1] == Zeros(z - 1) + "";
      ZerosValue(z - 1, "");
    }
  }

  /** A run of digits is its value written without leading zeros, behind so many of them. */
  lemma {:induction false} DigitsAre(s: string) returns (z: nat)
    requires s != "" && AllDigits(s)
    ensures s == Zeros(z) + FormatNat(NatValue(s))
    decreases |s|
  {
    var front, last := s[..|s| - 1], s[|s| - 1];
    assert s == front + [last] && DigitChar(DigitValue(last)) == last;
    if front == "" {
      assert NatValue(front) == 0;
      z := 0;
    } else {
      z := DigitsAre(front);
      if NatValue(front) == 0 {
        assert FormatNat(0) == "0" && Zeros(z + 1) == Zeros(z) + "0";
        z := z + 1;
      } else {
        assert FormatNat(NatValue(s)) == FormatNat(NatValue(front)) + [last];
        assert Zeros(z) + (FormatNat(NatValue(front)) + [last]) == Zeros(z) + FormatNat(NatValue(front)) + [last];
      }
    }
  }

  /** A spelling of n: an optional sign, any leading zeros, and its digits. */
  predicate Spells(s: string, n: int64, sign: string, z: nat) {
    && sign in {"", "+", "-"} && (n < 0 ==> sign == "-") && (n > 0 ==> sign != "-")
    && s == sign + (Zeros(z) + FormatNat(if n < 0 then -(n as int) else n as int))
  }

  /** A number is read off its spellings and off nothing else. */
  lemma ParseReadsSpellings(s: string, n: int64)
    ensures ParseInt(s) == Some(n) <==> exists sign, z :: Spells(s, n, sign, z)
  {
    if sign, z :| Spells(s, n, sign, z) {
      SpellingReads(s, n, sign, z);
    }
    if ParseInt(s) == Some(n) {
      ReadIsSpelled(s, n);
    }
  }

  lemma ReadIsSpelled(s: string, n: int64)
    requires ParseInt(s) == Some(n)
    ensures exists sign, z :: Spells(s, n, sign, z)
  {
    if s[0] == '+' || s[0] == '-' {
      var z := DigitsAre(s[1..]);
      assert s == [s[0]] + s[1..];
      assert NatValue(s[1..]) == if n < 0 then -(n as int) else n as int;
      assert Spells(s, n, [s[0]], z);
    } else {
      var z := DigitsAre(s);
      assert s == "" + s;
      assert Spells(s, n, "", z);
    }
  }

  lemma SpellingReads(s: string, n: int64, sign: string, z: nat)
    requires Spells(s, n, sign, z)
    ensures ParseInt(s) == Some(n)
  {
    var m: nat := if n < 0 then -(n as int) else n as int;
    var digits := Zeros(z) + FormatNat(m);
    ZerosValue(z, FormatNat(m));
    NatRoundTrip(m);
    if sign == "" {
      assert s == digits;
      PlainReads(digits, n);
    } else {
      SignedReads(sign[0], digits, n);
    }
  }

  lemma PlainReads(digits: string, n: int64)
    requires digits != "" && AllDigits(digits) && NatValue(digits) == n as int
    ensures ParseInt(digits) == Some(n)
  {
    assert IsDigit(digits[0]);
  }

  lemma SignedReads(sign: char, digits: string, n: int64)
    requires digits != "" && AllDigits(digits) && (sign == '-' || sign == '+')
    requires NatValue(digits) == if sign == '-' then -(n as int) else n as int
    ensures ParseInt([sign] + digits) == Some(n)
  {
    assert ([sign] + digits)[1..] == digits;
  }
}
