/** Where a blob read starts: blobReadStart, checkRangeStart, rangeStart and rangeFrom of
    internal/oci/blobs.go. */
module BlobRange {
  import opened Base
  import Decimal

  /** contentRange is empty when the response carried none. */
  datatype Response = Response(status: int, contentRange: string)

  datatype ReadError = NotFound | Status(status: int) | UnusableRange | WrongStart

  const PREFIX := "bytes "

  /** strings.CutPrefix. */
  function CutPrefix(s: string, prefix: string): Option<string> {
    if prefix <= s then Some(s[|prefix|..]) else None
  }

  /** What strings.Cut puts before the first dash. */
  function BeforeDash(s: string): Option<string> {
    if s == "" then None
    else if s[0] == '-' then Some("")
    else
      var rest := BeforeDash(s[1..]);
      if rest.Some? then Some([s[0]] + rest.value) else None
  }

  function RangeStart(value: string): Option<int64> {
    match CutPrefix(value, PREFIX)
    case None => None
    case Some(rest) =>
      match BeforeDash(rest)
      case None => None
      case Some(first) => Decimal.ParseInt(first)
  }

  function CheckRangeStart(resp: Response, offset: int64): Option<ReadError> {
    match RangeStart(resp.contentRange)
    case None => Some(UnusableRange)
    case Some(first) => if first != offset then Some(WrongStart) else None
  }

  /** A read starts at the first byte or where it was asked to, and it is refused exactly when the
      response says neither. */
  function BlobReadStart(resp: Response, off: int64): (r: Result<int64, ReadError>)
    ensures r.Ok? ==> r.value == 0 || r.value == off
    ensures r.Ok? && r.value == 0 <==> resp.status == 200
    ensures r.Ok? && r.value != 0 <==> resp.status == 206 && off != 0 && RangeStart(resp.contentRange) == Some(off)
    ensures r == Err(NotFound) <==> resp.status == 404
    ensures r == Err(UnusableRange) <==> resp.status == 206 && off != 0 && RangeStart(resp.contentRange) == None
    ensures r.Err? && r.error.Status? ==> r.error.status == resp.status
  {
    if resp.status == 404 then Err(NotFound)
    else if off == 0 then (if resp.status != 200 then Err(Status(resp.status)) else Ok(0))
    else if resp.status == 206 then
      match CheckRangeStart(resp, off)
      case Some(e) => Err(e)
      case None => Ok(off)
    else if resp.status == 200 then Ok(0)
    else Err(Status(resp.status))
  }

  /** The Range header that asks for everything from offset on. */
  function RangeFrom(offset: int64): string {
    "bytes=" + Decimal.FormatInt(offset) + "-"
  }

  /** The Content-Range a server answers a range with. */
  function ContentRange(first: int64, last: int64, size: int64): string {
    PREFIX + (Decimal.FormatInt(first) + ("-" + (Decimal.FormatInt(last) + ("/" + Decimal.FormatInt(size)))))
  }

  lemma {:induction false} DigitsBeforeDash(digits: string, more: string)
    requires Decimal.AllDigits(digits)
    ensures BeforeDash(digits + ("-" + more)) == Some(digits)
    decreases |digits|
  {
    var s := digits + ("-" + more);
    if digits == "" {
      assert s == "-" + more;
    } else {
      assert s[1..] == digits[1..] + ("-" + more);
      DigitsBeforeDash(digits[1..], more);
      assert s[0] == digits[0] && Decimal.IsDigit(digits[0]) && [digits[0]] + digits[1..] == digits;
    }
  }

  lemma {:induction false} BeforeDashIs(s: string, d: string)
    ensures BeforeDash(s) == Some(d) <==> '-' !in d && exists rest :: s == d + ("-" + rest)
    decreases |s|
  {
    if BeforeDash(s) == Some(d) {
      if s[0] == '-' {
        assert s == d + ("-" + s[1..]);
      } else {
        BeforeDashIs(s[1..], d[1..]);
        var rest :| s[1..] == d[1..] + ("-" + rest);
        assert s == d + ("-" + rest) && d == [s[0]] + d[1..];
      }
    }
    if '-' !in d {
      if rest :| s == d + ("-" + rest) {
        if d != "" {
          assert s[1..] == d[1..] + ("-" + rest) && s[0] == d[0] && d == [d[0]] + d[1..];
          BeforeDashIs(s[1..], d[1..]);
        }
      }
    }
  }

  /** A Content-Range states a start exactly when it is a byte range whose text up to the first dash is a number. */
  lemma StatedStart(value: string, first: int64)
    ensures
      RangeStart(value) == Some(first) <==>
      exists d, rest :: '-' !in d && value == "bytes " + (d + ("-" + rest)) && Decimal.ParseInt(d) == Some(first)
  {
    if RangeStart(value) == Some(first) {
      var left := CutPrefix(value, PREFIX).value;
      var d := BeforeDash(left).value;
      BeforeDashIs(left, d);
      var rest :| left == d + ("-" + rest);
      assert value == "bytes " + (d + ("-" + rest));
    }
    if d, rest :| '-' !in d && value == "bytes " + (d + ("-" + rest)) && Decimal.ParseInt(d) == Some(first) {
      BeforeDashIs(d + ("-" + rest), d);
      assert value[6..] == d + ("-" + rest) && value[..6] == PREFIX;
    }
  }

  /** A 206 that states the range asked for is accepted, wherever the range ends and whatever size it
      names, and one that states another start is not. */
  lemma StatedRangeIsRead(first: int64, last: int64, size: int64, off: int64)
    requires 0 <= first && 0 < off
    ensures RangeStart(ContentRange(first, last, size)) == Some(first)
    ensures BlobReadStart(Response(206, ContentRange(first, last, size)), off) ==
            if first == off then Ok(off) else Err(WrongStart)
  {
    var more := Decimal.FormatInt(last) + ("/" + Decimal.FormatInt(size));
    assert ContentRange(first, last, size)[|PREFIX|..] == Decimal.FormatInt(first) + ("-" + more);
    DigitsBeforeDash(Decimal.FormatInt(first), more);
    Decimal.RoundTrip(first);
  }

  /** What a server reads off the Range header is the offset, and no end: nothing follows the dash. */
  lemma RangeIsRecovered(offset: int64)
    requires 0 <= offset
    ensures
      var asked := CutPrefix(RangeFrom(offset), "bytes=");
      && asked.Some? && BeforeDash(asked.value).Some?
      && Decimal.ParseInt(BeforeDash(asked.value).value) == Some(offset)
      && asked.value == BeforeDash(asked.value).value + "-"
  {
    assert RangeFrom(offset)[6..] == Decimal.FormatInt(offset) + ("-" + "");
    DigitsBeforeDash(Decimal.FormatInt(offset), "");
    Decimal.RoundTrip(offset);
  }
}
