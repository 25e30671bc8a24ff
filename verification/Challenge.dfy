/** The WWW-Authenticate reader of internal/oci/challenge.go: sections 5.6.1, 5.6.2, 5.6.4, 11.2 and 11.6.1
    of RFC 9110. A header is one char per byte. */
module Challenge {
  import opened Base

  datatype Stated = Stated(scheme: string, realm: string, service: string, scopes: seq<string>)

  datatype ChallengeError = NothingStated | TooLong | Unreadable | NoRealm | NoScheme

  const VOID := Stated("", "", "", [])
  const CHALLENGE_LIMIT := 8192

  /** strings.Fields, which splits at white space. */
  type Fields = string -> seq<string>

  predicate IsTokenChar(c: char) {
    'a' <= c <= 'z' || 'A' <= c <= 'Z' || '0' <= c <= '9' || c in "!#$%&'*+-.^_`|~"
  }

  /** Every visible ASCII character but the delimiters of section 5.6.2. */
  lemma TokenCharsAreVisible(c: char)
    ensures IsTokenChar(c) <==> '!' <= c <= '~' && c !in "\"(),/:;<=>?@[\\]{}"
  {
  }

  predicate IsBlank(c: char) {
    c == ' ' || c == '\t'
  }

  predicate IsDelim(c: char) {
    IsBlank(c) || c == ','
  }

  // ---- what each scanner method reads, as a function of what is left of the header ----

  /** How many leading characters are accepted. */
  function Leading(s: string, accept: char -> bool): (n: nat)
    ensures n <= |s| && (n < |s| ==> !accept(s[n]))
    ensures forall i :: 0 <= i < n ==> accept(s[i])
  {
    if s != "" && accept(s[0]) then 1 + Leading(s[1..], accept) else 0
  }

  function Skip(s: string, accept: char -> bool): (t: string)
    ensures |t| <= |s|
  {
    s[Leading(s, accept)..]
  }

  datatype Read = Read(value: Option<string>, rest: string)

  function Token(s: string): (r: Read)
    ensures |r.rest| <= |s| && (r.value.Some? ==> |r.rest| < |s|)
  {
    var n := Leading(s, IsTokenChar);
    if n == 0 then Read(None, s) else Read(Some(s[..n]), s[n..])
  }

  function Before(text: string, r: Read): Read {
    if r.value.Some? then r.(value := Some(text + r.value.value)) else r
  }

  /** What follows an opening quote. */
  function Unquote(s: string): (r: Read)
    ensures |r.rest| <= |s|
  {
    if s == "" then Read(None, "")
    else if s[0] == '"' then Read(Some(""), s[1..])
    else if s[0] == '\\' && |s| > 1 then Before([s[1]], Unquote(s[2..]))
    else Before([s[0]], Unquote(s[1..]))
  }

  function Value(s: string): (r: Read)
    ensures |r.rest| <= |s|
  {
    if s != "" && s[0] == '"' then Unquote(s[1..]) else Token(s)
  }

  /** What is left once an equals sign and the white space around it are consumed. */
  function AfterEquals(s: string): (r: Option<string>)
    ensures r.Some? ==> |r.value| < |s|
  {
    var t := Skip(s, IsBlank);
    if t != "" && t[0] == '=' then Some(Skip(t[1..], IsBlank)) else None
  }

  function Resync(s: string): (t: string)
    ensures |t| <= |s|
    decreases |s|
  {
    if s == "" || s[0] == ',' then s
    else if s[0] == '"' then Resync(Unquote(s[1..]).rest)
    else Resync(s[1..])
  }

  function Set(c: Stated, name: string, value: string, fields: Fields): Stated {
    match Lower(name)
    case "realm" => c.(realm := value)
    case "service" => c.(service := value)
    case "scope" => c.(scopes := fields(value))
    case _ => c
  }

  function OnLast(offered: seq<Stated>, c: Stated): seq<Stated>
    requires offered != []
  {
    offered[..|offered| - 1] + [c]
  }

  datatype Turn = Ends(result: Result<seq<Stated>, ChallengeError>) | Goes(rest: string, offered: seq<Stated>)

  /** What a parameter does to the challenges offered; rest starts at its value. */
  function ParamTurn(name: string, rest: string, offered: seq<Stated>, fields: Fields): (t: Turn)
    ensures t.Goes? ==> |t.rest| <= |rest|
  {
    var v := Value(rest);
    if offered == [] then Ends(Err(Unreadable))
    else if v.value.None? then Goes(Resync(v.rest), OnLast(offered, VOID))
    else Goes(v.rest, OnLast(offered, Set(offered[|offered| - 1], name, v.value.value, fields)))
  }

  /** A scheme, or a parameter: only what follows the name tells them apart. */
  function NamedTurn(left: string, offered: seq<Stated>, fields: Fields): (t: Turn)
    ensures t.Goes? ==> |t.rest| < |left|
  {
    var r := Token(left);
    if r.value.None? then Ends(Err(Unreadable))
    else
      match AfterEquals(r.rest)
      case None => Goes(r.rest, offered + [VOID.(scheme := Lower(r.value.value))])
      case Some(rest) => ParamTurn(r.value.value, rest, offered, fields)
  }

  /** One element of the header's list, after the challenges already offered. */
  function OneTurn(s: string, offered: seq<Stated>, fields: Fields): (t: Turn)
    ensures t.Goes? ==> |t.rest| < |s|
  {
    var left := Skip(s, IsDelim);
    if left == "" then Ends(Ok(offered)) else NamedTurn(left, offered, fields)
  }

  function ScanFrom(s: string, offered: seq<Stated>, fields: Fields): Result<seq<Stated>, ChallengeError>
    decreases |s|
  {
    match OneTurn(s, offered, fields)
    case Ends(result) => result
    case Goes(rest, more) => ScanFrom(rest, more, fields)
  }

  function Scan(header: string, fields: Fields): Result<seq<Stated>, ChallengeError> {
    ScanFrom(header, [], fields)
  }

  function FirstOf(offered: seq<Stated>, scheme: string): Option<Stated> {
    if offered == [] then None
    else if offered[0].scheme == scheme then Some(offered[0])
    else FirstOf(offered[1..], scheme)
  }

  /** The first Bearer challenge wins and must name a realm; without one, the first Basic. */
  function Pick(offered: seq<Stated>): Result<Stated, ChallengeError> {
    var bearer := FirstOf(offered, "bearer");
    var basic := FirstOf(offered, "basic");
    if bearer.Some? then (if bearer.value.realm == "" then Err(NoRealm) else Ok(bearer.value))
    else if basic.Some? then Ok(basic.value)
    else Err(NoScheme)
  }

  function Parse(header: string, fields: Fields): Result<Stated, ChallengeError> {
    if header == "" then Err(NothingStated)
    else if |header| > CHALLENGE_LIMIT then Err(TooLong)
    else
      match Scan(header, fields)
      case Err(e) => Err(e)
      case Ok(offered) => Pick(offered)
  }

  // ---- the scanner ----

  /** Where the accepted characters from p on end. */
  ghost function RunEnd(h: string, p: nat, accept: char -> bool): (end: nat)
    requires p <= |h|
    ensures p <= end <= |h|
  {
    p + Leading(h[p..], accept)
  }

  lemma RunOn(h: string, p: nat, accept: char -> bool)
    requires p < |h| && accept(h[p])
    ensures RunEnd(h, p, accept) == RunEnd(h, p + 1, accept)
  {
    assert h[p..][1..] == h[p + 1..];
  }

  lemma RunStops(h: string, p: nat, accept: char -> bool)
    requires p <= |h| && (p < |h| ==> !accept(h[p]))
    ensures RunEnd(h, p, accept) == p
  {
  }

  lemma SkipIsRun(h: string, p: nat, accept: char -> bool)
    requires p <= |h|
    ensures Skip(h[p..], accept) == h[RunEnd(h, p, accept)..]
  {
    assert h[p..][RunEnd(h, p, accept) - p..] == h[RunEnd(h, p, accept)..];
  }

  lemma TokenIsRun(h: string, p: nat)
    requires p <= |h|
    ensures
      var end := RunEnd(h, p, IsTokenChar);
      Token(h[p..]) == if end == p then Read(None, h[p..]) else Read(Some(h[p..end]), h[end..])
  {
    var end := RunEnd(h, p, IsTokenChar);
    assert h[p..][..end - p] == h[p..end];
    assert h[p..][end - p..] == h[end..];
  }

  class Scanner {
    const header: string
    var pos: nat

    ghost predicate Valid()
      reads this
    {
      pos <= |header|
    }

    /** What is left to read. */
    ghost function Rest(): string
      requires Valid()
      reads this
    {
      header[pos..]
    }

    constructor (header: string)
      ensures Valid() && this.header == header && pos == 0
    {
      this.header := header;
      pos := 0;
    }

    method Done() returns (done: bool)
      requires Valid()
      ensures done <==> Rest() == ""
    {
      done := pos >= |header|;
    }

    method Space()
      requires Valid()
      modifies this
      ensures Valid() && Rest() == Skip(old(Rest()), IsBlank)
    {
      ghost var end := RunEnd(header, pos, IsBlank);
      SkipIsRun(header, pos, IsBlank);
      while pos < |header| && (header[pos] == ' ' || header[pos] == '\t')
        invariant Valid() && RunEnd(header, pos, IsBlank) == end
      {
        RunOn(header, pos, IsBlank);
        pos := pos + 1;
      }
      RunStops(header, pos, IsBlank);
    }

    method Delims()
      requires Valid()
      modifies this
      ensures Valid() && old(pos) <= pos && Rest() == Skip(old(Rest()), IsDelim)
    {
      ghost var end := RunEnd(header, pos, IsDelim);
      SkipIsRun(header, pos, IsDelim);
      while pos < |header|
        invariant Valid() && old(pos) <= pos && RunEnd(header, pos, IsDelim) == end
      {
        var c := header[pos];
        if c != ' ' && c != '\t' && c != ',' {
          RunStops(header, pos, IsDelim);
          return;
        }
        RunOn(header, pos, IsDelim);
        pos := pos + 1;
      }
      RunStops(header, pos, IsDelim);
    }

    method EqualsSign() returns (found: bool)
      requires Valid()
      modifies this
      ensures Valid() && old(pos) <= pos
      ensures found <==> AfterEquals(old(Rest())).Some?
      ensures Rest() == if found then AfterEquals(old(Rest())).value else old(Rest())
    {
      var saved := pos;
      Space();
      if pos < |header| && header[pos] == '=' {
        assert Rest()[1..] == header[pos + 1..];
        pos := pos + 1;
        Space();
        SuffixOrder(header, saved, pos);
        return true;
      }
      pos := saved;
      found := false;
    }

    method ReadToken() returns (text: string, ok: bool)
      requires Valid()
      modifies this
      ensures Valid() && old(pos) <= pos && (ok ==> old(pos) < pos)
      ensures Read(if ok then Some(text) else None, Rest()) == Token(old(Rest()))
    {
      var start := pos;
      TokenIsRun(header, start);
      ghost var end := RunEnd(header, start, IsTokenChar);
      while pos < |header| && IsTokenChar(header[pos])
        invariant start <= pos && Valid() && RunEnd(header, pos, IsTokenChar) == end
      {
        RunOn(header, pos, IsTokenChar);
        pos := pos + 1;
      }
      RunStops(header, pos, IsTokenChar);
      if pos == start {
        return "", false;
      }
      return header[start..pos], true;
    }

    method ReadQuoted() returns (text: string, ok: bool)
      requires Valid() && pos < |header|
      modifies this
      ensures Valid() && old(pos) < pos
      ensures Read(if ok then Some(text) else None, Rest()) == Unquote(old(Rest())[1..])
    {
      ghost var start := pos + 1;
      QuotedAtIsUnquote(header, start, "");
      assert Rest()[1..] == header[start..];
      pos := pos + 1;
      var out := "";
      while pos < |header|
        invariant Valid() && start <= pos
        invariant QuotedAt(header, start, "") == QuotedAt(header, pos, out)
      {
        var c := header[pos];
        if c == '"' {
          pos := pos + 1;
          return out, true;
        } else if c == '\\' && pos + 1 < |header| {
          out := out + [header[pos + 1]];
          pos := pos + 2;
        } else {
          out := out + [c];
          pos := pos + 1;
        }
      }
      return "", false;
    }

    method ReadValue() returns (text: string, ok: bool)
      requires Valid()
      modifies this
      ensures Valid() && old(pos) <= pos
      ensures Read(if ok then Some(text) else None, Rest()) == Value(old(Rest()))
    {
      if pos < |header| && header[pos] == '"' {
        text, ok := ReadQuoted();
      } else {
        text, ok := ReadToken();
      }
    }

    method SkipToComma()
      requires Valid()
      modifies this
      ensures Valid() && old(pos) <= pos && Rest() == Resync(old(Rest()))
    {
      while pos < |header|
        invariant Valid() && old(pos) <= pos && Resync(Rest()) == Resync(old(Rest()))
        decreases |header| - pos
      {
        if header[pos] == ',' {
          return;
        } else if header[pos] == '"' {
          var _, _ := ReadQuoted();
        } else {
          assert Rest()[1..] == header[pos + 1..];
          pos := pos + 1;
        }
      }
    }
  }

  /** A quoted string read from position p on, after the characters in out. */
  function QuotedAt(h: string, p: nat, out: string): Read
    requires p <= |h|
    decreases |h| - p
  {
    if p == |h| then Read(None, "")
    else if h[p] == '"' then Read(Some(out), h[p + 1..])
    else if h[p] == '\\' && p + 1 < |h| then QuotedAt(h, p + 2, out + [h[p + 1]])
    else QuotedAt(h, p + 1, out + [h[p]])
  }

  lemma {:induction false} QuotedAtIsBefore(h: string, p: nat, out: string)
    requires p <= |h|
    ensures QuotedAt(h, p, out) == Before(out, Unquote(h[p..]))
    decreases |h| - p
  {
    if p < |h| {
      assert h[p..][1..] == h[p + 1..];
      if h[p] == '"' {
        assert out + "" == out;
      } else if h[p] == '\\' && p + 1 < |h| {
        assert h[p..][2..] == h[p + 2..];
        QuotedAtIsBefore(h, p + 2, out + [h[p + 1]]);
        BeforeBefore(out, [h[p + 1]], Unquote(h[p + 2..]));
      } else {
        QuotedAtIsBefore(h, p + 1, out + [h[p]]);
        BeforeBefore(out, [h[p]], Unquote(h[p + 1..]));
      }
    }
  }

  lemma QuotedAtIsUnquote(h: string, p: nat, out: string)
    requires p <= |h| && out == ""
    ensures QuotedAt(h, p, out) == Unquote(h[p..])
  {
    QuotedAtIsBefore(h, p, out);
    if Unquote(h[p..]).value.Some? {
      assert "" + Unquote(h[p..]).value.value == Unquote(h[p..]).value.value;
    }
  }

  lemma BeforeBefore(a: string, b: string, r: Read)
    ensures Before(a, Before(b, r)) == Before(a + b, r)
  {
    if r.value.Some? {
      assert a + (b + r.value.value) == (a + b) + r.value.value;
    }
  }

  lemma SuffixOrder(h: string, p: nat, q: nat)
    requires p <= |h| && q <= |h| && |h[q..]| <= |h[p..]|
    ensures p <= q
  {
  }

  /** One iteration of the loop of scanChallenges. It always moves the scan forward. */
  method TakeElement(scan: Scanner, offered: seq<Stated>, fields: Fields) returns (t: Turn)
    requires scan.Valid()
    modifies scan
    ensures scan.Valid() && (t.Goes? ==> old(scan.pos) < scan.pos && t.rest == scan.Rest())
    ensures t == OneTurn(old(scan.Rest()), offered, fields)
  {
    scan.Delims();
    var done := scan.Done();
    if done {
      return Ends(Ok(offered));
    }
    t := TakeNamed(scan, offered, fields);
  }

  method TakeNamed(scan: Scanner, offered: seq<Stated>, fields: Fields) returns (t: Turn)
    requires scan.Valid()
    modifies scan
    ensures scan.Valid() && (t.Goes? ==> old(scan.pos) < scan.pos && t.rest == scan.Rest())
    ensures t == NamedTurn(old(scan.Rest()), offered, fields)
  {
    var name, named := scan.ReadToken();
    if !named {
      return Ends(Err(Unreadable));
    }
    var valued := scan.EqualsSign();
    if !valued {
      return Goes(scan.header[scan.pos..], offered + [VOID.(scheme := Lower(name))]);
    }
    t := TakeValue(scan, name, offered, fields);
  }

  method TakeValue(scan: Scanner, name: string, offered: seq<Stated>, fields: Fields) returns (t: Turn)
    requires scan.Valid()
    modifies scan
    ensures scan.Valid() && (t.Goes? ==> old(scan.pos) <= scan.pos && t.rest == scan.Rest())
    ensures t == ParamTurn(name, old(scan.Rest()), offered, fields)
  {
    var value, ok := scan.ReadValue();
    if |offered| == 0 {
      return Ends(Err(Unreadable));
    }
    if !ok {
      scan.SkipToComma();
      return Goes(scan.header[scan.pos..], OnLast(offered, VOID));
    }
    return Goes(scan.header[scan.pos..], OnLast(offered, Set(offered[|offered| - 1], name, value, fields)));
  }

  /** The scan ends on every header. */
  method ScanChallenges(header: string, fields: Fields) returns (r: Result<seq<Stated>, ChallengeError>)
    ensures r == Scan(header, fields)
  {
    var scan := new Scanner(header);
    assert scan.Rest() == header;
    var offered: seq<Stated> := [];
    while true
      invariant scan.Valid() && scan.header == header
      invariant ScanFrom(scan.Rest(), offered, fields) == Scan(header, fields)
      decreases |header| - scan.pos
    {
      var turn := TakeElement(scan, offered, fields);
      if turn.Ends? {
        return turn.result;
      }
      offered := turn.offered;
    }
  }

  /** The first challenge of a scheme. */
  ghost predicate FirstAt(offered: seq<Stated>, scheme: string, k: nat) {
    k < |offered| && offered[k].scheme == scheme && NoneBefore(offered, scheme, k)
  }

  ghost predicate NoneBefore(offered: seq<Stated>, scheme: string, k: nat) {
    forall i :: 0 <= i < k && i < |offered| ==> offered[i].scheme != scheme
  }

  /** The first Bearer challenge is taken whole, and must name a realm; without one the first Basic is, and without
      either there is nothing to answer. */
  ghost predicate Picked(offered: seq<Stated>, r: Result<Stated, ChallengeError>) {
    && (forall k: nat :: FirstAt(offered, "bearer", k) ==> r == if offered[k].realm == "" then Err(NoRealm) else Ok(offered[k]))
    && (forall k: nat :: NoneBefore(offered, "bearer", |offered|) && FirstAt(offered, "basic", k) ==> r == Ok(offered[k]))
    && (NoneBefore(offered, "bearer", |offered|) && NoneBefore(offered, "basic", |offered|) ==> r == Err(NoScheme))
  }

  lemma {:induction false} FirstOfIsFirst(offered: seq<Stated>, scheme: string)
    ensures FirstOf(offered, scheme).None? ==> NoneBefore(offered, scheme, |offered|)
    ensures FirstOf(offered, scheme).Some? ==>
              exists k: nat :: FirstAt(offered, scheme, k) && FirstOf(offered, scheme) == Some(offered[k])
  {
    if offered != [] && offered[0].scheme == scheme {
      assert FirstAt(offered, scheme, 0);
    } else if offered != [] {
      FirstOfIsFirst(offered[1..], scheme);
      forall i | 0 <= i < |offered| - 1 ensures offered[1..][i] == offered[i + 1] {
      }
      if FirstOf(offered, scheme).Some? {
        var k: nat :| FirstAt(offered[1..], scheme, k) && FirstOf(offered, scheme) == Some(offered[1..][k]);
        assert FirstAt(offered, scheme, k + 1);
      }
    }
  }

  lemma FirstIsOne(offered: seq<Stated>, scheme: string, j: nat, k: nat)
    requires FirstAt(offered, scheme, j) && FirstAt(offered, scheme, k)
    ensures j == k
  {
  }

  lemma FirstOfIs(offered: seq<Stated>, scheme: string)
    ensures NoneBefore(offered, scheme, |offered|) ==> FirstOf(offered, scheme) == None
    ensures forall k: nat :: FirstAt(offered, scheme, k) ==> FirstOf(offered, scheme) == Some(offered[k])
  {
    FirstOfIsFirst(offered, scheme);
    forall k: nat | FirstAt(offered, scheme, k) ensures FirstOf(offered, scheme) == Some(offered[k]) {
      var j: nat :| FirstAt(offered, scheme, j) && FirstOf(offered, scheme) == Some(offered[j]);
      FirstIsOne(offered, scheme, j, k);
    }
  }

  lemma PickIsPicked(offered: seq<Stated>)
    ensures Picked(offered, Pick(offered))
  {
    FirstOfIs(offered, "bearer");
    FirstOfIs(offered, "basic");
  }

  method PickChallenge(offered: seq<Stated>) returns (r: Result<Stated, ChallengeError>)
    ensures r == Pick(offered) && Picked(offered, r)
  {
    PickIsPicked(offered);
    var fallback := -1;
    for i := 0 to |offered|
      invariant FirstOf(offered, "bearer") == FirstOf(offered[i..], "bearer")
      invariant -1 <= fallback < i
      invariant FirstOf(offered, "basic") ==
                if fallback < 0 then FirstOf(offered[i..], "basic") else Some(offered[fallback])
    {
      assert offered[i..][1..] == offered[i + 1..];
      match offered[i].scheme
      case "bearer" =>
        if offered[i].realm == "" {
          return Err(NoRealm);
        }
        return Ok(offered[i]);
      case "basic" =>
        if fallback < 0 {
          fallback := i;
        }
      case _ =>
    }
    if fallback >= 0 {
      return Ok(offered[fallback]);
    }
    return Err(NoScheme);
  }

  method ParseChallenge(header: string, fields: Fields) returns (r: Result<Stated, ChallengeError>)
    ensures r == Parse(header, fields)
    ensures header == "" ==> r == Err(NothingStated)
    ensures |header| > 8192 ==> r == Err(TooLong)
    ensures 0 < |header| <= 8192 && Scan(header, fields).Err? ==> r == Err(Scan(header, fields).error)
    ensures 0 < |header| <= 8192 && Scan(header, fields).Ok? ==> Picked(Scan(header, fields).value, r)
  {
    if header == "" {
      return Err(NothingStated);
    }
    if |header| > CHALLENGE_LIMIT {
      return Err(TooLong);
    }
    var offered := ScanChallenges(header, fields);
    match offered
    case Err(e) => return Err(e);
    case Ok(list) => r := PickChallenge(list);
  }
}
