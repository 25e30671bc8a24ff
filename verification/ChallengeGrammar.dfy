/** The lists of challenges RFC 9110 lets a registry write, and what the reader makes of each. */
module ChallengeGrammar {
  import opened Base
  import opened Challenge

  /** A character of a quoted string, escaped with a backslash or not. */
  datatype Quotable = Plain(c: char) | Escaped(c: char)

  datatype Spelling = Bare(text: string) | Quoted(chars: seq<Quotable>)

  /** name = value, with the white space around the equals sign and what separates it from what follows. */
  datatype Param = Param(name: string, before: string, after: string, value: Spelling, sep: string)

  /** A challenge is a scheme with parameters, or a scheme with one token68, padded by equals signs or not. */
  datatype Written =
    | WithParams(scheme: string, gap: string, params: seq<Param>)
    | WithToken68(scheme: string, gap: string, body: string, pads: nat, trail: string, sep: string)

  // ---- how it is written ----

  function Letters(chars: seq<Quotable>): string {
    seq(|chars|, i requires 0 <= i < |chars| => chars[i].c)
  }

  /** One character of a quoted string, spelled. */
  function SpelledOne(q: Quotable): string {
    if q.Escaped? then "\\" + [q.c] else [q.c]
  }

  function Inside(chars: seq<Quotable>): string {
    if chars == [] then ""
    else SpelledOne(chars[0]) + Inside(chars[1..])
  }

  function Spelled(v: Spelling): string {
    match v
    case Bare(text) => text
    case Quoted(chars) => "\"" + Inside(chars) + "\""
  }

  function Meant(v: Spelling): string {
    match v
    case Bare(text) => text
    case Quoted(chars) => Letters(chars)
  }

  function ParamText(p: Param): string {
    p.name + (p.before + ("=" + (p.after + (Spelled(p.value) + p.sep))))
  }

  function ParamsText(ps: seq<Param>): string {
    if ps == [] then "" else ParamText(ps[0]) + ParamsText(ps[1..])
  }

  function Pads(n: nat): (s: string)
    ensures |s| == n && forall i :: 0 <= i < n ==> s[i] == '='
  {
    if n == 0 then "" else "=" + Pads(n - 1)
  }

  function Text(w: Written): string {
    match w
    case WithParams(scheme, gap, params) => scheme + (gap + ParamsText(params))
    case WithToken68(scheme, gap, body, pads, trail, sep) => scheme + (gap + (body + (Pads(pads) + (trail + sep))))
  }

  function Texts(ws: seq<Written>): string {
    if ws == [] then "" else Text(ws[0]) + Texts(ws[1..])
  }

  // ---- when it is written correctly ----

  predicate All(s: string, accept: char -> bool) {
    forall i :: 0 <= i < |s| ==> accept(s[i])
  }

  predicate IsToken(s: string) {
    s != "" && All(s, IsTokenChar)
  }

  /** What may separate one element from more: something, unless nothing more follows. */
  predicate Separates(sep: string, more: string) {
    All(sep, IsDelim) && (sep != "" || more == "")
  }

  predicate GoodSpelling(v: Spelling) {
    match v
    case Bare(text) => IsToken(text)
    case Quoted(chars) => forall i :: 0 <= i < |chars| ==> chars[i].Plain? ==> chars[i].c != '"' && chars[i].c != '\\'
  }

  predicate GoodParam(p: Param, more: string) {
    && IsToken(p.name) && All(p.before, IsBlank) && All(p.after, IsBlank) && GoodSpelling(p.value)
    && (if p.value.Bare? then Separates(p.sep, more) else All(p.sep, IsDelim))
  }

  predicate GoodParams(ps: seq<Param>, more: string) {
    ps == [] || (GoodParam(ps[0], ParamsText(ps[1..]) + more) && GoodParams(ps[1..], more))
  }

  /** The characters of a token68 before its padding. */
  predicate IsToken68Char(c: char) {
    'a' <= c <= 'z' || 'A' <= c <= 'Z' || '0' <= c <= '9' || c in "-._~+/"
  }

  predicate Good(w: Written, more: string) {
    match w
    case WithParams(scheme, gap, params) =>
      IsToken(scheme) && Separates(gap, ParamsText(params) + more) && GoodParams(params, more)
    case WithToken68(scheme, gap, body, pads, trail, sep) =>
      && IsToken(scheme) && gap != "" && All(gap, IsDelim)
      && body != "" && All(body, IsToken68Char)
      && All(trail, IsBlank) && All(sep, IsDelim) && (if sep == "" then more == "" else sep[0] == ',')
  }

  predicate AllGood(ws: seq<Written>, more: string) {
    ws == [] || (Good(ws[0], Texts(ws[1..]) + more) && AllGood(ws[1..], more))
  }

  // ---- what it means ----

  /** The value of the last parameter of this name. */
  function LastOf(ps: seq<Param>, name: string): Option<string> {
    if ps == [] then None
    else if Lower(ps[|ps| - 1].name) == name then Some(Meant(ps[|ps| - 1].value))
    else LastOf(ps[..|ps| - 1], name)
  }

  function Or<T>(o: Option<T>, none: T): T {
    if o.Some? then o.value else none
  }

  /** A challenge of which only the scheme is known. */
  function Alone(scheme: string): Stated {
    VOID.(scheme := Lower(scheme))
  }

  function ParamsMeaning(scheme: string, ps: seq<Param>, fields: Fields): Stated {
    var scope := LastOf(ps, "scope");
    Stated(Lower(scheme), Or(LastOf(ps, "realm"), ""), Or(LastOf(ps, "service"), ""),
           if scope.Some? then fields(scope.value) else [])
  }

  /** What the reader makes of one challenge. A padded token68 is no value and voids its challenge; one
      without padding is a word like a scheme, and read as one. */
  function Meaning(w: Written, fields: Fields): seq<Stated> {
    match w
    case WithParams(scheme, _, ps) => [ParamsMeaning(scheme, ps, fields)]
    case WithToken68(scheme, _, body, pads, _, _) => if pads > 0 then [VOID] else [Alone(scheme), Alone(body)]
  }

  function Meanings(ws: seq<Written>, fields: Fields): seq<Stated> {
    if ws == [] then [] else Meaning(ws[0], fields) + Meanings(ws[1..], fields)
  }

  // ---- reading one piece ----

  lemma {:induction false} LeadingIs(s: string, more: string, accept: char -> bool)
    requires All(s, accept) && (more == "" || !accept(more[0]))
    ensures Leading(s + more, accept) == |s| && Skip(s + more, accept) == more
    decreases |s|
  {
    if s == "" {
      assert s + more == more;
    } else {
      assert (s + more)[1..] == s[1..] + more;
      LeadingIs(s[1..], more, accept);
    }
  }

  lemma TokenReads(s: string, more: string)
    requires IsToken(s) && (more == "" || !IsTokenChar(more[0]))
    ensures Token(s + more) == Read(Some(s), more)
  {
    LeadingIs(s, more, IsTokenChar);
  }

  lemma OneQuotableReads(q: Quotable, rest: string)
    requires rest != "" && (q.Plain? ==> q.c != '"' && q.c != '\\')
    ensures Unquote(SpelledOne(q) + rest) == Before([q.c], Unquote(rest))
  {
    var s := SpelledOne(q) + rest;
    assert s[|SpelledOne(q)|..] == rest;
  }

  lemma InsideFirst(chars: seq<Quotable>, rest: string)
    requires chars != []
    ensures Inside(chars) + rest == SpelledOne(chars[0]) + (Inside(chars[1..]) + rest)
  {
  }

  lemma LettersFirst(chars: seq<Quotable>)
    requires chars != []
    ensures Letters(chars) == [chars[0].c] + Letters(chars[1..])
  {
  }

  lemma QuoteEnds(more: string)
    ensures Unquote(Inside([]) + ("\"" + more)) == Read(Some(""), more)
  {
    assert Inside([]) + ("\"" + more) == "\"" + more;
    assert ("\"" + more)[1..] == more;
  }

  lemma {:induction false} UnquoteReads(chars: seq<Quotable>, more: string)
    requires GoodSpelling(Quoted(chars))
    ensures Unquote(Inside(chars) + ("\"" + more)) == Read(Some(Letters(chars)), more)
    decreases |chars|
  {
    if chars == [] {
      QuoteEnds(more);
      assert Letters(chars) == "";
    } else {
      var rest := Inside(chars[1..]) + ("\"" + more);
      UnquoteReads(chars[1..], more);
      OneQuotableReads(chars[0], rest);
      InsideFirst(chars, "\"" + more);
      LettersFirst(chars);
    }
  }

  lemma ValueReads(v: Spelling, more: string)
    requires GoodSpelling(v) && (v.Bare? ==> more == "" || !IsTokenChar(more[0]))
    ensures Value(Spelled(v) + more) == Read(Some(Meant(v)), more)
  {
    match v
    case Bare(text) => TokenReads(text, more);
    case Quoted(chars) =>
      UnquoteReads(chars, more);
      assert (Spelled(v) + more)[1..] == Inside(chars) + ("\"" + more);
  }

  /** Delimiters in front of what is left change nothing. */
  lemma {:induction false} DelimsAbsorbed(d: string, s: string, offered: seq<Stated>, fields: Fields)
    requires All(d, IsDelim)
    ensures ScanFrom(d + s, offered, fields) == ScanFrom(s, offered, fields)
  {
    SkipAbsorbs(d, s);
    assert OneTurn(d + s, offered, fields) == OneTurn(s, offered, fields);
  }

  lemma {:induction false} SkipAbsorbs(d: string, s: string)
    requires All(d, IsDelim)
    ensures Skip(d + s, IsDelim) == Skip(s, IsDelim)
    decreases |d|
  {
    if d == "" {
      assert d + s == s;
    } else {
      assert (d + s)[1..] == d[1..] + s;
      SkipAbsorbs(d[1..], s);
    }
  }

  lemma TokenCharIsNoDelim(c: char)
    requires IsTokenChar(c)
    ensures !IsDelim(c) && c != '=' && c != '"'
  {
  }

  lemma DelimEndsToken(c: char)
    requires IsDelim(c)
    ensures !IsTokenChar(c) && c != '='
  {
  }

  /** What is left is empty or starts an element. */
  predicate Starts(s: string) {
    s == "" || IsTokenChar(s[0])
  }

  lemma SepEndsToken(sep: string, more: string)
    requires Separates(sep, more)
    ensures sep + more == "" || (!IsTokenChar((sep + more)[0]) && (sep + more)[0] != '=')
  {
    if sep != "" {
      DelimEndsToken(sep[0]);
    }
  }

  /** Blanks end within the delimiters, or where they end. */
  lemma BlanksEnd(sep: string, more: string)
    requires All(sep, IsDelim) && (more == "" || (!IsBlank(more[0]) && more[0] != '='))
    ensures
      var t := Skip(sep + more, IsBlank);
      t == "" || t[0] != '='
  {
    var s := sep + more;
    var n := Leading(s, IsBlank);
    assert more != "" ==> s[|sep|] == more[0];
    assert n <= |sep|;
    if n < |sep| {
      DelimEndsToken(sep[n]);
    }
  }

  lemma NoEqualsAfter(sep: string, more: string)
    requires Separates(sep, more) && Starts(more)
    ensures AfterEquals(sep + more) == None
  {
    BlanksEnd(sep, more);
  }

  lemma SchemeReads(scheme: string, gap: string, more: string, offered: seq<Stated>, fields: Fields)
    requires IsToken(scheme) && Separates(gap, more) && Starts(more)
    ensures ScanFrom(scheme + (gap + more), offered, fields) == ScanFrom(more, offered + [VOID.(scheme := Lower(scheme))], fields)
  {
    var s := scheme + (gap + more);
    TokenCharIsNoDelim(scheme[0]);
    assert Skip(s, IsDelim) == s;
    SepEndsToken(gap, more);
    TokenReads(scheme, gap + more);
    NoEqualsAfter(gap, more);
    DelimsAbsorbed(gap, more, offered + [VOID.(scheme := Lower(scheme))], fields);
  }

  lemma EqualsReads(before: string, after: string, more: string)
    requires All(before, IsBlank) && All(after, IsBlank) && (more == "" || !IsBlank(more[0]))
    ensures AfterEquals(before + ("=" + (after + more))) == Some(more)
  {
    LeadingIs(before, "=" + (after + more), IsBlank);
    assert ("=" + (after + more))[1..] == after + more;
    LeadingIs(after, more, IsBlank);
  }

  /** An equals sign, possibly after blanks, ends a token. */
  lemma BeforeEndsToken(before: string, more: string)
    requires All(before, IsBlank) && more != "" && more[0] == '='
    ensures before + more != "" && !IsTokenChar((before + more)[0])
  {
  }

  /** A name, an equals sign and what follows make one parameter. */
  lemma NameReads(name: string, before: string, after: string, valued: string, offered: seq<Stated>, fields: Fields)
    requires IsToken(name) && All(before, IsBlank) && All(after, IsBlank) && (valued == "" || !IsBlank(valued[0]))
    ensures OneTurn(name + (before + ("=" + (after + valued))), offered, fields) == ParamTurn(name, valued, offered, fields)
  {
    var rest := before + ("=" + (after + valued));
    TokenCharIsNoDelim(name[0]);
    assert Skip(name + rest, IsDelim) == name + rest;
    BeforeEndsToken(before, "=" + (after + valued));
    TokenReads(name, rest);
    EqualsReads(before, after, valued);
  }

  lemma ParamReads(p: Param, more: string, offered: seq<Stated>, fields: Fields)
    requires GoodParam(p, more) && Starts(more) && offered != []
    ensures
      ScanFrom(ParamText(p) + more, offered, fields) ==
      ScanFrom(more, OnLast(offered, Set(offered[|offered| - 1], p.name, Meant(p.value), fields)), fields)
  {
    var tail := p.sep + more;
    var valued := Spelled(p.value) + tail;
    var next := OnLast(offered, Set(offered[|offered| - 1], p.name, Meant(p.value), fields));
    ParamSplits(p, more);
    ValuedStarts(p, more);
    NameReads(p.name, p.before, p.after, valued, offered, fields);
    ValueReads(p.value, tail);
    TurnGoes(ParamText(p) + more, offered, tail, next, fields);
    DelimsAbsorbed(p.sep, more, next, fields);
  }

  lemma ParamSplits(p: Param, more: string)
    ensures ParamText(p) + more == p.name + (p.before + ("=" + (p.after + (Spelled(p.value) + (p.sep + more)))))
  {
  }

  lemma TurnGoes(s: string, offered: seq<Stated>, rest: string, next: seq<Stated>, fields: Fields)
    requires OneTurn(s, offered, fields) == Goes(rest, next)
    ensures ScanFrom(s, offered, fields) == ScanFrom(rest, next, fields)
  {
  }

  lemma ValuedStarts(p: Param, more: string)
    requires GoodParam(p, more)
    ensures var valued := Spelled(p.value) + (p.sep + more); valued != "" && !IsBlank(valued[0])
    ensures p.value.Bare? ==> p.sep + more == "" || !IsTokenChar((p.sep + more)[0])
  {
    if p.value.Bare? {
      SepEndsToken(p.sep, more);
      TokenCharIsNoDelim(p.value.text[0]);
    }
  }

  // ---- reading a challenge's parameters: the last of a name wins ----

  function SetAll(c: Stated, ps: seq<Param>, fields: Fields): Stated
    decreases |ps|
  {
    if ps == [] then c else SetAll(Set(c, ps[0].name, Meant(ps[0].value), fields), ps[1..], fields)
  }

  lemma {:induction false} SetAllLast(c: Stated, ps: seq<Param>, p: Param, fields: Fields)
    ensures SetAll(c, ps + [p], fields) == Set(SetAll(c, ps, fields), p.name, Meant(p.value), fields)
    decreases |ps|
  {
    if ps == [] {
      assert ps + [p] == [p];
    } else {
      assert (ps + [p])[1..] == ps[1..] + [p];
      SetAllLast(Set(c, ps[0].name, Meant(ps[0].value), fields), ps[1..], p, fields);
    }
  }

  lemma {:induction false} LastWins(c: Stated, ps: seq<Param>, fields: Fields)
    ensures
      var scope := LastOf(ps, "scope");
      SetAll(c, ps, fields) == c.(
      realm := Or(LastOf(ps, "realm"), c.realm),
      service := Or(LastOf(ps, "service"), c.service),
      scopes := if scope.Some? then fields(scope.value) else c.scopes)
    decreases |ps|
  {
    if ps != [] {
      var front := ps[..|ps| - 1];
      var p := ps[|ps| - 1];
      assert ps == front + [p];
      SetAllLast(c, front, p, fields);
      LastWins(c, front, fields);
    }
  }

  lemma {:induction false} ParamsRead(ps: seq<Param>, more: string, offered: seq<Stated>, fields: Fields)
    requires GoodParams(ps, more) && Starts(more) && offered != []
    ensures
      ScanFrom(ParamsText(ps) + more, offered, fields) ==
      ScanFrom(more, OnLast(offered, SetAll(offered[|offered| - 1], ps, fields)), fields)
    decreases |ps|
  {
    if ps == [] {
      assert ParamsText(ps) + more == more && OnLast(offered, offered[|offered| - 1]) == offered;
    } else {
      var tail := ParamsText(ps[1..]) + more;
      ParamsFirst(ps, more);
      ParamsStart(ps[1..], more);
      ParamReads(ps[0], tail, offered, fields);
      var next := OnLast(offered, Set(offered[|offered| - 1], ps[0].name, Meant(ps[0].value), fields));
      ParamsRead(ps[1..], more, next, fields);
      SetFirst(ps, offered, fields);
    }
  }

  lemma ParamsFirst(ps: seq<Param>, more: string)
    requires ps != []
    ensures ParamsText(ps) + more == ParamText(ps[0]) + (ParamsText(ps[1..]) + more)
  {
  }

  lemma SetFirst(ps: seq<Param>, offered: seq<Stated>, fields: Fields)
    requires ps != [] && offered != []
    ensures
      var next := OnLast(offered, Set(offered[|offered| - 1], ps[0].name, Meant(ps[0].value), fields));
      && next != []
      && OnLast(next, SetAll(next[|next| - 1], ps[1..], fields))
         == OnLast(offered, SetAll(offered[|offered| - 1], ps, fields))
  {
  }

  lemma ParamsStart(ps: seq<Param>, more: string)
    requires GoodParams(ps, more) && Starts(more)
    ensures Starts(ParamsText(ps) + more)
  {
    if ps == [] {
      assert ParamsText(ps) + more == more;
    } else {
      assert (ParamsText(ps) + more)[0] == ps[0].name[0];
    }
  }

  // ---- a padded token68 ----

  lemma {:induction false} SlashAt(body: string) returns (k: nat)
    requires !All(body, IsTokenChar) && All(body, IsToken68Char)
    ensures k < |body| && body[k] == '/' && All(body[..k], IsTokenChar)
    decreases |body|
  {
    if !IsTokenChar(body[0]) {
      k := 0;
    } else {
      var j := SlashAt(body[1..]);
      k := j + 1;
      assert body[..k] == [body[0]] + body[1..][..j];
    }
  }

  lemma Token68IsToken(body: string)
    requires All(body, IsToken68Char)
    ensures All(body, IsTokenChar) <==> '/' !in body
  {
    if '/' !in body {
      forall i | 0 <= i < |body| ensures IsTokenChar(body[i]) {
        assert body[i] in body;
      }
    }
  }

  /** What the padding leaves behind is no value, and resynchronising stops at the separator. */
  lemma {:induction false} PaddingUnread(pads: nat, trail: string, sep: string, more: string)
    requires All(trail, IsBlank) && All(sep, IsDelim) && (if sep == "" then more == "" else sep[0] == ',')
    ensures Resync(Pads(pads) + (trail + (sep + more))) == sep + more
    decreases pads, |trail|
  {
    var tail := sep + more;
    var s := Pads(pads) + (trail + tail);
    if pads > 0 {
      assert s[1..] == Pads(pads - 1) + (trail + tail);
      PaddingUnread(pads - 1, trail, sep, more);
    } else {
      assert s == trail + tail;
      if trail != "" {
        assert s[1..] == Pads(0) + (trail[1..] + tail);
        PaddingUnread(0, trail[1..], sep, more);
      } else {
        assert s == tail;
      }
    }
  }

  lemma PaddingReads(pads: nat, trail: string, sep: string, more: string) returns (rest: string)
    requires pads > 0 && All(trail, IsBlank) && All(sep, IsDelim) && (if sep == "" then more == "" else sep[0] == ',')
    ensures rest == "" || (!IsBlank(rest[0]) && !IsTokenChar(rest[0]) && rest[0] != '"')
    ensures Pads(pads) + (trail + (sep + more)) == "=" + ((if pads == 1 then trail else "") + rest)
    ensures Resync(rest) == sep + more
  {
    if pads == 1 {
      rest := sep + more;
      assert Pads(1) == "=" && Pads(0) + ("" + rest) == rest;
      PaddingUnread(0, "", sep, more);
    } else {
      rest := Pads(pads - 1) + (trail + (sep + more));
      assert Pads(pads) + (trail + (sep + more)) == "=" + rest;
      assert "" + rest == rest;
      assert rest[0] == Pads(pads - 1)[0] == '=';
      PaddingUnread(pads - 1, trail, sep, more);
    }
  }

  /** Without a slash, a padded token68 voids the challenge it belongs to and nothing else. */
  lemma Token68Voids(
    body: string, pads: nat, trail: string, sep: string, more: string, offered: seq<Stated>, fields: Fields)
    requires IsToken(body) && pads > 0 && All(trail, IsBlank) && All(sep, IsDelim)
    requires (if sep == "" then more == "" else sep[0] == ',') && offered != []
    ensures
      ScanFrom(body + (Pads(pads) + (trail + (sep + more))), offered, fields) ==
      ScanFrom(more, OnLast(offered, VOID), fields)
  {
    var rest := PaddingReads(pads, trail, sep, more);
    var after := if pads == 1 then trail else "";
    assert Pads(pads) + (trail + (sep + more)) == "" + ("=" + (after + rest));
    NameReads(body, "", after, rest, offered, fields);
    assert Value(rest) == Read(None, rest);
    DelimsAbsorbed(sep, more, OnLast(offered, VOID), fields);
  }

  /** With a slash, the whole header is unreadable. */
  lemma SlashEndsScan(body: string, more: string, offered: seq<Stated>, fields: Fields)
    requires All(body, IsToken68Char) && '/' in body
    ensures ScanFrom(body + more, offered, fields) == Err(Unreadable)
  {
    Token68IsToken(body);
    var k := SlashAt(body);
    var rest := body[k..] + more;
    assert body + more == body[..k] + rest && rest[0] == '/';
    assert Skip(rest, IsDelim) == rest && Token(rest).value.None?;
    if k > 0 {
      TokenCharIsNoDelim(body[0]);
      assert Skip(body + more, IsDelim) == body + more;
      TokenReads(body[..k], rest);
      assert AfterEquals(rest) == None;
      assert ScanFrom(body + more, offered, fields) == ScanFrom(rest, offered + [VOID.(scheme := Lower(body[..k]))], fields);
    } else {
      assert rest == body + more;
    }
  }

  // ---- whole headers ----

  predicate Readable(ws: seq<Written>) {
    forall i :: 0 <= i < |ws| ==> ws[i].WithToken68? ==> '/' !in ws[i].body
  }

  lemma TextsStart(ws: seq<Written>)
    requires AllGood(ws, "")
    ensures Starts(Texts(ws))
  {
  }

  lemma ParamsChallengeReads(w: Written, more: string, offered: seq<Stated>, fields: Fields)
    requires w.WithParams? && Good(w, more) && Starts(more)
    ensures ScanFrom(Text(w) + more, offered, fields) == ScanFrom(more, offered + Meaning(w, fields), fields)
  {
    var named := offered + [Alone(w.scheme)];
    var tail := ParamsText(w.params) + more;
    TextOfParams(w, more);
    ParamsStart(w.params, more);
    SchemeReads(w.scheme, w.gap, tail, offered, fields);
    ParamsRead(w.params, more, named, fields);
    LastWins(named[|offered|], w.params, fields);
    LastOfNamed(offered, Alone(w.scheme), ParamsMeaning(w.scheme, w.params, fields));
  }

  lemma TextOfParams(w: Written, more: string)
    requires w.WithParams?
    ensures Text(w) + more == w.scheme + (w.gap + (ParamsText(w.params) + more))
  {
  }

  lemma TextOfToken68(w: Written, more: string)
    requires w.WithToken68?
    ensures Text(w) + more == w.scheme + (w.gap + (w.body + (Pads(w.pads) + (w.trail + (w.sep + more)))))
  {
  }

  lemma LastOfNamed(offered: seq<Stated>, first: Stated, meant: Stated)
    ensures OnLast(offered + [first], meant) == offered + [meant]
  {
  }

  lemma PaddedChallengeReads(w: Written, more: string, offered: seq<Stated>, fields: Fields)
    requires w.WithToken68? && w.pads > 0 && Good(w, more) && Starts(more) && '/' !in w.body
    ensures ScanFrom(Text(w) + more, offered, fields) == ScanFrom(more, offered + [VOID], fields)
  {
    var tail := w.body + (Pads(w.pads) + (w.trail + (w.sep + more)));
    TextOfToken68(w, more);
    Token68IsToken(w.body);
    SchemeReads(w.scheme, w.gap, tail, offered, fields);
    Token68Voids(w.body, w.pads, w.trail, w.sep, more, offered + [Alone(w.scheme)], fields);
    LastOfNamed(offered, Alone(w.scheme), VOID);
  }

  /** Without padding nothing tells a token68 from the next challenge's scheme. */
  lemma UnpaddedChallengeReads(w: Written, more: string, offered: seq<Stated>, fields: Fields)
    requires w.WithToken68? && w.pads == 0 && Good(w, more) && Starts(more) && '/' !in w.body
    ensures
      ScanFrom(Text(w) + more, offered, fields) == ScanFrom(more, offered + [Alone(w.scheme), Alone(w.body)], fields)
  {
    var gap := w.trail + w.sep;
    TextOfUnpadded(w, more);
    Token68IsToken(w.body);
    TrailSeparates(w, more);
    SchemeReads(w.scheme, w.gap, w.body + (gap + more), offered, fields);
    SchemeReads(w.body, gap, more, offered + [Alone(w.scheme)], fields);
    TwoMore(offered, Alone(w.scheme), Alone(w.body));
  }

  lemma TextOfUnpadded(w: Written, more: string)
    requires w.WithToken68? && w.pads == 0
    ensures Text(w) + more == w.scheme + (w.gap + (w.body + ((w.trail + w.sep) + more)))
  {
    TextOfToken68(w, more);
    assert Pads(0) + (w.trail + (w.sep + more)) == (w.trail + w.sep) + more;
  }

  lemma TrailSeparates(w: Written, more: string)
    requires w.WithToken68? && Good(w, more)
    ensures Separates(w.trail + w.sep, more)
  {
  }

  lemma TwoMore<T>(offered: seq<T>, first: T, second: T)
    ensures offered + [first] + [second] == offered + [first, second]
  {
  }

  lemma OneReads(w: Written, more: string, offered: seq<Stated>, fields: Fields)
    requires Good(w, more) && Starts(more) && (w.WithToken68? ==> '/' !in w.body)
    ensures ScanFrom(Text(w) + more, offered, fields) == ScanFrom(more, offered + Meaning(w, fields), fields)
  {
    match w
    case WithParams(_, _, _) => ParamsChallengeReads(w, more, offered, fields);
    case WithToken68(_, _, _, pads, _, _) =>
      if pads > 0 {
        PaddedChallengeReads(w, more, offered, fields);
      } else {
        UnpaddedChallengeReads(w, more, offered, fields);
      }
  }

  lemma SlashEnds(w: Written, more: string, offered: seq<Stated>, fields: Fields)
    requires Good(w, more) && w.WithToken68? && '/' in w.body
    ensures ScanFrom(Text(w) + more, offered, fields) == Err(Unreadable)
  {
    var after := Pads(w.pads) + (w.trail + (w.sep + more));
    var tail := w.body + after;
    assert Text(w) + more == w.scheme + (w.gap + tail);
    TokenCharIsNoDelim(w.scheme[0]);
    assert Skip(w.scheme + (w.gap + tail), IsDelim) == w.scheme + (w.gap + tail);
    DelimEndsToken(w.gap[0]);
    TokenReads(w.scheme, w.gap + tail);
    NoEqualsBeforeBody(w.gap, tail);
    DelimsAbsorbed(w.gap, tail, offered + [VOID.(scheme := Lower(w.scheme))], fields);
    SlashEndsScan(w.body, after, offered + [VOID.(scheme := Lower(w.scheme))], fields);
  }

  lemma NoEqualsBeforeBody(gap: string, tail: string)
    requires All(gap, IsDelim) && tail != "" && IsToken68Char(tail[0])
    ensures AfterEquals(gap + tail) == None
  {
    BlanksEnd(gap, tail);
  }

  lemma {:induction false} ListReads(ws: seq<Written>, offered: seq<Stated>, fields: Fields)
    requires AllGood(ws, "")
    ensures ScanFrom(Texts(ws), offered, fields) == if Readable(ws) then Ok(offered + Meanings(ws, fields)) else Err(Unreadable)
    decreases |ws|
  {
    if ws == [] {
      assert offered + Meanings(ws, fields) == offered;
    } else {
      var more := Texts(ws[1..]);
      assert more + "" == more;
      TextsStart(ws[1..]);
      if ws[0].WithToken68? && '/' in ws[0].body {
        SlashEnds(ws[0], more, offered, fields);
      } else {
        OneReads(ws[0], more, offered, fields);
        ListReads(ws[1..], offered + Meaning(ws[0], fields), fields);
        MeaningsOnward(ws, offered, fields);
      }
      ReadableFirst(ws);
    }
  }

  lemma MeaningsOnward(ws: seq<Written>, offered: seq<Stated>, fields: Fields)
    requires ws != []
    ensures offered + Meaning(ws[0], fields) + Meanings(ws[1..], fields) == offered + Meanings(ws, fields)
  {
  }

  lemma ReadableFirst(ws: seq<Written>)
    requires ws != []
    ensures Readable(ws) <==> (ws[0].WithToken68? ==> '/' !in ws[0].body) && Readable(ws[1..])
  {
    if Readable(ws[1..]) {
      assert forall i :: 0 < i < |ws| ==> ws[i] == ws[1..][i - 1];
    }
  }

  /** Whatever quoting, escaping, white space and empty list elements are used, the reader recovers the
      challenges written with parameters, voids one with a padded token68, and takes a token68 without
      padding for one more scheme. When any token68 contains a slash, it reads nothing. */
  lemma ScanReadsWhatWasWritten(lead: string, ws: seq<Written>, fields: Fields)
    requires All(lead, IsDelim) && AllGood(ws, "")
    ensures Scan(lead + Texts(ws), fields) == if Readable(ws) then Ok(Meanings(ws, fields)) else Err(Unreadable)
  {
    DelimsAbsorbed(lead, Texts(ws), [], fields);
    ListReads(ws, [], fields);
    assert [] + Meanings(ws, fields) == Meanings(ws, fields);
  }

  // ---- isolation ----

  lemma {:induction false} FirstOfJoined(a: seq<Stated>, b: seq<Stated>, scheme: string)
    ensures FirstOf(a + b, scheme) == if FirstOf(a, scheme).Some? then FirstOf(a, scheme) else FirstOf(b, scheme)
    decreases |a|
  {
    if a == [] {
      assert a + b == b;
    } else {
      assert (a + b)[1..] == a[1..] + b;
      FirstOfJoined(a[1..], b, scheme);
    }
  }

  /** A token68 between the challenges before and after leaves the one picked as it was: it is padded, or
      neither its scheme nor its body names a scheme that would now be picked first. */
  predicate LeavesPick(before: seq<Stated>, w: Written, after: seq<Stated>)
    requires w.WithToken68?
  {
    var names := {Lower(w.scheme), Lower(w.body)};
    if w.pads > 0 then true
    else if "bearer" in names then
      var later := FirstOf(after, "bearer");
      FirstOf(before, "bearer").Some? || (later.Some? && later.value.realm == "")
    else if "basic" in names then
      || FirstOf(before, "bearer").Some? || FirstOf(after, "bearer").Some?
      || FirstOf(before, "basic").Some? || FirstOf(after, "basic") == Some(Alone("basic"))
    else true
  }

  lemma FirstOfOne(c: Stated, scheme: string)
    ensures FirstOf([c], scheme) == if c.scheme == scheme then Some(c) else None
  {
    assert [c][1..] == [];
  }

  lemma FirstOfMeaning(w: Written, scheme: string, fields: Fields)
    requires w.WithToken68? && scheme != ""
    ensures
      FirstOf(Meaning(w, fields), scheme) ==
      if w.pads == 0 && scheme in {Lower(w.scheme), Lower(w.body)} then Some(VOID.(scheme := scheme)) else None
  {
    if w.pads == 0 {
      assert Meaning(w, fields) == [Alone(w.scheme)] + [Alone(w.body)];
      FirstOfJoined([Alone(w.scheme)], [Alone(w.body)], scheme);
      FirstOfOne(Alone(w.scheme), scheme);
      FirstOfOne(Alone(w.body), scheme);
    } else {
      FirstOfOne(VOID, scheme);
    }
  }

  lemma FirstOfInserted(before: seq<Stated>, w: Written, after: seq<Stated>, scheme: string, fields: Fields)
    requires w.WithToken68? && scheme != ""
    ensures
      FirstOf(before + Meaning(w, fields) + after, scheme) ==
      if FirstOf(before, scheme).Some? then FirstOf(before, scheme)
      else if w.pads == 0 && scheme in {Lower(w.scheme), Lower(w.body)} then Some(VOID.(scheme := scheme))
      else FirstOf(after, scheme)
  {
    FirstOfJoined(before + Meaning(w, fields), after, scheme);
    FirstOfJoined(before, Meaning(w, fields), scheme);
    FirstOfMeaning(w, scheme, fields);
  }

  lemma PickInserted(before: seq<Stated>, w: Written, after: seq<Stated>, fields: Fields)
    requires w.WithToken68?
    ensures Pick(before + Meaning(w, fields) + after) == Pick(before + after) <==> LeavesPick(before, w, after)
  {
    FirstOfInserted(before, w, after, "bearer", fields);
    FirstOfInserted(before, w, after, "basic", fields);
    FirstOfJoined(before, after, "bearer");
    FirstOfJoined(before, after, "basic");
    LowerKept();
  }

  lemma LowerKept()
    ensures Lower("basic") == "basic" && Lower("bearer") == "bearer"
  {
  }

  /** Inserting w leaves the challenge picked as it was: the header was too long anyway, or there was one, it
      still fits, w has no slash, and w is padded or names no scheme that would be picked first. */
  predicate LeavesAnswer(without: string, with': string, before: seq<Stated>, w: Written, after: seq<Stated>)
    requires w.WithToken68?
  {
    || |without| > CHALLENGE_LIMIT
    || (without != "" && |with'| <= CHALLENGE_LIMIT && '/' !in w.body && LeavesPick(before, w, after))
  }

  /** A challenge with a token68, written anywhere in a list, leaves every other challenge as it was
      exactly when the token68 has no slash, and the answer read from the header exactly when
      LeavesAnswer says so. */
  lemma Isolation(lead: string, a: seq<Written>, w: Written, b: seq<Written>, fields: Fields)
    requires All(lead, IsDelim) && w.WithToken68?
    requires AllGood(a + [w] + b, "") && AllGood(a + b, "") && Readable(a + b)
    ensures
      Scan(lead + Texts(a + [w] + b), fields) ==
      if '/' in w.body then Err(Unreadable) else Ok(Meanings(a, fields) + Meaning(w, fields) + Meanings(b, fields))
    ensures Scan(lead + Texts(a + b), fields) == Ok(Meanings(a, fields) + Meanings(b, fields))
    ensures
      Parse(lead + Texts(a + [w] + b), fields) == Parse(lead + Texts(a + b), fields) <==>
      LeavesAnswer(lead + Texts(a + b), lead + Texts(a + [w] + b), Meanings(a, fields), w, Meanings(b, fields))
  {
    ScanReadsWhatWasWritten(lead, a + [w] + b, fields);
    ScanReadsWhatWasWritten(lead, a + b, fields);
    MeaningsOfParts(a, w, b, fields);
    ReadableParts(a, w, b);
    PickInserted(Meanings(a, fields), w, Meanings(b, fields), fields);
    InsertedIsLonger(a, w, b);
  }

  lemma {:induction false} TextsJoined(a: seq<Written>, b: seq<Written>)
    ensures |Texts(a + b)| == |Texts(a)| + |Texts(b)|
    decreases |a|
  {
    if a == [] {
      assert a + b == b;
    } else {
      assert (a + b)[1..] == a[1..] + b;
      TextsJoined(a[1..], b);
    }
  }

  lemma InsertedIsLonger(a: seq<Written>, w: Written, b: seq<Written>)
    requires AllGood(a + [w] + b, "")
    ensures |Texts(a + [w] + b)| > |Texts(a + b)|
  {
    TextsJoined(a + [w], b);
    TextsJoined(a, [w]);
    TextsJoined(a, b);
    assert [w][1..] == [];
    GoodAt(a + [w] + b, |a|);
    assert (a + [w] + b)[|a|] == w;
  }

  lemma {:induction false} GoodAt(ws: seq<Written>, i: nat)
    requires AllGood(ws, "") && i < |ws|
    ensures ws[i].scheme != ""
    decreases i
  {
    if i > 0 {
      GoodAt(ws[1..], i - 1);
    }
  }

  /** The header "Basic realm=x, ". */
  const BASIC := WithParams("Basic", " ", [Param("realm", "", "", Bare("x"), ", ")])

  /** And what "Negotiate bearer" is meant to be. */
  const NEGOTIATE := WithToken68("Negotiate", " ", "bearer", 0, "", "")

  lemma BasicIsGood(more: string)
    ensures Good(BASIC, more)
  {
    assert IsToken("Basic") && IsToken("realm") && IsToken("x");
    assert BASIC.params[1..] == [];
  }

  lemma NegotiateIsGood()
    ensures Good(NEGOTIATE, "")
  {
    assert IsToken("Negotiate") && All("bearer", IsToken68Char);
  }

  lemma BasicMeans(fields: Fields)
    ensures Meaning(BASIC, fields) == [Stated("basic", "x", "", [])]
  {
    var ps := BASIC.params;
    assert ps[..0] == [];
    assert Lower("realm") == "realm" && Lower("Basic") == "basic";
    assert LastOf(ps, "realm") == Some("x") && LastOf(ps, "service") == None && LastOf(ps, "scope") == None;
  }

  lemma ParsedIs(ws: seq<Written>, offered: seq<Stated>, fields: Fields)
    requires AllGood(ws, "") && Readable(ws) && Meanings(ws, fields) == offered
    requires 0 < |Texts(ws)| <= CHALLENGE_LIMIT
    ensures Parse(Texts(ws), fields) == Pick(offered)
  {
    ScanReadsWhatWasWritten("", ws, fields);
    assert "" + Texts(ws) == Texts(ws);
  }

  lemma ShortTexts()
    ensures 0 < |Texts([BASIC])| < 100 && 0 < |Texts([BASIC, NEGOTIATE])| < 100
  {
    TextsJoined([BASIC], [NEGOTIATE]);
    assert [BASIC] + [NEGOTIATE] == [BASIC, NEGOTIATE];
    assert [BASIC][1..] == [] && [NEGOTIATE][1..] == [] && BASIC.params[1..] == [];
    assert |Text(BASIC)| == |"Basic realm=x, "| && |Text(NEGOTIATE)| == |"Negotiate bearer"|;
  }

  lemma TwoMean(fields: Fields)
    ensures Meanings([BASIC], fields) == Meaning(BASIC, fields)
    ensures Meanings([BASIC, NEGOTIATE], fields) == Meaning(BASIC, fields) + Meaning(NEGOTIATE, fields)
  {
    MeaningsJoined([BASIC], [NEGOTIATE], fields);
    assert [BASIC] + [NEGOTIATE] == [BASIC, NEGOTIATE];
    assert [BASIC][1..] == [] && [NEGOTIATE][1..] == [];
  }

  /** A challenge nobody has to answer, written after it, costs a Basic challenge the pick. */
  lemma NegotiateTakesThePick(fields: Fields)
    ensures Parse(Texts([BASIC]), fields) == Ok(Stated("basic", "x", "", []))
    ensures Parse(Texts([BASIC, NEGOTIATE]), fields) == Err(NoRealm)
  {
    BothAreGood();
    TwoMean(fields);
    BasicMeans(fields);
    NegotiateMeans(fields);
    PickedOfThree();
    ShortTexts();
    ParsedIs([BASIC], Meaning(BASIC, fields), fields);
    ParsedIs([BASIC, NEGOTIATE], Meaning(BASIC, fields) + Meaning(NEGOTIATE, fields), fields);
  }

  lemma BothAreGood()
    ensures AllGood([BASIC], "") && AllGood([BASIC, NEGOTIATE], "")
    ensures Readable([BASIC]) && Readable([BASIC, NEGOTIATE])
  {
    BasicIsGood(Texts([]) + "");
    BasicIsGood(Texts([NEGOTIATE]) + "");
    NegotiateIsGood();
    assert [BASIC][1..] == [] && [BASIC, NEGOTIATE][1..] == [NEGOTIATE] && [NEGOTIATE][1..] == [];
    assert Texts([]) + "" == "";
  }

  lemma NegotiateMeans(fields: Fields)
    ensures Meaning(NEGOTIATE, fields) == [VOID.(scheme := "negotiate"), VOID.(scheme := "bearer")]
  {
    assert Lower("Negotiate") == "negotiate" && Lower("bearer") == "bearer";
  }

  lemma PickedOfThree()
    ensures Pick([Stated("basic", "x", "", [])]) == Ok(Stated("basic", "x", "", []))
    ensures
      var three := [Stated("basic", "x", "", [])] + [VOID.(scheme := "negotiate"), VOID.(scheme := "bearer")];
      Pick(three) == Err(NoRealm)
  {
    var one, two := [Stated("basic", "x", "", [])], [VOID.(scheme := "negotiate"), VOID.(scheme := "bearer")];
    FirstOfJoined(one, two, "bearer");
    assert one[1..] == [] && two[1..] == [VOID.(scheme := "bearer")];
  }

  lemma {:induction false} MeaningsJoined(a: seq<Written>, b: seq<Written>, fields: Fields)
    ensures Meanings(a + b, fields) == Meanings(a, fields) + Meanings(b, fields)
    decreases |a|
  {
    if a == [] {
      assert a + b == b;
    } else {
      assert (a + b)[1..] == a[1..] + b;
      MeaningsJoined(a[1..], b, fields);
    }
  }

  lemma MeaningsOfParts(a: seq<Written>, w: Written, b: seq<Written>, fields: Fields)
    ensures Meanings(a + [w] + b, fields) == Meanings(a, fields) + Meaning(w, fields) + Meanings(b, fields)
    ensures Meanings(a + b, fields) == Meanings(a, fields) + Meanings(b, fields)
  {
    MeaningsJoined(a + [w], b, fields);
    MeaningsJoined(a, [w], fields);
    MeaningsJoined(a, b, fields);
    assert [w][1..] == [] && Meanings([w], fields) == Meaning(w, fields);
  }

  lemma ReadableParts(a: seq<Written>, w: Written, b: seq<Written>)
    requires Readable(a + b) && w.WithToken68?
    ensures Readable(a + [w] + b) <==> '/' !in w.body
  {
    var all := a + [w] + b;
    assert all[|a|] == w;
    forall i | 0 <= i < |all| && i != |a| ensures all[i].WithToken68? ==> '/' !in all[i].body {
      assert all[i] == (a + b)[if i < |a| then i else i - 1];
    }
  }
}
