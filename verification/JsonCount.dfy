/** The layer counter of internal/manifest/decode.go against the grammar of sections 2 to 7 of RFC 8259.
    A document is one char per byte. */
module JsonCount {
  import opened Base
  import SplitPlan

  // ---- the grammar ----

  /** One character of a string, or a backslash and what it escapes. The four digits after an escaped u
      are plain. */
  datatype Piece = Plain(c: char) | Escaped(c: char)

  /** A member's name and the white space before its colon and after it. */
  datatype Key = Key(name: seq<Piece>, beforeColon: string, afterColon: string)

  /** An element of an array, or with a key a member of an object, and the white space around it. */
  datatype Slot = Slot(before: string, key: Option<Key>, value: Json, after: string)

  /** blank is the white space between the delimiters of an empty array or object. */
  datatype Json =
    | Atom(text: string)
    | Text(pieces: seq<Piece>)
    | Array(blank: string, elements: seq<Slot>)
    | Object(blank: string, members: seq<Slot>)

  predicate IsSpace(c: char) {
    c == ' ' || c == '\t' || c == '\r' || c == '\n'
  }

  predicate IsAtomChar(c: char) {
    'a' <= c <= 'z' || 'A' <= c <= 'Z' || '0' <= c <= '9' || c in "+-."
  }

  /** A space, a tab, a line feed or a carriage return: section 2 of RFC 8259. */
  lemma SpacesAre(c: char)
    ensures IsSpace(c) <==> c as int in {0x20, 0x09, 0x0A, 0x0D}
  {
  }

  predicate Spaces(s: string) {
    forall i :: 0 <= i < |s| ==> IsSpace(s[i])
  }

  predicate GoodPieces(ps: seq<Piece>) {
    forall i :: 0 <= i < |ps| ==> ps[i].Plain? ==> ps[i].c != '"' && ps[i].c != '\\'
  }

  predicate GoodKey(k: Key) {
    GoodPieces(k.name) && Spaces(k.beforeColon) && Spaces(k.afterColon)
  }

  /** Numbers, true, false and null are kept as words of their characters. */
  predicate Good(v: Json) {
    match v
    case Atom(text) => text != "" && forall i :: 0 <= i < |text| ==> IsAtomChar(text[i])
    case Text(pieces) => GoodPieces(pieces)
    case Array(blank, elements) => Spaces(blank) && GoodSlots(elements, false)
    case Object(blank, members) => Spaces(blank) && GoodSlots(members, true)
  }

  predicate GoodSlots(slots: seq<Slot>, keyed: bool) {
    slots == [] || (GoodSlot(slots[0], keyed) && GoodSlots(slots[1..], keyed))
  }

  predicate GoodSlot(s: Slot, keyed: bool) {
    && Spaces(s.before) && Spaces(s.after) && s.key.Some? == keyed
    && (s.key.Some? ==> GoodKey(s.key.value)) && Good(s.value)
  }

  function PiecesText(ps: seq<Piece>): string {
    if ps == [] then ""
    else (if ps[0].Escaped? then "\\" + [ps[0].c] else [ps[0].c]) + PiecesText(ps[1..])
  }

  function Quoted(ps: seq<Piece>): string {
    "\"" + (PiecesText(ps) + "\"")
  }

  function KeyText(k: Option<Key>): string {
    if k.None? then "" else Quoted(k.value.name) + (k.value.beforeColon + (":" + k.value.afterColon))
  }

  function Document(v: Json): string {
    match v
    case Atom(text) => text
    case Text(pieces) => Quoted(pieces)
    case Array(blank, elements) => "[" + (if elements == [] then blank + "]" else SlotsText(elements) + "]")
    case Object(blank, members) => "{" + (if members == [] then blank + "}" else SlotsText(members) + "}")
  }

  /** Elements are separated by commas. */
  function SlotsText(slots: seq<Slot>): string {
    if slots == [] then ""
    else SlotText(slots[0]) + (if |slots| == 1 then "" else "," + SlotsText(slots[1..]))
  }

  function SlotText(s: Slot): string {
    s.before + (KeyText(s.key) + (Document(s.value) + s.after))
  }

  // ---- the counter as a machine that reads one character ----

  datatype Reader = Reader(depth: int, count: nat, inString: bool, escaped: bool)

  /** advanceJSONString. */
  function InString(r: Reader, c: char): Reader {
    if r.escaped then r.(escaped := false)
    else if c == '\\' then r.(escaped := true)
    else if c == '"' then r.(inString := false)
    else r
  }

  function Step(r: Reader, c: char): (t: Reader)
    ensures t.count >= r.count
  {
    if r.inString then InString(r, c)
    else if c == '"' then r.(inString := true)
    else if c == '{' || c == '[' then r.(depth := r.depth + 1)
    else if c == '}' || c == ']' then r.(depth := r.depth - 1)
    else if c == ',' && r.depth == 1 then r.(count := r.count + 1)
    else r
  }

  function Reads(r: Reader, s: string): (t: Reader)
    ensures t.count >= r.count
    decreases |s|
  {
    if s == "" then r else Reads(Step(r, s[0]), s[1..])
  }

  /** Reading s never goes above depth d, before or after any character. */
  predicate Stays(r: Reader, s: string, d: int)
    decreases |s|
  {
    r.depth >= d && (s == "" || Stays(Step(r, s[0]), s[1..], d))
  }

  /** Reading s from r ends in t, and stays at depth d or deeper. */
  predicate Passes(r: Reader, s: string, t: Reader, d: int) {
    Reads(r, s) == t && Stays(r, s, d)
  }

  lemma {:induction false} PassesThen(r: Reader, a: string, t: Reader, b: string, u: Reader, d: int)
    requires Passes(r, a, t, d) && Passes(t, b, u, d)
    ensures Passes(r, a + b, u, d)
    decreases |a|
  {
    if a == "" {
      assert a + b == b;
    } else {
      assert (a + b)[1..] == a[1..] + b;
      PassesThen(Step(r, a[0]), a[1..], t, b, u, d);
    }
  }

  lemma {:induction false} Shallower(r: Reader, s: string, d: int, e: int)
    requires Stays(r, s, d) && e <= d
    ensures Stays(r, s, e)
    decreases |s|
  {
    if s != "" {
      Shallower(Step(r, s[0]), s[1..], d, e);
    }
  }

  // ---- reading one value leaves the counter where it was ----

  /** Between elements, at depth d. */
  function Between(d: int, count: nat): Reader {
    Reader(d, count, false, false)
  }

  predicate Inert(s: string) {
    forall i :: 0 <= i < |s| ==> IsSpace(s[i]) || IsAtomChar(s[i]) || s[i] == ':'
  }

  lemma {:induction false} InertPasses(s: string, d: int, n: nat)
    requires Inert(s)
    ensures Passes(Between(d, n), s, Between(d, n), d)
    decreases |s|
  {
    if s != "" {
      InertPasses(s[1..], d, n);
    }
  }

  lemma {:induction false} PiecesPass(ps: seq<Piece>, d: int, n: nat)
    requires GoodPieces(ps)
    ensures Passes(Reader(d, n, true, false), PiecesText(ps), Reader(d, n, true, false), d)
    decreases |ps|
  {
    var r := Reader(d, n, true, false);
    if ps != [] {
      PiecesPass(ps[1..], d, n);
      if ps[0].Escaped? {
        var two := "\\" + [ps[0].c];
        assert two[1..] == [ps[0].c] && [ps[0].c][1..] == "";
        assert Reads(r, two) == Reads(r.(escaped := true), [ps[0].c]) == r;
        assert Stays(r.(escaped := true), [ps[0].c], d);
        PassesThen(r, two, r, PiecesText(ps[1..]), r, d);
      } else {
        assert Passes(r, [ps[0].c], r, d);
        PassesThen(r, [ps[0].c], r, PiecesText(ps[1..]), r, d);
      }
    }
  }

  lemma QuotedPasses(ps: seq<Piece>, d: int, n: nat)
    requires GoodPieces(ps)
    ensures Passes(Between(d, n), Quoted(ps), Between(d, n), d)
  {
    var r := Between(d, n);
    var q := Reader(d, n, true, false);
    PiecesPass(ps, d, n);
    assert Passes(q, "\"", r, d) && Passes(r, "\"", q, d);
    PassesThen(q, PiecesText(ps), q, "\"", r, d);
    PassesThen(r, "\"", q, PiecesText(ps) + "\"", r, d);
  }

  lemma KeyPasses(k: Option<Key>, d: int, n: nat)
    requires k.Some? ==> GoodKey(k.value)
    ensures Passes(Between(d, n), KeyText(k), Between(d, n), d)
  {
    if k.Some? {
      var tail := k.value.beforeColon + (":" + k.value.afterColon);
      QuotedPasses(k.value.name, d, n);
      InertPasses(tail, d, n);
      PassesThen(Between(d, n), Quoted(k.value.name), Between(d, n), tail, Between(d, n), d);
    }
  }

  /** A value counts nothing outside itself, whatever its nesting, white space, strings and escapes. */
  lemma {:induction false} ValuePasses(v: Json, d: int, n: nat)
    requires Good(v) && d >= 1
    ensures Passes(Between(d, n), Document(v), Between(d, n), d)
    decreases v
  {
    match v
    case Atom(text) => InertPasses(text, d, n);
    case Text(pieces) => QuotedPasses(pieces, d, n);
    case Array(blank, elements) =>
      InsidePasses(blank, elements, false, d + 1, n);
      DelimitedPasses("[", Inside(blank, elements), "]", d, n);
    case Object(blank, members) =>
      InsidePasses(blank, members, true, d + 1, n);
      DelimitedPasses("{", Inside(blank, members), "}", d, n);
  }

  /** What stands between the delimiters. */
  function Inside(blank: string, slots: seq<Slot>): string {
    if slots == [] then blank else SlotsText(slots)
  }

  lemma DelimitedPasses(open: string, inside: string, close: string, d: int, n: nat)
    requires (open == "[" && close == "]") || (open == "{" && close == "}")
    requires Passes(Between(d + 1, n), inside, Between(d + 1, n), d + 1)
    ensures Passes(Between(d, n), open + (inside + close), Between(d, n), d)
  {
    Shallower(Between(d + 1, n), inside, d + 1, d);
    assert Passes(Between(d + 1, n), close, Between(d, n), d);
    assert Passes(Between(d, n), open, Between(d + 1, n), d);
    PassesThen(Between(d + 1, n), inside, Between(d + 1, n), close, Between(d, n), d);
    PassesThen(Between(d, n), open, Between(d + 1, n), inside + close, Between(d, n), d);
  }

  lemma {:induction false} InsidePasses(blank: string, slots: seq<Slot>, keyed: bool, d: int, n: nat)
    requires Spaces(blank) && GoodSlots(slots, keyed) && d >= 2
    ensures Passes(Between(d, n), Inside(blank, slots), Between(d, n), d)
    decreases slots, 1
  {
    if slots == [] {
      InertPasses(blank, d, n);
    } else {
      SlotsPass(slots, keyed, d, n);
    }
  }

  /** At depth 1 each comma between elements counts; deeper none does. */
  lemma {:induction false} SlotsPass(slots: seq<Slot>, keyed: bool, d: int, n: nat)
    requires slots != [] && GoodSlots(slots, keyed) && d >= 1
    ensures Passes(Between(d, n), SlotsText(slots), Between(d, if d == 1 then n + |slots| - 1 else n), d)
    decreases slots, 0
  {
    var r := Between(d, n);
    SlotPasses(slots[0], keyed, d, n);
    if |slots| == 1 {
      assert SlotText(slots[0]) + "" == SlotText(slots[0]);
    } else {
      var m := if d == 1 then n + 1 else n;
      var end := Between(d, if d == 1 then n + |slots| - 1 else n);
      SlotsPass(slots[1..], keyed, d, m);
      assert Passes(r, ",", Between(d, m), d);
      PassesThen(r, ",", Between(d, m), SlotsText(slots[1..]), end, d);
      PassesThen(r, SlotText(slots[0]), r, "," + SlotsText(slots[1..]), end, d);
    }
  }

  lemma {:induction false} SlotPasses(s: Slot, keyed: bool, d: int, n: nat)
    requires GoodSlot(s, keyed) && d >= 1
    ensures Passes(Between(d, n), SlotText(s), Between(d, n), d)
    decreases s
  {
    var r := Between(d, n);
    InertPasses(s.before, d, n);
    InertPasses(s.after, d, n);
    KeyPasses(s.key, d, n);
    ValuePasses(s.value, d, n);
    PassesThen(r, Document(s.value), r, s.after, r, d);
    PassesThen(r, KeyText(s.key), r, Document(s.value) + s.after, r, d);
    PassesThen(r, s.before, r, KeyText(s.key) + (Document(s.value) + s.after), r, d);
  }

  // ---- reading up to a position ----

  lemma {:induction false} UpTo(r: Reader, s: string, d: int, k: nat)
    requires Stays(r, s, d) && k <= |s|
    ensures Reads(r, s[..k]).depth >= d && Reads(r, s) == Reads(Reads(r, s[..k]), s[k..])
    ensures k < |s| ==> Reads(r, s[..k + 1]) == Step(Reads(r, s[..k]), s[k])
    ensures k < |s| ==> Reads(r, s[..k + 1]).depth >= d
    decreases k
  {
    if k == 0 {
      assert s[..0] == "" && s[0..] == s;
      if s != "" {
        assert s[..1] == [s[0]] && [s[0]][1..] == "";
      }
    } else {
      assert s[..k][1..] == s[1..][..k - 1] && s[k..] == s[1..][k - 1..];
      UpTo(Step(r, s[0]), s[1..], d, k - 1);
      if k < |s| {
        assert s[..k + 1][1..] == s[1..][..k];
      }
    }
  }

  /** Leading spaces move nothing. */
  lemma {:induction false} SpacesRead(s: string, d: int, n: nat)
    requires Spaces(s)
    ensures Reads(Between(d, n), s) == Between(d, n)
  {
    InertPasses(s, d, n);
  }

  lemma ValueStarts(v: Json)
    requires Good(v)
    ensures Document(v) != "" && !IsSpace(Document(v)[0]) && Document(v)[0] != ']'
    ensures Document(v)[0] == '[' <==> v.Array?
  {
  }

  lemma SlotsStart(slots: seq<Slot>)
    requires slots != [] && GoodSlots(slots, false)
    ensures
      var s := SlotsText(slots);
      var k := |slots[0].before|;
      k < |s| && s[..k] == slots[0].before && !IsSpace(s[k]) && s[k] != ']'
  {
    var f := slots[0];
    ValueStarts(f.value);
    assert SlotText(f) == f.before + ("" + (Document(f.value) + f.after));
    assert SlotText(f)[|f.before|] == Document(f.value)[0];
  }

  // ---- the code ----

  method SkipSpace(data: string, start: nat) returns (offset: nat)
    requires start <= |data|
    ensures start <= offset <= |data| && Spaces(data[start..offset]) && (offset < |data| ==> !IsSpace(data[offset]))
  {
    offset := start;
    while offset < |data|
      invariant start <= offset <= |data| && Spaces(data[start..offset])
    {
      if !IsSpace(data[offset]) {
        return;
      }
      assert data[start..offset + 1] == data[start..offset] + [data[offset]];
      offset := offset + 1;
    }
  }

  /** Skipping stops where the text after the spaces begins. */
  lemma SkipsTo(data: string, start: nat, offset: nat, lead: string, more: string)
    requires start <= offset <= |data| && Spaces(data[start..offset]) && (offset < |data| ==> !IsSpace(data[offset]))
    requires data[start..] == lead + more && Spaces(lead) && more != "" && !IsSpace(more[0])
    ensures offset == start + |lead| && data[offset] == more[0]
  {
    var at := start + |lead|;
    assert data[at] == data[start..][|lead|] == more[0];
    forall i | start <= i < offset ensures IsSpace(data[i]) {
      assert data[start..offset][i - start] == data[i];
    }
    assert offset <= at;
    forall i | start <= i < at ensures IsSpace(data[i]) {
      assert data[i] == data[start..][i - start] == lead[i - start];
    }
  }

  method AdvanceString(character: char, inString: bool, escaped: bool) returns (stillIn: bool, nowEscaped: bool)
    requires inString
    ensures forall depth, count ::
              Reader(depth, count, stillIn, nowEscaped) == InString(Reader(depth, count, inString, escaped), character)
  {
    stillIn, nowEscaped := inString, escaped;
    if escaped {
      nowEscaped := false;
    } else if character == '\\' {
      nowEscaped := true;
    } else if character == '"' {
      stillIn := false;
    }
  }

  /** The length, or one more than the limit when it is past it. */
  function Capped(length: nat): (n: nat) {
    if length <= SplitPlan.MAX_PARTS as int then length else SplitPlan.MAX_PARTS as int + 1
  }

  /** On every well-formed array, wherever it starts and whatever follows it, the count stays in bounds
      and is the number of its own elements, up to one past the limit. */
  method CountArrayElements(data: string, start: nat, ghost v: Json, ghost tail: string) returns (count: nat)
    requires v.Array? && Good(v) && start <= |data| && data[start..] == Document(v) + tail
    ensures count == Capped(|v.elements|)
  {
    ghost var inner := Inside(v.blank, v.elements);
    AfterBracket(data, start, v, tail);
    var offset := SkipSpace(data, start + 1);
    if v.elements == [] {
      FirstOfEmpty(data, start + 1, offset, v.blank, tail);
    } else {
      FirstOfSome(data, start + 1, offset, v.elements, tail);
    }
    if data[offset] == ']' {
      return 0;
    }
    ghost var base := start + 1;
    ghost var open := Between(1, 1);
    SpacesRead(inner[..offset - base], 1, 1);
    var depth := 1;
    count := 1;
    var inString := false;
    var escaped := false;
    while true
      invariant base <= offset <= base + |inner|
      invariant Reads(open, inner[..offset - base]) == Reader(depth, count, inString, escaped)
      invariant count <= SplitPlan.MAX_PARTS as int
      decreases |data| - offset
    {
      ghost var k, r := offset - base, Reader(depth, count, inString, escaped);
      AtCharacter(data, base, v.elements, tail, k);
      var character := data[offset];
      if inString {
        inString, escaped := AdvanceString(character, inString, escaped);
      } else {
        match character
        case '"' => inString := true;
        case '{' => depth := depth + 1;
        case '[' => depth := depth + 1;
        case '}' => depth := depth - 1;
          if depth == 0 {
            return count;
          }
        case ']' => depth := depth - 1;
          if depth == 0 {
            return count;
          }
        case ',' =>
          if depth == 1 {
            count := count + 1;
            if count > SplitPlan.MAX_PARTS as int {
              return count;
            }
          }
        case _ =>
      }
      assert Reader(depth, count, inString, escaped) == Step(r, character);
      offset := offset + 1;
    }
  }

  lemma AfterBracket(data: string, start: nat, v: Json, tail: string)
    requires v.Array? && start <= |data| && data[start..] == Document(v) + tail
    ensures start < |data| && data[start + 1..] == Inside(v.blank, v.elements) + "]" + tail
  {
    var inner := Inside(v.blank, v.elements);
    assert Document(v) == "[" + (inner + "]");
    assert data[start + 1..] == data[start..][1..];
  }

  /** What the loop meets at the k-th character after the opening bracket. */
  lemma AtCharacter(data: string, base: nat, elements: seq<Slot>, tail: string, k: nat)
    requires elements != [] && GoodSlots(elements, false)
    requires base <= |data| && data[base..] == SlotsText(elements) + "]" + tail && k <= |SlotsText(elements)|
    ensures
      var inner := SlotsText(elements);
      var r := Reads(Between(1, 1), inner[..k]);
      && base + k < |data| && r.count <= |elements|
      && if k == |inner| then data[base + k] == ']' && r == Between(1, |elements|)
         else Reads(Between(1, 1), inner[..k + 1]) == Step(r, data[base + k]) && Step(r, data[base + k]).depth >= 1
              && Step(r, data[base + k]).count <= |elements|
  {
    var inner := SlotsText(elements);
    assert data[base + k] == data[base..][k];
    SlotsPass(elements, false, 1, 1);
    UpTo(Between(1, 1), inner, 1, k);
    if k == |inner| {
      assert inner[..k] == inner;
    } else {
      UpTo(Between(1, 1), inner, 1, k + 1);
    }
  }

  lemma FirstOfEmpty(data: string, base: nat, offset: nat, blank: string, tail: string)
    requires base <= offset <= |data| && Spaces(blank)
    requires Spaces(data[base..offset]) && (offset < |data| ==> !IsSpace(data[offset]))
    requires data[base..] == blank + "]" + tail
    ensures offset < |data| && data[offset] == ']'
  {
    assert data[base..] == blank + ("]" + tail);
    SkipsTo(data, base, offset, blank, "]" + tail);
  }

  lemma FirstOfSome(data: string, base: nat, offset: nat, elements: seq<Slot>, tail: string)
    requires base <= offset <= |data| && elements != [] && GoodSlots(elements, false)
    requires Spaces(data[base..offset]) && (offset < |data| ==> !IsSpace(data[offset]))
    requires data[base..] == SlotsText(elements) + "]" + tail
    ensures offset < |data| && data[offset] != ']'
    ensures offset - base <= |SlotsText(elements)| && Spaces(SlotsText(elements)[..offset - base])
  {
    var inner := SlotsText(elements);
    var k := |elements[0].before|;
    SlotsStart(elements);
    SplitAt(inner, k, "]" + tail);
    assert inner + "]" + tail == inner + ("]" + tail);
    SkipsTo(data, base, offset, inner[..k], inner[k..] + ("]" + tail));
  }

  lemma SplitAt(inner: string, k: nat, more: string)
    requires k <= |inner|
    ensures inner + more == inner[..k] + (inner[k..] + more)
  {
  }

  /** The layers member is refused before any descriptor is decoded exactly when it is an array of more
      elements than a manifest may have. */
  method RefusesLayers(data: string, ghost lead: string, ghost v: Json, ghost tail: string) returns (refused: bool)
    requires Good(v) && Spaces(lead) && data == lead + (Document(v) + tail)
    ensures refused <==> v.Array? && |v.elements| > SplitPlan.MAX_PARTS as int
  {
    ValueStarts(v);
    var start := SkipSpace(data, 0);
    SkipsTo(data, 0, start, lead, Document(v) + tail);
    refused := false;
    if data[start] == '[' {
      assert data[start..] == Document(v) + tail;
      var count := CountArrayElements(data, start, v, tail);
      refused := count > SplitPlan.MAX_PARTS as int;
    }
  }
}
