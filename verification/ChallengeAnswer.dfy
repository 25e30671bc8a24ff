/** What a registry's written list of challenges makes bigoci answer, end to end: from the characters of the header
    to the realm, service and scopes of the challenge chosen. */
module ChallengeAnswer {
  import opened Base
  import opened Challenge
  import opened ChallengeGrammar

  /** What a written challenge is taken to name: its scheme, and when its token68 is not padded the body too. */
  ghost predicate Names(w: Written, scheme: string) {
    match w
    case WithParams(named, _, _) => Lower(named) == scheme
    case WithToken68(named, _, body, pads, _, _) => pads == 0 && (Lower(named) == scheme || Lower(body) == scheme)
  }

  ghost predicate NoneNames(ws: seq<Written>, scheme: string, k: nat)
    requires k <= |ws|
  {
    forall i :: 0 <= i < k ==> !Names(ws[i], scheme)
  }

  ghost predicate FirstNames(ws: seq<Written>, scheme: string, k: nat) {
    k < |ws| && Names(ws[k], scheme) && NoneNames(ws, scheme, k)
  }

  /** v is the value of the last parameter of this name, whatever its case, or none when there is no such
      parameter. */
  ghost predicate LastValue(ps: seq<Param>, name: string, v: Option<string>) {
    match v
    case None => NotNamed(ps, name, 0)
    case Some(text) => exists j :: 0 <= j < |ps| && LastAt(ps, name, j) && Meant(ps[j].value) == text
  }

  ghost predicate LastAt(ps: seq<Param>, name: string, j: nat)
    requires j < |ps|
  {
    Lower(ps[j].name) == name && NotNamed(ps, name, j + 1)
  }

  ghost predicate NotNamed(ps: seq<Param>, name: string, from: nat) {
    forall i :: from <= i < |ps| ==> Lower(ps[i].name) != name
  }

  /** The challenge a scheme and its parameters make. */
  ghost predicate States(c: Stated, scheme: string, ps: seq<Param>, fields: Fields) {
    && c.scheme == scheme
    && ValueOr(ps, "realm", c.realm)
    && ValueOr(ps, "service", c.service)
    && ((LastValue(ps, "scope", None) && c.scopes == []) || exists v :: LastValue(ps, "scope", Some(v)) && c.scopes == fields(v))
  }

  ghost predicate ValueOr(ps: seq<Param>, name: string, text: string) {
    LastValue(ps, name, Some(text)) || (LastValue(ps, name, None) && text == "")
  }

  lemma {:induction false} LastOfIsLast(ps: seq<Param>, name: string)
    ensures LastValue(ps, name, LastOf(ps, name))
  {
    if ps != [] {
      var last := |ps| - 1;
      if Lower(ps[last].name) == name {
        assert LastAt(ps, name, last);
      } else {
        LastOfIsLast(ps[..last], name);
        LastOfFront(ps, name, LastOf(ps, name));
      }
    }
  }

  lemma LastOfFront(ps: seq<Param>, name: string, v: Option<string>)
    requires ps != [] && LastValue(ps[..|ps| - 1], name, v) && Lower(ps[|ps| - 1].name) != name
    ensures LastValue(ps, name, v)
  {
    var front := ps[..|ps| - 1];
    forall i | 0 <= i < |front| ensures front[i] == ps[i] {
    }
    match v
    case None =>
    case Some(text) =>
      var j :| 0 <= j < |front| && LastAt(front, name, j) && Meant(front[j].value) == text;
      assert LastAt(ps, name, j);
  }

  lemma ParamsState(scheme: string, ps: seq<Param>, fields: Fields)
    ensures States(ParamsMeaning(scheme, ps, fields), Lower(scheme), ps, fields)
  {
    LastOfIsLast(ps, "realm");
    LastOfIsLast(ps, "service");
    LastOfIsLast(ps, "scope");
  }

  // ---- from the written list to the first challenge of a scheme ----

  /** What the reader makes of the challenge that names the scheme. */
  ghost function NamedBy(w: Written, scheme: string, fields: Fields): Stated {
    if w.WithParams? then ParamsMeaning(w.scheme, w.params, fields) else Stated(scheme, "", "", [])
  }

  lemma FirstOfWritten(w: Written, scheme: string, fields: Fields)
    requires scheme != ""
    ensures FirstOf(Meaning(w, fields), scheme) == if Names(w, scheme) then Some(NamedBy(w, scheme, fields)) else None
  {
    if w.WithParams? {
      FirstOfOne(ParamsMeaning(w.scheme, w.params, fields), scheme);
    } else {
      FirstOfMeaning(w, scheme, fields);
    }
  }

  lemma {:induction false} FirstOfNamed(ws: seq<Written>, scheme: string, k: nat, fields: Fields)
    requires scheme != "" && FirstNames(ws, scheme, k)
    ensures FirstOf(Meanings(ws, fields), scheme) == Some(NamedBy(ws[k], scheme, fields))
    decreases k
  {
    FirstOfJoined(Meaning(ws[0], fields), Meanings(ws[1..], fields), scheme);
    FirstOfWritten(ws[0], scheme, fields);
    if k > 0 {
      assert !Names(ws[0], scheme);
      assert forall i :: 0 <= i < k - 1 ==> ws[1..][i] == ws[i + 1];
      FirstOfNamed(ws[1..], scheme, k - 1, fields);
    }
  }

  lemma {:induction false} FirstOfUnnamed(ws: seq<Written>, scheme: string, fields: Fields)
    requires scheme != "" && NoneNames(ws, scheme, |ws|)
    ensures FirstOf(Meanings(ws, fields), scheme) == None
    decreases |ws|
  {
    if ws != [] {
      FirstOfJoined(Meaning(ws[0], fields), Meanings(ws[1..], fields), scheme);
      FirstOfWritten(ws[0], scheme, fields);
      assert forall i :: 0 <= i < |ws| - 1 ==> ws[1..][i] == ws[i + 1];
      FirstOfUnnamed(ws[1..], scheme, fields);
    }
  }

  // ---- the answer ----

  /** What is to be answered when w is the challenge chosen. */
  ghost predicate Answers(w: Written, scheme: string, r: Result<Stated, ChallengeError>, fields: Fields) {
    match w
    case WithParams(_, _, ps) =>
      if scheme == "bearer" && ValueOr(ps, "realm", "") then r == Err(NoRealm)
      else r.Ok? && States(r.value, scheme, ps, fields)
    case WithToken68(_, _, _, _, _, _) => r == if scheme == "bearer" then Err(NoRealm) else Ok(Stated(scheme, "", "", []))
  }

  /** Of a list that can be read and is not too long, the first challenge that names Bearer is answered, with the
      realm, service and scopes written in it; without one, the first that names Basic; and without either, none. */
  lemma AnswerIsWhatWasWritten(lead: string, ws: seq<Written>, fields: Fields)
    requires All(lead, IsDelim) && AllGood(ws, "") && Readable(ws) && 0 < |lead + Texts(ws)| <= 8192
    ensures forall k: nat :: FirstNames(ws, "bearer", k) ==> Answers(ws[k], "bearer", Parse(lead + Texts(ws), fields), fields)
    ensures forall k: nat :: NoneNames(ws, "bearer", |ws|) && FirstNames(ws, "basic", k) ==>
              Answers(ws[k], "basic", Parse(lead + Texts(ws), fields), fields)
    ensures NoneNames(ws, "bearer", |ws|) && NoneNames(ws, "basic", |ws|) ==> Parse(lead + Texts(ws), fields) == Err(NoScheme)
  {
    ScanReadsWhatWasWritten(lead, ws, fields);
    if NoneNames(ws, "bearer", |ws|) {
      FirstOfUnnamed(ws, "bearer", fields);
    }
    if NoneNames(ws, "basic", |ws|) {
      FirstOfUnnamed(ws, "basic", fields);
    }
    forall k: nat | FirstNames(ws, "bearer", k) ensures Answers(ws[k], "bearer", Parse(lead + Texts(ws), fields), fields) {
      FirstOfNamed(ws, "bearer", k, fields);
      ChosenAnswers(ws[k], "bearer", fields);
    }
    forall k: nat | NoneNames(ws, "bearer", |ws|) && FirstNames(ws, "basic", k)
      ensures Answers(ws[k], "basic", Parse(lead + Texts(ws), fields), fields)
    {
      FirstOfNamed(ws, "basic", k, fields);
      ChosenAnswers(ws[k], "basic", fields);
    }
  }

  lemma ChosenAnswers(w: Written, scheme: string, fields: Fields)
    requires Names(w, scheme)
    ensures
      var c := NamedBy(w, scheme, fields);
      Answers(w, scheme, if scheme == "bearer" && c.realm == "" then Err(NoRealm) else Ok(c), fields)
  {
    if w.WithParams? {
      ParamsState(w.scheme, w.params, fields);
      LastOfIsLast(w.params, "realm");
      OneValue(w.params, "realm", LastOf(w.params, "realm"));
    }
  }

  /** A parameter has one last value. */
  lemma OneValue(ps: seq<Param>, name: string, v: Option<string>)
    requires LastValue(ps, name, v)
    ensures ValueOr(ps, name, "") ==> v == None || v == Some("")
  {
    if v.Some? && ValueOr(ps, name, "") {
      var j :| 0 <= j < |ps| && LastAt(ps, name, j) && Meant(ps[j].value) == v.value;
      assert !NotNamed(ps, name, 0);
      var k :| 0 <= k < |ps| && LastAt(ps, name, k) && Meant(ps[k].value) == "";
      assert j == k;
    }
  }

  // ---- what an unreadable value costs ----

  /** Up to the next comma outside quotes, and no further; a string nobody closed runs to the end. */
  lemma UnreadableValueCosts(value: string, chars: seq<Quotable>, more: string)
    requires All(value, IsPlain) && GoodSpelling(Quoted(chars))
    ensures Resync(value) == ""
    ensures Resync(value + ("," + more)) == "," + more
    ensures Resync(value + ("\"" + (Inside(chars) + ("\"" + more)))) == Resync(more)
  {
    var quoted := Inside(chars) + ("\"" + more);
    assert value + "" == value;
    PlainIsSkipped(value, "");
    PlainIsSkipped(value, "," + more);
    PlainIsSkipped(value, "\"" + quoted);
    assert ("\"" + quoted)[1..] == quoted;
    UnquoteReads(chars, more);
  }

  predicate IsPlain(c: char) {
    c != ',' && c != '"'
  }

  lemma {:induction false} PlainIsSkipped(value: string, rest: string)
    requires All(value, IsPlain)
    ensures Resync(value + rest) == Resync(rest)
    decreases |value|
  {
    if value == "" {
      assert value + rest == rest;
    } else {
      assert (value + rest)[1..] == value[1..] + rest;
      PlainIsSkipped(value[1..], rest);
    }
  }
}
