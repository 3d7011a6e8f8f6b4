// The positional heuristic engine of ProcessAddress, as functions: the result record, one
// function per pass, the whole pipeline, and what the pipeline guarantees.

module Engine {
  import opened Classifier
  import opened Dictionary
  import opened Scan

  /** The extracted fields of AddressParts; zero and "" stand for "not found". */
  datatype Record = Record(
    levelType: string,
    levelNumber: nat,
    flatType: string,
    flatNumber: nat,
    flatNumberSuffix: string,
    streetNumber: nat,
    streetNumberEnd: nat,
    streetNumberSuffix: string,
    streetName: string,
    streetType: string,
    streetSuffix: string,
    suburb: string,
    postCode: nat,
    state: string)

  /** The fields of a freshly allocated AddressParts. */
  const EmptyRecord := Record("", 0, "", 0, "", 0, 0, "", "", "", "", "", 0, "")

  /** The record together with the working token sequence. */
  datatype State = State(rec: Record, parts: seq<string>)

  /** The street-type sentinel for names such as "THE BOULEVARDE". */
  const NoStreetType := "-"

  /** addressPartNoNumber: a type that never carries a number. */
  predicate AddressPartNoNumber(part: string, t: Tables)
  {
    StringInSlice(part, MapToSlice(t.noNumberTypes))
  }

  /** The flat-type pass: a word run before the first number that follows a word. */
  function FlatPass(s: State, t: Tables): (r: State)
    ensures Consumes(s.parts, r.parts)
    ensures r.rec == s.rec.(flatType := r.rec.flatType, flatNumber := r.rec.flatNumber,
                            flatNumberSuffix := r.rec.flatNumberSuffix)
  {
    var found := FirstHit(s.parts, 1, IsAnyNumber, IsWord);
    if found == 0 then s
    else
      var (code, idx) := PartMatch(s.parts, found - 1, t.flatTypes, t.rank);
      FlatApply(s, found, code, idx, t)
  }

  /** What the flat-type pass does once the number at `found` and the type match (`code`,
      `idx`) before it are known: nothing for no match; otherwise the type is recorded and
      its words consumed, and unless the type never carries a number, the number token is
      decomposed into the flat number and suffix and consumed as well. */
  function FlatApply(s: State, found: nat, code: string, idx: seq<int>, t: Tables): (r: State)
    requires found < |s.parts| && InRange(idx, |s.parts|)
    ensures Consumes(s.parts, r.parts)
    ensures r.rec == s.rec.(flatType := r.rec.flatType, flatNumber := r.rec.flatNumber,
                            flatNumberSuffix := r.rec.flatNumberSuffix)
  {
    var p := s.parts;
    if code == "" then s
    else if AddressPartNoNumber(code, t) then
      BlankedConsumes(p, idx);
      State(s.rec.(flatType := code), Blanked(p, idx))
    else
      var (number, suffix, _) := GetAddressNumber(p[found]);
      BlankedConsumes(p[found := ""], idx);
      State(s.rec.(flatType := code, flatNumber := number, flatNumberSuffix := suffix),
            Blanked(p[found := ""], idx))
  }

  /** The level-type pass: the same scan, against the level table, on what is left. */
  function LevelPass(s: State, t: Tables): (r: State)
    ensures Consumes(s.parts, r.parts)
    ensures r.rec == s.rec.(levelType := r.rec.levelType, levelNumber := r.rec.levelNumber)
  {
    var found := FirstHit(s.parts, 1, IsAnyNumber, IsWord);
    if found == 0 then s
    else
      var (code, idx) := PartMatch(s.parts, found - 1, t.levelTypes, t.rank);
      LevelApply(s, found, code, idx, t)
  }

  /** The level-type pass once the number and the type match are known; a level keeps no
      number suffix. */
  function LevelApply(s: State, found: nat, code: string, idx: seq<int>, t: Tables): (r: State)
    requires found < |s.parts| && InRange(idx, |s.parts|)
    ensures Consumes(s.parts, r.parts)
    ensures r.rec == s.rec.(levelType := r.rec.levelType, levelNumber := r.rec.levelNumber)
  {
    var p := s.parts;
    if code == "" then s
    else if AddressPartNoNumber(code, t) then
      BlankedConsumes(p, idx);
      State(s.rec.(levelType := code), Blanked(p, idx))
    else
      var (number, _, _) := GetAddressNumber(p[found]);
      BlankedConsumes(p[found := ""], idx);
      State(s.rec.(levelType := code, levelNumber := number), Blanked(p[found := ""], idx))
  }

  /** The postcode pass: a last token of exactly four digits, when its value is not zero. */
  function PostcodePass(s: State): (r: State)
    requires |s.parts| >= 1
    ensures Consumes(s.parts, r.parts)
    ensures r.rec == s.rec.(postCode := r.rec.postCode)
    ensures r.rec.postCode != s.rec.postCode ==>
              var last := s.parts[|s.parts| - 1];
              |last| == 4 && IsNumber(last) && r.rec.postCode == DigitsValue(last) &&
              r.parts == s.parts[|s.parts| - 1 := ""]
  {
    var last := |s.parts| - 1;
    if IsNumber(s.parts[last]) then
      var postCode := MatchPostCode(s.parts[last]);
      if postCode != 0 then State(s.rec.(postCode := postCode), s.parts[last := ""]) else s
    else s
  }

  /** The state pass: the last word followed by anything, matched against the state table. */
  function StatePass(s: State, t: Tables): (r: State)
    requires |s.parts| >= 1
    ensures Consumes(s.parts, r.parts)
    ensures r.rec == s.rec.(state := r.rec.state)
  {
    var p := s.parts;
    var found := LastHit(p, |p| - 1, IsWord, AnyToken);
    if found == 0 then s
    else
      var (code, idx) := PartMatch(p, found, t.states, t.rank);
      if code == "" then s
      else
        BlankedConsumes(p, idx);
        State(s.rec.(state := code), Blanked(p, idx))
  }

  /** The street-number pass: the first number token that a word follows. */
  function StreetNumberPass(s: State, t: Tables): (r: State)
    ensures Consumes(s.parts, r.parts)
    ensures r.rec == s.rec.(streetNumber := r.rec.streetNumber,
                            streetNumberSuffix := r.rec.streetNumberSuffix,
                            streetNumberEnd := r.rec.streetNumberEnd)
  {
    var found := FirstHit(s.parts, 1, IsWord, IsAnyNumber);
    if found == 0 then s else TakeStreetNumber(s, found - 1)
  }

  /** The street-number pass once the number token at `i` is known: it is decomposed into
      number, suffix and range end, and consumed. */
  function TakeStreetNumber(s: State, i: nat): (r: State)
    requires i < |s.parts|
    ensures Consumes(s.parts, r.parts)
    ensures r.rec == s.rec.(streetNumber := r.rec.streetNumber,
                            streetNumberSuffix := r.rec.streetNumberSuffix,
                            streetNumberEnd := r.rec.streetNumberEnd)
  {
    var (number, suffix, end) := GetAddressNumber(s.parts[i]);
    State(s.rec.(streetNumber := number, streetNumberSuffix := suffix, streetNumberEnd := end),
          s.parts[i := ""])
  }

  /** The street-type pass: the first street-type token that follows a word. After "THE" the
      pair is the street name and the type is the sentinel; otherwise the token's code is the
      street type. Also gives the index found, 0 for none. */
  function StreetTypePass(s: State, t: Tables): (r: (State, nat))
    ensures Consumes(s.parts, r.0.parts)
    ensures r.1 == 0 || r.1 < |s.parts|
    ensures r.0.rec == s.rec.(streetName := r.0.rec.streetName, streetType := r.0.rec.streetType)
    ensures r.1 == 0 ==> r.0 == s
    ensures r.1 != 0 ==> IsStreetType(s.parts[r.1], t) && IsWord(s.parts[r.1 - 1])
  {
    var p := s.parts;
    var found := FirstHit(p, 1, StreetTypeTest(t), IsWord);
    if found == 0 then (s, 0)
    else if p[found - 1] == "THE" then
      BlankedConsumes(p, [found - 1, found]);
      (State(s.rec.(streetName := p[found - 1] + " " + p[found], streetType := NoStreetType),
             Blanked(p, [found - 1, found])), found)
    else
      (State(s.rec.(streetType := GetMatchKey(p[found], t.streetTypes)), p[found := ""]), found)
  }

  /** The street-name pass: the words before the street type, or, when neither name nor type
      was found, the last token if it is a word (which is then left in place). */
  function StreetNamePass(s: State, found: nat): (r: State)
    requires found < |s.parts|
    ensures Consumes(s.parts, r.parts)
    ensures r.rec == s.rec.(streetName := r.rec.streetName)
  {
    var p := s.parts;
    var last := |p| - 1;
    if found > 0 && s.rec.streetName == "" then
      var (name, idx) := WordsBefore(p, found);
      BlankedConsumes(p, idx);
      State(s.rec.(streetName := name), Blanked(p, idx))
    else if s.rec.streetType == "" && s.rec.streetName == "" && IsWord(p[last]) then
      State(s.rec.(streetName := p[last]), p)
    else s
  }

  /** The suffix and suburb pass: a street-suffix code right after the street type moves the
      anchor on; the word run after the anchor is the suburb. */
  function SuburbPass(s: State, found: nat, t: Tables): (r: State)
    requires found < |s.parts|
    ensures Consumes(s.parts, r.parts)
    ensures r.rec == s.rec.(streetSuffix := r.rec.streetSuffix, suburb := r.rec.suburb)
  {
    var p := s.parts;
    var next := found + 1;
    if found > 0 && next <= |p| - 1 then
      var suffixed := StringInSlice(p[next], MapKeysToSlice(t.streetSuffixes));
      var s1 := if suffixed then State(s.rec.(streetSuffix := p[next]), p[next := ""]) else s;
      var anchor := if suffixed then next else found;
      var (suburb, idx) := WordsAfter(s1.parts, anchor);
      BlankedConsumes(s1.parts, idx);
      State(s1.rec.(suburb := suburb), Blanked(s1.parts, idx))
    else s
  }

  /** The passes before the street type: flat and level (only when the first token is a
      word), postcode, state and street number. */
  function EarlyPasses(s: State, t: Tables): (r: State)
    requires |s.parts| >= 1
    ensures Consumes(s.parts, r.parts)
    ensures r.rec.streetName == s.rec.streetName && r.rec.streetType == s.rec.streetType
  {
    var s1 := if IsWord(s.parts[0]) then LevelPass(FlatPass(s, t), t) else s;
    var s2 := PostcodePass(s1);
    var s3 := StatePass(s2, t);
    StreetNumberPass(s3, t)
  }

  /** The passes from the street type on: street type, street name, suffix and suburb. */
  function LatePasses(s: State, t: Tables): (r: State)
    requires |s.parts| >= 1
    ensures Consumes(s.parts, r.parts)
    ensures r.rec == s.rec.(streetName := r.rec.streetName, streetType := r.rec.streetType,
                            streetSuffix := r.rec.streetSuffix, suburb := r.rec.suburb)
  {
    var (s5, found) := StreetTypePass(s, t);
    var s6 := StreetNamePass(s5, found);
    SuburbPass(s6, found, t)
  }

  /** ProcessAddress: every pass, once, in order. It only ever blanks tokens. */
  function Process(s: State, t: Tables): (r: State)
    requires |s.parts| >= 1
    ensures Consumes(s.parts, r.parts)
  {
    LatePasses(EarlyPasses(s, t), t)
  }

  /** From the postcode pass on, the postcode changes only when the last token is four digits
      of non-zero value, and that token is then consumed for good. */
  lemma PostCodeFromPostcodePass(s1: State, t: Tables)
    requires |s1.parts| >= 1
    ensures var r := LatePasses(StreetNumberPass(StatePass(PostcodePass(s1), t), t), t);
            var last := s1.parts[|s1.parts| - 1];
            r.rec.postCode != s1.rec.postCode ==>
              |last| == 4 && IsNumber(last) && r.rec.postCode == DigitsValue(last) &&
              r.parts[|s1.parts| - 1] == ""
  {
    var s2 := PostcodePass(s1);
    var s3 := StatePass(s2, t);
    var s4 := StreetNumberPass(s3, t);
    var r := LatePasses(s4, t);
    ConsumesTransitive(s2.parts, s3.parts, s4.parts);
    ConsumesTransitive(s2.parts, s4.parts, r.parts);
  }

  /** A postcode is only ever read from a last token of exactly four digits, and that token
      is consumed. */
  lemma PostCodeFromLastToken(rec: Record, p: seq<string>, t: Tables)
    requires |p| >= 1 && rec.postCode == 0
    ensures var r := Process(State(rec, p), t);
            r.rec.postCode != 0 ==>
              |p[|p| - 1]| == 4 && IsNumber(p[|p| - 1]) &&
              r.rec.postCode == DigitsValue(p[|p| - 1]) && r.parts[|p| - 1] == ""
  {
    var s := State(rec, p);
    var s1 := if IsWord(p[0]) then LevelPass(FlatPass(s, t), t) else s;
    assert Consumes(p, s1.parts) && s1.rec.postCode == 0 by {
      if IsWord(p[0]) {
        ConsumesTransitive(p, FlatPass(s, t).parts, s1.parts);
      }
    }
    var r := LatePasses(StreetNumberPass(StatePass(PostcodePass(s1), t), t), t);
    assert Process(s, t) == r;
    PostCodeFromPostcodePass(s1, t);
    if r.rec.postCode != 0 {
      assert r.rec.postCode != s1.rec.postCode;
      var last := s1.parts[|p| - 1];
      assert |last| == 4 && IsNumber(last) && r.rec.postCode == DigitsValue(last);
      assert last == p[|p| - 1];
      assert r.parts[|p| - 1] == "";
    }
  }

  /** Without a flat or level pass (the first token is not a word), a last token of four
      digits with a non-zero value always becomes the postcode. */
  lemma FourDigitLastTokenIsPostCode(rec: Record, p: seq<string>, t: Tables)
    requires |p| >= 1 && !IsWord(p[0])
    requires |p[|p| - 1]| == 4 && IsNumber(p[|p| - 1]) && DigitsValue(p[|p| - 1]) != 0
    ensures Process(State(rec, p), t).rec.postCode == DigitsValue(p[|p| - 1])
  {
    var s := State(rec, p);
    var s2 := PostcodePass(s);
    var s3 := StatePass(s2, t);
    var s4 := StreetNumberPass(s3, t);
    assert s4 == EarlyPasses(s, t);
  }

  /** In the street-type pass the sentinel comes only from the "THE" branch. */
  lemma StreetTypeSentinel(s: State, t: Tables)
    requires s.rec.streetType != NoStreetType
    requires forall j :: 0 <= j < |t.streetTypes| ==> t.streetTypes[j].0 != NoStreetType
    requires StreetTypePass(s, t).0.rec.streetType == NoStreetType
    ensures var (r, found) := StreetTypePass(s, t);
            0 < found < |s.parts| && s.parts[found - 1] == "THE" && IsStreetType(s.parts[found], t) &&
            r.rec.streetName == "THE " + s.parts[found] &&
            r.parts[found - 1] == "" && r.parts[found] == ""
  {
    var p := s.parts;
    var found := FirstHit(p, 1, StreetTypeTest(t), IsWord);
    if p[found - 1] == "THE" {
      BlankedAt(p, [found - 1, found]);
    } else {
      var key := GetMatchKey(p[found], t.streetTypes);
      if key != "" {
        GetMatchKeyFound(p[found], t.streetTypes);
      }
    }
  }

  /** The street type is the sentinel "-" only when a street-type token directly follows
      "THE", and then the street name is "THE" and that token, and both are consumed. */
  lemma SentinelOnlyAfterThe(rec: Record, p: seq<string>, t: Tables)
    requires |p| >= 1 && rec.streetType != NoStreetType
    requires forall j :: 0 <= j < |t.streetTypes| ==> t.streetTypes[j].0 != NoStreetType
    ensures var r := Process(State(rec, p), t);
            r.rec.streetType == NoStreetType ==>
              exists i :: 1 <= i < |p| && p[i - 1] == "THE" && IsStreetType(p[i], t) &&
                          r.rec.streetName == "THE " + p[i] && r.parts[i - 1] == "" && r.parts[i] == ""
  {
    var s := State(rec, p);
    var s4 := EarlyPasses(s, t);
    var (s5, found) := StreetTypePass(s4, t);
    var s6 := StreetNamePass(s5, found);
    var r := SuburbPass(s6, found, t);
    assert r == Process(s, t);
    if r.rec.streetType == NoStreetType {
      StreetTypeSentinel(s4, t);
      var q := s4.parts;
      assert q[found] != "";
      assert q[found - 1] == p[found - 1] && q[found] == p[found];
      assert s6 == s5;
      assert r.parts[found - 1] == "" && r.parts[found] == "";
    }
  }
}
