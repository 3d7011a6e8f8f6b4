// Addresses taken through every pass, with small tables and a ranker that proposes nothing
// (so only exact table hits match): two made-up addresses and test address 2 of the package.

module Scenarios {
  import opened Strings
  import opened Classifier
  import opened Dictionary
  import opened Scan
  import opened Engine

  /** A ranker that proposes nothing: only exact table hits match. */
  const ExactOnly: Ranker := (phrase, list) => []

  const Tiny := Tables([("UNIT", "UNIT")], [("L", "LEVEL")], [("ST", "STREET")], [],
                       [("NSW", "NEW SOUTH WALES")], [], ExactOnly)

  const Tokens: seq<string> := ["12", "SMITH", "ST", "SYDNEY", "NSW", "2000"]

  lemma ScenarioPostcode()
    ensures PostcodePass(State(EmptyRecord, Tokens)) ==
            State(EmptyRecord.(postCode := 2000), ["12", "SMITH", "ST", "SYDNEY", "NSW", ""])
  {
    assert IsNumber("2000");
    assert "2000"[..3] == "200" && "200"[..2] == "20" && "20"[..1] == "2" && "2"[..0] == "";
  }

  lemma ScenarioState(rec: Record)
    ensures StatePass(State(rec, ["12", "SMITH", "ST", "SYDNEY", "NSW", ""]), Tiny) ==
            State(rec.(state := "NSW"), ["12", "SMITH", "ST", "SYDNEY", "", ""])
  {
    var p := ["12", "SMITH", "ST", "SYDNEY", "NSW", ""];
    assert IsWord("NSW");
    assert LastHit(p, 5, IsWord, AnyToken) == 4;
    assert FuzzyMatch("NSW", Tiny.states, Tiny.rank) == ["NSW"];
    assert FuzzyMatch("SYDNEY NSW", Tiny.states, Tiny.rank) == [];
    assert GrowMatch(p, 3, "NSW", ["NSW"], [4], Tiny.states, Tiny.rank) == ("NSW", ["NSW"], [4]);
    assert Grown(p[4], "") == "NSW" && [] + [4] == [4];
    assert GrowMatch(p, 4, "", [], [], Tiny.states, Tiny.rank) == ("NSW", ["NSW"], [4]);
    assert PartMatch(p, 4, Tiny.states, Tiny.rank) == ("NSW", [4]);
  }

  lemma ScenarioStreetNumber(rec: Record)
    ensures StreetNumberPass(State(rec, ["12", "SMITH", "ST", "SYDNEY", "", ""]), Tiny) ==
            State(rec.(streetNumber := 12, streetNumberSuffix := "", streetNumberEnd := 0),
                  ["", "SMITH", "ST", "SYDNEY", "", ""])
  {
    var p := ["12", "SMITH", "ST", "SYDNEY", "", ""];
    assert IsWord("SMITH") && IsNumber("12");
    assert FirstHit(p, 1, IsWord, IsAnyNumber) == 1;
    assert "12"[..1] == "1" && "1"[..0] == "";
    assert DigitsValue("12") == 12;
    assert GetAddressNumber("12") == (12, "", 0);
    assert p[0 := ""] == ["", "SMITH", "ST", "SYDNEY", "", ""];

  }

  lemma ScenarioStreetType(rec: Record)
    ensures StreetTypePass(State(rec, ["", "SMITH", "ST", "SYDNEY", "", ""]), Tiny) ==
            (State(rec.(streetType := "ST"), ["", "SMITH", "", "SYDNEY", "", ""]), 2)
  {
    var p := ["", "SMITH", "ST", "SYDNEY", "", ""];
    assert FuzzyMatch("SMITH", Tiny.streetTypes, Tiny.rank) == [];
    assert FuzzyMatch("ST", Tiny.streetTypes, Tiny.rank) == ["ST"];
    assert IsWord("SMITH");
    assert FirstHit(p, 1, StreetTypeTest(Tiny), IsWord) == 2;
    assert p[1] != "THE";
    assert GetMatchKey("ST", Tiny.streetTypes) == "ST";
    assert p[2 := ""] == ["", "SMITH", "", "SYDNEY", "", ""];
  }

  lemma ScenarioStreetName(rec: Record)
    requires rec.streetName == ""
    ensures StreetNamePass(State(rec, ["", "SMITH", "", "SYDNEY", "", ""]), 2) ==
            State(rec.(streetName := "SMITH"), ["", "", "", "SYDNEY", "", ""])
  {
    var p := ["", "SMITH", "", "SYDNEY", "", ""];
    assert IsWord("SMITH") && !IsWord("");
    assert RunStart(p, 2) == 1;
    assert p[1..2] == ["SMITH"] && [] + [1] == [1];
  }

  lemma ScenarioSuburb(rec: Record)
    ensures SuburbPass(State(rec, ["", "", "", "SYDNEY", "", ""]), 2, Tiny) ==
            State(rec.(suburb := "SYDNEY"), ["", "", "", "", "", ""])
  {
    var p := ["", "", "", "SYDNEY", "", ""];
    assert IsWord("SYDNEY") && !IsWord("");
    assert RunEnd(p, 3) == 4;
    assert p[3..4] == ["SYDNEY"] && [] + [3] == [3];
  }

  /** "12 SMITH ST SYDNEY NSW 2000": every field the address holds is found and no token is
      left over. */
  lemma ScenarioProcess()
    ensures Process(State(EmptyRecord, Tokens), Tiny) ==
            State(EmptyRecord.(streetNumber := 12, streetName := "SMITH", streetType := "ST",
                               suburb := "SYDNEY", state := "NSW", postCode := 2000),
                  ["", "", "", "", "", ""])
  {
    assert !IsWord("12") by { assert !IsLetter("12"[0]); }
    ScenarioPostcode();
    var r2 := EmptyRecord.(postCode := 2000);
    ScenarioState(r2);
    var r3 := r2.(state := "NSW");
    ScenarioStreetNumber(r3);
    var r4 := r3.(streetNumber := 12, streetNumberSuffix := "", streetNumberEnd := 0);
    ScenarioStreetType(r4);
    var r5 := r4.(streetType := "ST");
    ScenarioStreetName(r5);
    ScenarioSuburb(r5.(streetName := "SMITH"));
  }

  const Boulevard := Tables([("UNIT", "UNIT")], [("L", "LEVEL")], [("AVE", "AVENUE")], [],
                            [("NSW", "NEW SOUTH WALES")], [], ExactOnly)

  const FlatTokens: seq<string> := ["UNIT", "5", "1", "THE", "AVENUE", "NEWTOWN"]

  lemma ScenarioFlatMatch()
    ensures FirstHit(FlatTokens, 1, IsAnyNumber, IsWord) == 1
    ensures PartMatch(FlatTokens, 0, Boulevard.flatTypes, Boulevard.rank) == ("UNIT", [0])
  {
    var p := FlatTokens;
    assert IsWord("UNIT") && IsNumber("5");
    assert FuzzyMatch("UNIT", Boulevard.flatTypes, Boulevard.rank) == ["UNIT"];
    assert Grown(p[0], "") == "UNIT" && [] + [0] == [0];
    assert GrowMatch(p, 0, "", [], [], Boulevard.flatTypes, Boulevard.rank) == ("UNIT", ["UNIT"], [0]);
  }

  lemma ScenarioFlat()
    ensures FlatPass(State(EmptyRecord, FlatTokens), Boulevard) ==
            State(EmptyRecord.(flatType := "UNIT", flatNumber := 5),
                  ["", "", "1", "THE", "AVENUE", "NEWTOWN"])
  {
    var p := FlatTokens;
    ScenarioFlatMatch();
    assert !AddressPartNoNumber("UNIT", Boulevard);
    assert "5"[..0] == "";
    assert GetAddressNumber(p[1]) == (5, "", 0);
    BlankedOne(p[1 := ""], 0);
    assert p[1 := ""][0 := ""] == ["", "", "1", "THE", "AVENUE", "NEWTOWN"];
  }

  lemma ScenarioNoLevel(rec: Record)
    ensures LevelPass(State(rec, ["", "", "1", "THE", "AVENUE", "NEWTOWN"]), Boulevard) ==
            State(rec, ["", "", "1", "THE", "AVENUE", "NEWTOWN"])
  {
    var p := ["", "", "1", "THE", "AVENUE", "NEWTOWN"];
    assert !IsWord("") && !IsAnyNumber("");
    assert !IsWord("1") by { assert !IsLetter("1"[0]); }
    assert !IsAnyNumber("THE") by { assert !IsDigit("THE"[0]); }
    assert !IsAnyNumber("AVENUE") by { assert !IsDigit("AVENUE"[0]); }
    assert !IsAnyNumber("NEWTOWN") by { assert !IsDigit("NEWTOWN"[0]); }
    assert FirstHit(p, 1, IsAnyNumber, IsWord) == 0;
  }

  lemma ScenarioNoPostcodeNoState(rec: Record)
    ensures var p := ["", "", "1", "THE", "AVENUE", "NEWTOWN"];
            StatePass(PostcodePass(State(rec, p)), Boulevard) == State(rec, p)
  {
    var p := ["", "", "1", "THE", "AVENUE", "NEWTOWN"];
    assert !IsNumber("NEWTOWN") by { assert !IsDigit("NEWTOWN"[0]); }
    assert IsWord("NEWTOWN");
    assert LastHit(p, 5, IsWord, AnyToken) == 5;
    assert FuzzyMatch("NEWTOWN", Boulevard.states, Boulevard.rank) == [];
    assert GrowMatch(p, 5, "", [], [], Boulevard.states, Boulevard.rank) == ("", [], []);
    assert GetMatchKey("", Boulevard.states) == "";
  }

  lemma ScenarioFlatStreetNumber(rec: Record)
    ensures StreetNumberPass(State(rec, ["", "", "1", "THE", "AVENUE", "NEWTOWN"]), Boulevard) ==
            State(rec.(streetNumber := 1, streetNumberSuffix := "", streetNumberEnd := 0),
                  ["", "", "", "THE", "AVENUE", "NEWTOWN"])
  {
    var p := ["", "", "1", "THE", "AVENUE", "NEWTOWN"];
    assert !IsWord("") && IsWord("THE") && IsNumber("1");
    assert FirstHit(p, 1, IsWord, IsAnyNumber) == 3;
    assert "1"[..0] == "";
    assert GetAddressNumber("1") == (1, "", 0);
    assert p[2 := ""] == ["", "", "", "THE", "AVENUE", "NEWTOWN"];
  }

  lemma ScenarioSentinel(rec: Record)
    ensures StreetTypePass(State(rec, ["", "", "", "THE", "AVENUE", "NEWTOWN"]), Boulevard) ==
            (State(rec.(streetName := "THE AVENUE", streetType := NoStreetType),
                   ["", "", "", "", "", "NEWTOWN"]), 4)
  {
    var p := ["", "", "", "THE", "AVENUE", "NEWTOWN"];
    FuzzyMatchCases("", Boulevard.streetTypes, Boulevard.rank);
    assert FuzzyMatch("THE", Boulevard.streetTypes, Boulevard.rank) == [];
    assert FuzzyMatch("AVENUE", Boulevard.streetTypes, Boulevard.rank) == ["AVENUE"];
    assert IsWord("THE") && !IsWord("");
    assert FirstHit(p, 1, StreetTypeTest(Boulevard), IsWord) == 4;
    assert [3, 4][1..] == [4] && [4][1..] == [];
    assert Blanked(p, [3, 4]) == Blanked(p[3 := ""][4 := ""], []);
    assert p[3 := ""][4 := ""] == ["", "", "", "", "", "NEWTOWN"];
    assert p[3] + " " + p[4] == "THE AVENUE";
  }

  lemma ScenarioSentinelSuburb(rec: Record)
    requires rec.streetName != ""
    ensures var p := ["", "", "", "", "", "NEWTOWN"];
            SuburbPass(StreetNamePass(State(rec, p), 4), 4, Boulevard) ==
            State(rec.(suburb := "NEWTOWN"), ["", "", "", "", "", ""])
  {
    var p := ["", "", "", "", "", "NEWTOWN"];
    assert IsWord("NEWTOWN");
    assert RunEnd(p, 5) == 6;
    assert p[5..6] == ["NEWTOWN"] && [] + [5] == [5];
  }

  /** "UNIT 5 1 THE AVENUE NEWTOWN": the flat is read from the front, and "THE AVENUE" is
      the street name with the sentinel street type. */
  lemma ScenarioTheAvenue()
    ensures Process(State(EmptyRecord, FlatTokens), Boulevard) ==
            State(EmptyRecord.(flatType := "UNIT", flatNumber := 5, streetNumber := 1,
                               streetName := "THE AVENUE", streetType := NoStreetType,
                               suburb := "NEWTOWN"),
                  ["", "", "", "", "", ""])
  {
    assert IsWord("UNIT");
    ScenarioFlat();
    var r1 := EmptyRecord.(flatType := "UNIT", flatNumber := 5);
    ScenarioNoLevel(r1);
    ScenarioNoPostcodeNoState(r1);
    ScenarioFlatStreetNumber(r1);
    var r4 := r1.(streetNumber := 1);
    ScenarioSentinel(r4);
    ScenarioSentinelSuburb(r4.(streetName := "THE AVENUE", streetType := NoStreetType));
  }

  /** The tables test address 2 needs: exact hits on "HWY" and "VIC" are enough. */
  const Highway := Tables([], [], [("HIGHWAY", "HWY")], [], [("VIC", "VICTORIA")], [], ExactOnly)

  const HighwayTokens: seq<string> := ["1910", "LONG", "LONG", "HWY", "MT", "NOWHERE", "VIC", "3216"]

  lemma HighwayPostcode()
    ensures PostcodePass(State(EmptyRecord, HighwayTokens)) ==
            State(EmptyRecord.(postCode := 3216),
                  ["1910", "LONG", "LONG", "HWY", "MT", "NOWHERE", "VIC", ""])
  {
    assert IsNumber("3216");
    assert "3216"[..3] == "321" && "321"[..2] == "32" && "32"[..1] == "3" && "3"[..0] == "";
  }

  lemma HighwayState(rec: Record)
    ensures StatePass(State(rec, ["1910", "LONG", "LONG", "HWY", "MT", "NOWHERE", "VIC", ""]), Highway) ==
            State(rec.(state := "VIC"), ["1910", "LONG", "LONG", "HWY", "MT", "NOWHERE", "", ""])
  {
    var p := ["1910", "LONG", "LONG", "HWY", "MT", "NOWHERE", "VIC", ""];
    assert IsWord("VIC") && !IsWord("");
    assert LastHit(p, 7, IsWord, AnyToken) == 6;
    assert FuzzyMatch("VIC", Highway.states, Highway.rank) == ["VIC"];
    assert FuzzyMatch("NOWHERE VIC", Highway.states, Highway.rank) == [];
    assert GrowMatch(p, 5, "VIC", ["VIC"], [6], Highway.states, Highway.rank) == ("VIC", ["VIC"], [6]);
    assert Grown(p[6], "") == "VIC" && [] + [6] == [6];
    assert GrowMatch(p, 6, "", [], [], Highway.states, Highway.rank) == ("VIC", ["VIC"], [6]);
    assert PartMatch(p, 6, Highway.states, Highway.rank) == ("VIC", [6]);
  }

  lemma HighwayStreetNumber(rec: Record)
    ensures StreetNumberPass(State(rec, ["1910", "LONG", "LONG", "HWY", "MT", "NOWHERE", "", ""]), Highway) ==
            State(rec.(streetNumber := 1910, streetNumberSuffix := "", streetNumberEnd := 0),
                  ["", "LONG", "LONG", "HWY", "MT", "NOWHERE", "", ""])
  {
    var p := ["1910", "LONG", "LONG", "HWY", "MT", "NOWHERE", "", ""];
    assert IsWord("LONG") && IsNumber("1910");
    assert FirstHit(p, 1, IsWord, IsAnyNumber) == 1;
    assert DigitsValue("1910") == 1910 by {
      assert "1910"[..3] == "191" && "191"[..2] == "19" && "19"[..1] == "1" && "1"[..0] == "";
      assert DigitsValue("19") == 19;
    }
    assert GetAddressNumber("1910") == (1910, "", 0);
    assert p[0 := ""] == ["", "LONG", "LONG", "HWY", "MT", "NOWHERE", "", ""];
  }

  lemma HighwayStreetType(rec: Record)
    ensures StreetTypePass(State(rec, ["", "LONG", "LONG", "HWY", "MT", "NOWHERE", "", ""]), Highway) ==
            (State(rec.(streetType := "HIGHWAY"), ["", "LONG", "LONG", "", "MT", "NOWHERE", "", ""]), 3)
  {
    var p := ["", "LONG", "LONG", "HWY", "MT", "NOWHERE", "", ""];
    assert FuzzyMatch("LONG", Highway.streetTypes, Highway.rank) == [];
    assert FuzzyMatch("HWY", Highway.streetTypes, Highway.rank) == ["HWY"];
    assert IsWord("LONG");
    assert FirstHit(p, 1, StreetTypeTest(Highway), IsWord) == 3;
    assert p[2] != "THE";
    assert GetMatchKey("HWY", Highway.streetTypes) == "HIGHWAY";
    assert p[3 := ""] == ["", "LONG", "LONG", "", "MT", "NOWHERE", "", ""];
  }

  lemma HighwayStreetName(rec: Record)
    requires rec.streetName == ""
    ensures StreetNamePass(State(rec, ["", "LONG", "LONG", "", "MT", "NOWHERE", "", ""]), 3) ==
            State(rec.(streetName := "LONG LONG"), ["", "", "", "", "MT", "NOWHERE", "", ""])
  {
    var p := ["", "LONG", "LONG", "", "MT", "NOWHERE", "", ""];
    assert IsWord("LONG") && !IsWord("");
    assert RunStart(p, 1) == 1;
    assert RunStart(p, 3) == 1;
    assert JoinSpaced(p[1..3]) == "LONG LONG" by {
      assert p[1..3] == ["LONG", "LONG"] && ["LONG", "LONG"][1..] == ["LONG"];
    }
    assert IndicesDown(3, 1) == [2, 1] by {
      assert IndicesDown(3, 2) == [2];
    }
    assert WordsBefore(p, 3) == ("LONG LONG", [2, 1]);
    var q := p[2 := ""];
    assert Blanked(p, [2, 1]) == Blanked(q, [1]) by { assert [2, 1][1..] == [1]; }
    assert Blanked(q, [1]) == q[1 := ""] by { assert [1][1..] == []; }
    assert q[1 := ""] == ["", "", "", "", "MT", "NOWHERE", "", ""];
  }

  lemma HighwaySuburb(rec: Record)
    ensures SuburbPass(State(rec, ["", "", "", "", "MT", "NOWHERE", "", ""]), 3, Highway) ==
            State(rec.(suburb := "MT NOWHERE"), ["", "", "", "", "", "", "", ""])
  {
    var p := ["", "", "", "", "MT", "NOWHERE", "", ""];
    assert !StringInSlice("MT", MapKeysToSlice(Highway.streetSuffixes));
    assert IsWord("MT") && IsWord("NOWHERE") && !IsWord("");
    assert RunEnd(p, 6) == 6;
    assert RunEnd(p, 4) == 6;
    assert JoinSpaced(p[4..6]) == "MT NOWHERE" by {
      assert p[4..6] == ["MT", "NOWHERE"] && ["MT", "NOWHERE"][1..] == ["NOWHERE"];
    }
    assert IndicesUp(4, 6) == [4, 5] by {
      assert IndicesUp(4, 5) == [4];
    }
    assert WordsAfter(p, 3) == ("MT NOWHERE", [4, 5]);
    var q := p[4 := ""];
    assert Blanked(p, [4, 5]) == Blanked(q, [5]) by { assert [4, 5][1..] == [5]; }
    assert Blanked(q, [5]) == q[5 := ""] by { assert [5][1..] == []; }
    assert q[5 := ""] == ["", "", "", "", "", "", "", ""];
  }

  /** Test address 2, "1910 LONG LONG HWY MT NOWHERE VIC 3216": the record the test expects,
      with no token left over. */
  lemma ScenarioHighway()
    ensures Process(State(EmptyRecord, HighwayTokens), Highway) ==
            State(EmptyRecord.(streetNumber := 1910, streetName := "LONG LONG",
                               streetType := "HIGHWAY", suburb := "MT NOWHERE",
                               postCode := 3216, state := "VIC"),
                  ["", "", "", "", "", "", "", ""])
  {
    assert !IsWord("1910") by { assert !IsLetter("1910"[0]); }
    HighwayPostcode();
    var r2 := EmptyRecord.(postCode := 3216);
    HighwayState(r2);
    var r3 := r2.(state := "VIC");
    HighwayStreetNumber(r3);
    var r4 := r3.(streetNumber := 1910, streetNumberSuffix := "", streetNumberEnd := 0);
    HighwayStreetType(r4);
    var r5 := r4.(streetType := "HIGHWAY");
    HighwayStreetName(r5);
    HighwaySuburb(r5.(streetName := "LONG LONG"));
  }
}
