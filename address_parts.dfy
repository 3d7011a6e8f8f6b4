// AddressParts: the record the parser fills in place, with its token array, and the
// methods of the source that run loops over that array or update its fields. Each method
// is proved to compute the corresponding function of modules Scan and Engine.

module AddressParser {
  import opened Strings
  import opened Normaliser
  import opened Classifier
  import opened Dictionary
  import opened Scan
  import opened Engine

  /** The one error the parser reports. */
  datatype LoadError = TooShort

  datatype Option<T> = None | Some(value: T)

  datatype Result<T> = Ok(value: T) | Err(error: LoadError)

  /** NewAddress as a function: normalise, split, reject fewer than three tokens, then run
      every pass on a fresh record. */
  function Parse(raw: string, t: Tables): (r: Result<State>)
    ensures r.Err? <==> CountSpaces(Normalise(raw)) < 2
    ensures r.Ok? ==> Consumes(Split(Normalise(raw)), r.value.parts) && |r.value.parts| >= 3
  {
    var parts := Split(Normalise(raw));
    if |parts| < 3 then Err(TooShort) else Ok(Process(State(EmptyRecord, parts), t))
  }

  /** NewAddress: a fresh record, loaded and, when loading succeeds, processed. It computes
      exactly Parse. */
  method NewAddress(address: string, t: Tables) returns (ap: AddressParts, err: Option<LoadError>)
    ensures fresh(ap) && fresh(ap.addressStringParts)
    ensures ap.addressString == Normalise(address)
    ensures err.Some? <==> Parse(address, t).Err?
    ensures err.None? ==> ap.Current() == Parse(address, t).value
    ensures err.Some? ==> ap.Current() == State(EmptyRecord, Split(Normalise(address)))
  {
    ap := new AddressParts();
    err := ap.LoadAddressString(address);
    if err.Some? {
      return;
    }
    ap.ProcessAddress(t);
  }

  class AddressParts {
    var addressString: string
    var addressStringParts: array<string>
    var levelType: string
    var levelNumber: nat
    var flatType: string
    var flatNumber: nat
    var flatNumberSuffix: string
    var streetNumber: nat
    var streetNumberEnd: nat
    var streetNumberSuffix: string
    var streetName: string
    var streetType: string
    var streetSuffix: string
    var suburb: string
    var postCode: nat
    var state: string

    /** The extracted fields, as a value. */
    function Fields(): Record
      reads this
    {
      Record(levelType, levelNumber, flatType, flatNumber, flatNumberSuffix, streetNumber,
             streetNumberEnd, streetNumberSuffix, streetName, streetType, streetSuffix, suburb,
             postCode, state)
    }

    /** `new(AddressParts)`: every field at its zero value and no tokens. */
    constructor ()
      ensures addressString == "" && addressStringParts.Length == 0 && Fields() == EmptyRecord
    {
      addressString := "";
      addressStringParts := new string[0];
      levelType, levelNumber := "", 0;
      flatType, flatNumber, flatNumberSuffix := "", 0, "";
      streetNumber, streetNumberEnd, streetNumberSuffix := 0, 0, "";
      streetName, streetType, streetSuffix := "", "", "";
      suburb, postCode, state := "", 0, "";
    }

    /** LoadAddressString: store the normalised string and its tokens; an error when there
        are fewer than three tokens (the string and tokens are stored either way). */
    method LoadAddressString(raw: string) returns (err: Option<LoadError>)
      modifies this
      ensures addressString == Normalise(raw)
      ensures fresh(addressStringParts) && addressStringParts[..] == Split(addressString)
      ensures err == (if addressStringParts.Length < 3 then Some(TooShort) else None)
      ensures Fields() == old(Fields())
    {
      addressString := Normalise(raw);
      var parts := Split(addressString);
      addressStringParts := new string[|parts|](i requires 0 <= i < |parts| => parts[i]);
      if addressStringParts.Length < 3 {
        return Some(TooShort);
      }
      return None;
    }

    /** removeParts: blank the listed slots. */
    method RemoveParts(indexes: seq<int>)
      requires InRange(indexes, addressStringParts.Length)
      modifies addressStringParts
      ensures addressStringParts[..] == Blanked(old(addressStringParts[..]), indexes)
      ensures Fields() == old(Fields())
    {
      ghost var p := addressStringParts[..];
      for k := 0 to |indexes|
        invariant addressStringParts[..] == Blanked(p, indexes[..k])
      {
        addressStringParts[indexes[k]] := "";
        assert indexes[..k + 1] == indexes[..k] + [indexes[k]];
        BlankedSnoc(p, indexes[..k], indexes[k]);
      }
      assert indexes[..|indexes|] == indexes;
    }

    /** findIndex */
    method FindIndex(startIndex: nat, current: TokenTest, last: TokenTest) returns (found: nat)
      requires 1 <= startIndex
      ensures found == FirstHit(addressStringParts[..], startIndex, current, last)
    {
      var index := startIndex;
      while index < addressStringParts.Length
        invariant startIndex <= index
        invariant FirstHit(addressStringParts[..], startIndex, current, last) ==
                  FirstHit(addressStringParts[..], index, current, last)
        decreases addressStringParts.Length - index
      {
        if current(addressStringParts[index]) && last(addressStringParts[index - 1]) {
          return index;
        }
        index := index + 1;
      }
      return 0;
    }

    /** findIndexReverse */
    method FindIndexReverse(startIndex: int, current: TokenTest, last: TokenTest)
      returns (found: nat)
      requires -1 <= startIndex < addressStringParts.Length
      ensures found == LastHit(addressStringParts[..], startIndex, current, last)
    {
      var index := startIndex;
      while index >= 0
        invariant -1 <= index <= startIndex
        invariant LastHit(addressStringParts[..], startIndex, current, last) ==
                  LastHit(addressStringParts[..], index, current, last)
      {
        if current(addressStringParts[index]) &&
           (index + 1 == addressStringParts.Length || last(addressStringParts[index + 1])) {
          return index;
        }
        index := index - 1;
      }
      return 0;
    }

    /** getStringBefore */
    method GetStringBefore(startIndex: nat) returns (matchedString: string, matchedIndex: seq<int>)
      requires startIndex <= addressStringParts.Length
      ensures (matchedString, matchedIndex) == WordsBefore(addressStringParts[..], startIndex)
    {
      ghost var p := addressStringParts[..];
      matchedString, matchedIndex := "", [];
      var i := startIndex - 1;
      while i >= 0
        invariant -1 <= i < startIndex
        invariant RunStart(p, startIndex) == RunStart(p, i + 1)
        invariant matchedIndex == IndicesDown(startIndex, i + 1)
        invariant matchedString == JoinSpaced(p[i + 1..startIndex])
        invariant matchedString == "" <==> i + 1 == startIndex
      {
        var addressPart := addressStringParts[i];
        if !IsWord(addressPart) {
          assert RunStart(p, i + 1) == i + 1;
          return;
        }
        assert p[i..startIndex] == [addressPart] + p[i + 1..startIndex];
        JoinSpacedCons(addressPart, p[i + 1..startIndex]);
        if matchedString == "" {
          matchedString := addressPart;
        } else {
          matchedString := addressPart + " " + matchedString;
        }
        matchedIndex := matchedIndex + [i];
        i := i - 1;
      }
      assert RunStart(p, 0) == 0;
    }

    /** getStringAfter */
    method GetStringAfter(startIndex: nat) returns (matchedString: string, matchedIndex: seq<int>)
      requires startIndex < addressStringParts.Length
      ensures (matchedString, matchedIndex) == WordsAfter(addressStringParts[..], startIndex)
    {
      ghost var p := addressStringParts[..];
      matchedString, matchedIndex := "", [];
      var i := startIndex + 1;
      while i < addressStringParts.Length
        invariant startIndex + 1 <= i <= |p|
        invariant RunEnd(p, startIndex + 1) == RunEnd(p, i)
        invariant matchedIndex == IndicesUp(startIndex + 1, i)
        invariant matchedString == JoinSpaced(p[startIndex + 1..i])
        invariant matchedString == "" <==> i == startIndex + 1
      {
        var addressPart := addressStringParts[i];
        if !IsWord(addressPart) {
          return;
        }
        if matchedString == "" {
          assert p[startIndex + 1..i + 1] == [addressPart];
          matchedString := addressPart;
        } else {
          assert p[startIndex + 1..i + 1] == p[startIndex + 1..i] + [addressPart];
          JoinSpacedSnoc(p[startIndex + 1..i], addressPart);
          matchedString := matchedString + " " + addressPart;
        }
        matchedIndex := matchedIndex + [i];
        i := i + 1;
      }
    }

    /** matchAddressPart */
    method MatchAddressPart(index: nat, addressTypes: Dict, rank: Ranker)
      returns (matchedPart: string, matchedIndex: seq<int>)
      requires index < addressStringParts.Length
      ensures (matchedPart, matchedIndex) == PartMatch(addressStringParts[..], index, addressTypes, rank)
    {
      ghost var p := addressStringParts[..];
      matchedPart, matchedIndex := "", [];
      var matchResult: seq<string> := [];
      var i: int := index;
      while i >= 0
        invariant -1 <= i <= index
        invariant GrowMatch(p, index, "", [], [], addressTypes, rank) ==
                  GrowMatch(p, i, matchedPart, matchResult, matchedIndex, addressTypes, rank)
      {
        var currentPart;
        if matchedPart == "" {
          currentPart := addressStringParts[i];
        } else {
          currentPart := addressStringParts[i] + " " + matchedPart;
        }
        var result := FuzzyMatch(currentPart, addressTypes, rank);
        if result == [] {
          break;
        }
        matchResult := result;
        matchedIndex := matchedIndex + [i];
        matchedPart := currentPart;
        i := i - 1;
      }
      if |matchResult| == 1 {
        matchedPart := matchResult[0];
      }
      matchedPart := GetMatchKey(matchedPart, addressTypes);
    }

    /** The working state: the fields and the current tokens. */
    function Current(): State
      reads this, addressStringParts
    {
      State(Fields(), addressStringParts[..])
    }

    /** ProcessAddress: the passes in order, filling the fields and blanking the tokens
        each pass consumes; the outcome is exactly the pipeline function Process. */
    method ProcessAddress(t: Tables)
      requires addressStringParts.Length >= 1
      modifies this, addressStringParts
      ensures addressStringParts == old(addressStringParts) && addressString == old(addressString)
      ensures Current() == Process(old(Current()), t)
    {
      ghost var s0 := Current();
      if IsWord(addressStringParts[0]) {
        LookForFlatType(t);
        LookForLevelType(t);
      }
      LookForPostCode();
      LookForState(t);
      LookForStreetNumber(t);
      assert Current() == EarlyPasses(s0, t);
      var foundIndex := FindStreetType(t);
      FindStreetName(foundIndex);
      FindSuburb(foundIndex, t);
    }

    /** The flat-type block of ProcessAddress. */
    method LookForFlatType(t: Tables)
      modifies this, addressStringParts
      ensures addressStringParts == old(addressStringParts) && addressString == old(addressString)
      ensures Current() == FlatPass(old(Current()), t)
    {
      var foundIndex := FindIndex(1, IsAnyNumber, IsWord);
      if foundIndex != 0 {
        var matchedFlatType, matchedIndex := MatchAddressPart(foundIndex - 1, t.flatTypes, t.rank);
        ApplyFlatType(foundIndex, matchedFlatType, matchedIndex, t);
      }
    }

    /** The flat-type block once the number and the type match are known. */
    method ApplyFlatType(foundIndex: nat, matchedFlatType: string, matchedIndex: seq<int>, t: Tables)
      requires foundIndex < addressStringParts.Length
      requires InRange(matchedIndex, addressStringParts.Length)
      modifies this, addressStringParts
      ensures addressStringParts == old(addressStringParts) && addressString == old(addressString)
      ensures Current() == FlatApply(old(Current()), foundIndex, matchedFlatType, matchedIndex, t)
    {
      ghost var s := Current();
      if matchedFlatType != "" {
        flatType := matchedFlatType;
        ghost var q := s.parts;
        if !AddressPartNoNumber(matchedFlatType, t) {
          var (number, suffix, _) := GetAddressNumber(addressStringParts[foundIndex]);
          flatNumber, flatNumberSuffix := number, suffix;
          RemoveParts([foundIndex]);
          BlankedOne(s.parts, foundIndex);
          q := s.parts[foundIndex := ""];
        }
        ghost var rec := Fields();
        RemoveParts(matchedIndex);
        assert Current() == State(rec, Blanked(q, matchedIndex));
      }
    }

    /** The level-type block of ProcessAddress. */
    method LookForLevelType(t: Tables)
      modifies this, addressStringParts
      ensures addressStringParts == old(addressStringParts) && addressString == old(addressString)
      ensures Current() == LevelPass(old(Current()), t)
    {
      var foundIndex := FindIndex(1, IsAnyNumber, IsWord);
      if foundIndex != 0 {
        var matchedLevelType, matchedIndex := MatchAddressPart(foundIndex - 1, t.levelTypes, t.rank);
        ApplyLevelType(foundIndex, matchedLevelType, matchedIndex, t);
      }
    }

    /** The level-type block once the number and the type match are known. */
    method ApplyLevelType(foundIndex: nat, matchedLevelType: string, matchedIndex: seq<int>, t: Tables)
      requires foundIndex < addressStringParts.Length
      requires InRange(matchedIndex, addressStringParts.Length)
      modifies this, addressStringParts
      ensures addressStringParts == old(addressStringParts) && addressString == old(addressString)
      ensures Current() == LevelApply(old(Current()), foundIndex, matchedLevelType, matchedIndex, t)
    {
      ghost var s := Current();
      if matchedLevelType != "" {
        levelType := matchedLevelType;
        ghost var q := s.parts;
        if !AddressPartNoNumber(matchedLevelType, t) {
          var (number, _, _) := GetAddressNumber(addressStringParts[foundIndex]);
          levelNumber := number;
          RemoveParts([foundIndex]);
          BlankedOne(s.parts, foundIndex);
          q := s.parts[foundIndex := ""];
        }
        ghost var rec := Fields();
        RemoveParts(matchedIndex);
        assert Current() == State(rec, Blanked(q, matchedIndex));
      }
    }

    /** The postcode block of ProcessAddress. */
    method LookForPostCode()
      requires addressStringParts.Length >= 1
      modifies this, addressStringParts
      ensures addressStringParts == old(addressStringParts) && addressString == old(addressString)
      ensures Current() == PostcodePass(old(Current()))
    {
      var lastIndex := addressStringParts.Length - 1;
      if IsNumber(addressStringParts[lastIndex]) {
        var code := MatchPostCode(addressStringParts[lastIndex]);
        if code != 0 {
          postCode := code;
          RemoveParts([lastIndex]);
        }
      }
    }

    /** The state block of ProcessAddress. */
    method LookForState(t: Tables)
      requires addressStringParts.Length >= 1
      modifies this, addressStringParts
      ensures addressStringParts == old(addressStringParts) && addressString == old(addressString)
      ensures Current() == StatePass(old(Current()), t)
    {
      var foundIndex := FindIndexReverse(addressStringParts.Length - 1, IsWord, AnyToken);
      if foundIndex != 0 {
        var matchedState, matchedIndex := MatchAddressPart(foundIndex, t.states, t.rank);
        if matchedState != "" {
          state := matchedState;
          RemoveParts(matchedIndex);
        }
      }
    }

    /** The street-number block of ProcessAddress. */
    method LookForStreetNumber(t: Tables)
      modifies this, addressStringParts
      ensures addressStringParts == old(addressStringParts) && addressString == old(addressString)
      ensures Current() == StreetNumberPass(old(Current()), t)
    {
      var foundIndex := FindIndex(1, IsWord, IsAnyNumber);
      if foundIndex != 0 {
        ApplyStreetNumber(foundIndex - 1);
      }
    }

    /** The street-number block once the number token is known. */
    method ApplyStreetNumber(index: nat)
      requires index < addressStringParts.Length
      modifies this, addressStringParts
      ensures addressStringParts == old(addressStringParts) && addressString == old(addressString)
      ensures Current() == TakeStreetNumber(old(Current()), index)
    {
      ghost var s := Current();
      var (number, suffix, end) := GetAddressNumber(addressStringParts[index]);
      streetNumber, streetNumberSuffix, streetNumberEnd := number, suffix, end;
      ghost var rec := Fields();
      RemoveParts([index]);
      BlankedOne(s.parts, index);
      assert Current() == State(rec, s.parts[index := ""]);
    }

    /** The street-type block of ProcessAddress; gives the index found, 0 for none. */
    method FindStreetType(t: Tables) returns (foundIndex: nat)
      modifies this, addressStringParts
      ensures addressStringParts == old(addressStringParts) && addressString == old(addressString)
      ensures (Current(), foundIndex) == StreetTypePass(old(Current()), t)
    {
      foundIndex := FindIndex(1, StreetTypeTest(t), IsWord);
      if foundIndex != 0 {
        if addressStringParts[foundIndex - 1] == "THE" {
          streetName := addressStringParts[foundIndex - 1] + " " + addressStringParts[foundIndex];
          streetType := NoStreetType;
          RemoveParts([foundIndex - 1, foundIndex]);
        } else {
          streetType := GetMatchKey(addressStringParts[foundIndex], t.streetTypes);
          RemoveParts([foundIndex]);
        }
      }
    }

    /** The street-name block of ProcessAddress. */
    method FindStreetName(foundIndex: nat)
      requires foundIndex < addressStringParts.Length
      modifies this, addressStringParts
      ensures addressStringParts == old(addressStringParts) && addressString == old(addressString)
      ensures Current() == StreetNamePass(old(Current()), foundIndex)
    {
      var lastIndex := addressStringParts.Length - 1;
      if foundIndex > 0 && streetName == "" {
        var matchedIndex;
        streetName, matchedIndex := GetStringBefore(foundIndex);
        RemoveParts(matchedIndex);
      } else if streetType == "" && streetName == "" && IsWord(addressStringParts[lastIndex]) {
        streetName := addressStringParts[lastIndex];
      }
    }

    /** The street-suffix and suburb block of ProcessAddress. */
    method FindSuburb(foundIndex: nat, t: Tables)
      requires foundIndex < addressStringParts.Length
      modifies this, addressStringParts
      ensures addressStringParts == old(addressStringParts) && addressString == old(addressString)
      ensures Current() == SuburbPass(old(Current()), foundIndex, t)
    {
      var anchor := foundIndex;
      var nextIndex := foundIndex + 1;
      if foundIndex > 0 && nextIndex <= addressStringParts.Length - 1 {
        if StringInSlice(addressStringParts[nextIndex], MapKeysToSlice(t.streetSuffixes)) {
          streetSuffix := addressStringParts[nextIndex];
          RemoveParts([nextIndex]);
          anchor := nextIndex;
        }
        var matchedIndex;
        suburb, matchedIndex := GetStringAfter(anchor);
        RemoveParts(matchedIndex);
      }
    }
  }
}
