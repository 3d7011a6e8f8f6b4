// Reference tables and the fuzzy dictionary matcher: stringInSlice, mapToSlice,
// mapKeysToSlice, getMatchKey and fuzzyMatch.

module Dictionary {
  import opened Strings

  /** A reference table: (code, display) pairs. A sequence fixes the iteration order that a
      Go map leaves unspecified. */
  type Dict = seq<(string, string)>

  /** An entry matches a string when its code or its display form equals it. */
  predicate EntryMatches(e: (string, string), item: string) { e.0 == item || e.1 == item }

  /** stringInSlice */
  function StringInSlice(str: string, list: seq<string>): (found: bool)
    ensures found <==> str in list
  {
    if list == [] then false else list[0] == str || StringInSlice(str, list[1..])
  }

  /** mapToSlice: every code followed by its display form. */
  function MapToSlice(d: Dict): (r: seq<string>)
    ensures |r| == 2 * |d|
  {
    if d == [] then [] else [d[0].0, d[0].1] + MapToSlice(d[1..])
  }

  /** Entry `j` of the table sits at positions 2j (code) and 2j+1 (display form). */
  lemma {:induction false} MapToSliceLayout(d: Dict)
    ensures forall j :: 0 <= j < |d| ==>
              MapToSlice(d)[2 * j] == d[j].0 && MapToSlice(d)[2 * j + 1] == d[j].1
  {
    if d != [] {
      MapToSliceLayout(d[1..]);
      var rest := MapToSlice(d[1..]);
      assert forall j :: 1 <= j < |d| ==> rest[2 * (j - 1)] == d[j].0 && rest[2 * (j - 1) + 1] == d[j].1;
    }
  }

  /** A string is in the flattened table exactly when some entry matches it. */
  lemma InMapToSlice(d: Dict, s: string)
    ensures s in MapToSlice(d) <==> exists j :: 0 <= j < |d| && EntryMatches(d[j], s)
  {
    var r := MapToSlice(d);
    MapToSliceLayout(d);
    if s in r {
      var i :| 0 <= i < |r| && r[i] == s;
      var j := i / 2;
      assert i == 2 * j || i == 2 * j + 1;
      assert EntryMatches(d[j], s);
    }
    if exists j :: 0 <= j < |d| && EntryMatches(d[j], s) {
      var j :| 0 <= j < |d| && EntryMatches(d[j], s);
      assert r[2 * j] == d[j].0 && r[2 * j + 1] == d[j].1;
    }
  }

  /** mapKeysToSlice: the codes, in table order. */
  function MapKeysToSlice(d: Dict): (r: seq<string>)
    ensures |r| == |d|
    ensures forall j :: 0 <= j < |d| ==> r[j] == d[j].0
  {
    if d == [] then [] else [d[0].0] + MapKeysToSlice(d[1..])
  }

  /** getMatchKey: the code of the first entry whose code or display form is `item`, or the
      empty string when no entry matches. */
  function GetMatchKey(item: string, d: Dict): (key: string)
  {
    if d == [] then ""
    else if EntryMatches(d[0], item) then d[0].0
    else GetMatchKey(item, d[1..])
  }

  /** getMatchKey finds the first matching entry: "" when no entry matches, and otherwise
      the code of the matching entry that no earlier entry precedes. */
  lemma {:induction false} GetMatchKeyFirst(item: string, d: Dict)
    ensures (forall j :: 0 <= j < |d| ==> !EntryMatches(d[j], item)) ==> GetMatchKey(item, d) == ""
    ensures forall j ::
              (0 <= j < |d| && EntryMatches(d[j], item) &&
               forall i :: 0 <= i < j ==> !EntryMatches(d[i], item)) ==> GetMatchKey(item, d) == d[j].0
  {
    if d != [] && !EntryMatches(d[0], item) {
      GetMatchKeyFirst(item, d[1..]);
      assert forall j :: 1 <= j < |d| ==> d[1..][j - 1] == d[j];
    }
  }

  /** A non-empty code returned by getMatchKey belongs to an entry that matches the item. */
  lemma {:induction false} GetMatchKeyFound(item: string, d: Dict)
    requires GetMatchKey(item, d) != ""
    ensures exists j :: 0 <= j < |d| && d[j].0 == GetMatchKey(item, d) && EntryMatches(d[j], item)
  {
    if !EntryMatches(d[0], item) {
      GetMatchKeyFound(item, d[1..]);
      var j :| 0 <= j < |d[1..]| && d[1..][j].0 == GetMatchKey(item, d[1..]) &&
               EntryMatches(d[1..][j], item);
      assert d[j + 1] == d[1..][j];
    }
  }

  /** One candidate of fuzzy.RankFind: a target string and its edit distance from the
      phrase looked up. */
  datatype Rank = Rank(target: string, distance: nat)

  /** fuzzy.RankFind followed by sort.Sort, an external library whose internals are not
      modelled: it maps a phrase and a candidate list to ranked candidates. */
  type Ranker = (string, seq<string>) -> seq<Rank>

  /** What the library promises of its ranking: every target is drawn from the candidate
      list, and the candidates come sorted by ascending distance. */
  ghost predicate SoundRanker(rank: Ranker)
  {
    (forall s, l, k :: 0 <= k < |rank(s, l)| ==> rank(s, l)[k].target in l) &&
    (forall s, l, j, k :: 0 <= j < k < |rank(s, l)| ==> rank(s, l)[j].distance <= rank(s, l)[k].distance)
  }

  /** Best-ranked candidates at this distance or more are accepted only as a suffix match. */
  const FuzzyScore: nat := 10

  /** fuzzyMatch: the empty list for no match, else the one matched table string. */
  function FuzzyMatch(phrase: string, d: Dict, rank: Ranker): (r: seq<string>)
    ensures |r| <= 1
  {
    if phrase == "" then []
    else
      var list := MapToSlice(d);
      if StringInSlice(phrase, list) then [phrase]
      else if |phrase| == 1 then []
      else
        var ranked := rank(phrase, list);
        if ranked == [] then []
        else if ranked[0].distance >= FuzzyScore && !HasSuffix(ranked[0].target, phrase) then []
        else [ranked[0].target]
  }

  /** The cases of fuzzyMatch: nothing for the empty phrase; the phrase itself when it is a
      code or display form of the table; nothing for any other single character; otherwise
      the best-ranked candidate, exactly when it is closer than FuzzyScore or ends with the
      phrase. */
  lemma FuzzyMatchCases(phrase: string, d: Dict, rank: Ranker)
    ensures var r := FuzzyMatch(phrase, d, rank);
            (phrase == "" ==> r == []) &&
            (phrase != "" && phrase in MapToSlice(d) ==> r == [phrase]) &&
            (|phrase| == 1 && phrase !in MapToSlice(d) ==> r == []) &&
            (r != [] && phrase !in MapToSlice(d) ==>
               var ranked := rank(phrase, MapToSlice(d));
               ranked != [] && r == [ranked[0].target] &&
               (ranked[0].distance < FuzzyScore || HasSuffix(ranked[0].target, phrase))) &&
            (phrase != "" && phrase !in MapToSlice(d) && |phrase| > 1 ==>
               var ranked := rank(phrase, MapToSlice(d));
               ranked != [] && (ranked[0].distance < FuzzyScore || HasSuffix(ranked[0].target, phrase)) ==>
                 r == [ranked[0].target])
  {
  }

  /** With a sound ranker, a match is a string of the table, and a fuzzy match is a
      candidate of least distance. */
  lemma FuzzyMatchFromTable(phrase: string, d: Dict, rank: Ranker)
    requires SoundRanker(rank)
    ensures forall x :: x in FuzzyMatch(phrase, d, rank) ==>
              exists j :: 0 <= j < |d| && EntryMatches(d[j], x)
    ensures FuzzyMatch(phrase, d, rank) != [] && phrase !in MapToSlice(d) ==>
              forall k :: 0 <= k < |rank(phrase, MapToSlice(d))| ==>
                rank(phrase, MapToSlice(d))[0].distance <= rank(phrase, MapToSlice(d))[k].distance
  {
    var r := FuzzyMatch(phrase, d, rank);
    if r != [] {
      var list := MapToSlice(d);
      if phrase !in list {
        assert rank(phrase, list)[0].target in list;
      }
      InMapToSlice(d, r[0]);
    }
  }
}
