// What the scanning helpers of AddressParts compute, as functions on the token sequence:
// findIndex, findIndexReverse, getStringBefore, getStringAfter, removeParts and
// matchAddressPart. The class AddressParts runs them as loops over its token array and is
// proved to compute these values.

module Scan {
  import opened Strings
  import opened Classifier
  import opened Dictionary

  /** The reference tables the engine reads, and the fuzzy ranker it consults. */
  datatype Tables = Tables(
    flatTypes: Dict,
    levelTypes: Dict,
    streetTypes: Dict,
    streetSuffixes: Dict,
    states: Dict,
    noNumberTypes: Dict,
    rank: Ranker)

  /** isPartStreetType on a token: the token fuzzy-matches the street-type table. */
  predicate IsStreetType(tok: string, t: Tables)
  {
    FuzzyMatch(tok, t.streetTypes, t.rank) != []
  }

  /** A token test handed to findIndex and findIndexReverse: isPartString, isPartAnyNumber,
      isPartStreetType or isPartAny, applied to the token at the index probed. */
  type TokenTest = string -> bool

  /** isPartStreetType as a test. */
  function StreetTypeTest(t: Tables): TokenTest
  {
    tok => IsStreetType(tok, t)
  }

  /** isPartAny: every slot passes. */
  const AnyToken: TokenTest := tok => true

  lemma AnyTokenAcceptsAll(tok: string)
    ensures AnyToken(tok)
  {
  }

  /** A consumed slot (the empty string) passes none of the tests but isPartAny, so no later
      pass can pick it up. */
  lemma ConsumedSlotFailsTests(t: Tables)
    ensures !IsWord("") && !IsAnyNumber("") && !StreetTypeTest(t)("")
  {
    FuzzyMatchCases("", t.streetTypes, t.rank);
  }

  /** findIndex's test at `i`: `current` holds at `i` and `last` at `i - 1`. */
  predicate Hit(p: seq<string>, i: int, current: TokenTest, last: TokenTest)
  {
    1 <= i < |p| && current(p[i]) && last(p[i - 1])
  }

  /** findIndex: the least index from `from` on where the test holds, 0 when there is none. */
  function FirstHit(p: seq<string>, from: nat, current: TokenTest, last: TokenTest): (r: nat)
    requires 1 <= from
    ensures r == 0 || (from <= r < |p| && Hit(p, r, current, last))
    decreases |p| - from
  {
    if from >= |p| then 0
    else if Hit(p, from, current, last) then from
    else FirstHit(p, from + 1, current, last)
  }

  /** findIndex gives the first hit: none lies between `from` and the result, and a result of
      0 means there is no hit from `from` on. */
  lemma {:induction false} FirstHitIsFirst(p: seq<string>, from: nat, current: TokenTest, last: TokenTest)
    requires 1 <= from
    ensures var r := FirstHit(p, from, current, last);
            forall j :: from <= j < (if r == 0 then |p| else r) ==> !Hit(p, j, current, last)
    decreases |p| - from
  {
    if from < |p| && !Hit(p, from, current, last) {
      FirstHitIsFirst(p, from + 1, current, last);
    }
  }

  /** findIndexReverse's test at `i`: `current` holds at `i` and `last` at `i + 1`. Past the
      last slot only isPartAny is ever probed, and it holds there; the model lets every test
      pass there. */
  predicate HitReverse(p: seq<string>, i: int, current: TokenTest, last: TokenTest)
  {
    0 <= i < |p| && current(p[i]) && (i + 1 < |p| ==> last(p[i + 1]))
  }

  /** findIndexReverse: the greatest index up to `from` where the test holds, 0 when there is
      none (a hit at index 0 also reads as 0). */
  function LastHit(p: seq<string>, from: int, current: TokenTest, last: TokenTest): (r: nat)
    requires -1 <= from < |p|
    ensures r != 0 ==> r <= from && HitReverse(p, r, current, last)
    decreases from + 1
  {
    if from < 0 then 0
    else if HitReverse(p, from, current, last) then from
    else LastHit(p, from - 1, current, last)
  }

  /** findIndexReverse gives the last hit: none lies between the result and `from`, and a
      result of 0 means there is no hit at 1 or above. */
  lemma {:induction false} LastHitIsLast(p: seq<string>, from: int, current: TokenTest, last: TokenTest)
    requires -1 <= from < |p|
    ensures var r := LastHit(p, from, current, last);
            forall j :: (if r == 0 then 1 else r + 1) <= j <= from ==> !HitReverse(p, j, current, last)
    decreases from + 1
  {
    if from >= 0 && !HitReverse(p, from, current, last) {
      LastHitIsLast(p, from - 1, current, last);
    }
  }

  /** Start of the run of word tokens that ends just before `end`. */
  function RunStart(p: seq<string>, end: nat): (lo: nat)
    requires end <= |p|
    ensures lo <= end
    ensures forall i :: lo <= i < end ==> IsWord(p[i])
    ensures lo > 0 ==> !IsWord(p[lo - 1])
    decreases end
  {
    if end == 0 || !IsWord(p[end - 1]) then end else RunStart(p, end - 1)
  }

  /** The indices `start - 1` down to `lo`, in that order. */
  function IndicesDown(start: int, lo: int): (r: seq<int>)
    requires lo <= start
    ensures |r| == start - lo
    ensures forall k :: 0 <= k < |r| ==> r[k] == start - 1 - k
    decreases start - lo
  {
    if lo == start then [] else IndicesDown(start, lo + 1) + [lo]
  }

  /** The indices `from` up to `hi - 1`, in that order. */
  function IndicesUp(from: int, hi: int): (r: seq<int>)
    requires from <= hi
    ensures |r| == hi - from
    ensures forall k :: 0 <= k < |r| ==> r[k] == from + k
    decreases hi - from
  {
    if hi == from then [] else IndicesUp(from, hi - 1) + [hi - 1]
  }

  /** getStringBefore: the maximal run of word tokens just before `start`, joined by single
      spaces in left-to-right order, and their indices from `start - 1` downwards. */
  function WordsBefore(p: seq<string>, start: nat): (r: (string, seq<int>))
    requires start <= |p|
    ensures |r.1| <= start
    ensures forall k :: 0 <= k < |r.1| ==> r.1[k] == start - 1 - k && IsWord(p[start - 1 - k])
    ensures |r.1| < start ==> !IsWord(p[start - 1 - |r.1|])
    ensures r.0 == JoinSpaced(p[start - |r.1|..start])
  {
    var lo := RunStart(p, start);
    (JoinSpaced(p[lo..start]), IndicesDown(start, lo))
  }

  /** End (exclusive) of the run of word tokens that starts at `from`. */
  function RunEnd(p: seq<string>, from: nat): (hi: nat)
    requires from <= |p|
    ensures from <= hi <= |p|
    ensures forall i :: from <= i < hi ==> IsWord(p[i])
    ensures hi < |p| ==> !IsWord(p[hi])
    decreases |p| - from
  {
    if from == |p| || !IsWord(p[from]) then from else RunEnd(p, from + 1)
  }

  /** getStringAfter: the maximal run of word tokens just after `start`, joined by single
      spaces, and their indices from `start + 1` upwards. */
  function WordsAfter(p: seq<string>, start: nat): (r: (string, seq<int>))
    requires start < |p|
    ensures start + 1 + |r.1| <= |p|
    ensures forall k :: 0 <= k < |r.1| ==> r.1[k] == start + 1 + k && IsWord(p[start + 1 + k])
    ensures start + 1 + |r.1| < |p| ==> !IsWord(p[start + 1 + |r.1|])
    ensures r.0 == JoinSpaced(p[start + 1..start + 1 + |r.1|])
  {
    var hi := RunEnd(p, start + 1);
    (JoinSpaced(p[start + 1..hi]), IndicesUp(start + 1, hi))
  }

  predicate InRange(idx: seq<int>, n: nat) { forall k :: 0 <= k < |idx| ==> 0 <= idx[k] < n }

  /** removeParts: the listed slots become "", in list order. */
  function Blanked(p: seq<string>, idx: seq<int>): (r: seq<string>)
    requires InRange(idx, |p|)
    ensures |r| == |p|
    decreases |idx|
  {
    if idx == [] then p else Blanked(p[idx[0] := ""], idx[1..])
  }

  /** After removeParts exactly the listed slots are "", and every other slot is kept. */
  lemma {:induction false} BlankedAt(p: seq<string>, idx: seq<int>)
    requires InRange(idx, |p|)
    ensures forall i :: 0 <= i < |p| ==> Blanked(p, idx)[i] == (if i in idx then "" else p[i])
    decreases |idx|
  {
    if idx != [] {
      BlankedAt(p[idx[0] := ""], idx[1..]);
      assert forall i :: i in idx <==> i == idx[0] || i in idx[1..];
    }
  }

  /** Blanking a single slot is a sequence update. */
  lemma BlankedOne(p: seq<string>, i: int)
    requires 0 <= i < |p|
    ensures Blanked(p, [i]) == p[i := ""]
  {
    assert [i][1..] == [];
  }

  /** Blanking one more slot at the end of the list. */
  lemma {:induction false} BlankedSnoc(p: seq<string>, idx: seq<int>, i: int)
    requires InRange(idx, |p|) && 0 <= i < |p|
    ensures Blanked(p, idx + [i]) == Blanked(p, idx)[i := ""]
    decreases |idx|
  {
    if idx == [] {
      assert idx + [i] == [i];
      BlankedOne(p, i);
    } else {
      assert (idx + [i])[1..] == idx[1..] + [i];
      BlankedSnoc(p[idx[0] := ""], idx[1..], i);
    }
  }

  /** Only consumes tokens: same length, and every slot either kept or blanked. */
  predicate Consumes(before: seq<string>, after: seq<string>)
  {
    |after| == |before| && forall i :: 0 <= i < |before| ==> after[i] == before[i] || after[i] == ""
  }

  lemma ConsumesTransitive(a: seq<string>, b: seq<string>, c: seq<string>)
    requires Consumes(a, b) && Consumes(b, c)
    ensures Consumes(a, c)
  {
  }

  /** Blanking a slot, and removeParts, only consume. */
  lemma BlankedConsumes(p: seq<string>, idx: seq<int>)
    requires InRange(idx, |p|)
    ensures Consumes(p, Blanked(p, idx))
  {
    BlankedAt(p, idx);
  }

  /** One growth step of matchAddressPart: the next token in front of the phrase so far. */
  function Grown(token: string, matched: string): string
  {
    if matched == "" then token else token + " " + matched
  }

  /** The loop of matchAddressPart from slot `i` down, with the phrase, fuzzy result and
      indices gathered so far; it stops at the first growth that no longer matches. */
  function GrowMatch(p: seq<string>, i: int, matched: string, result: seq<string>, idx: seq<int>,
                     d: Dict, rank: Ranker): (string, seq<string>, seq<int>)
    requires -1 <= i < |p|
    decreases i + 1
  {
    if i < 0 then (matched, result, idx)
    else
      var current := Grown(p[i], matched);
      var res := FuzzyMatch(current, d, rank);
      if res == [] then (matched, result, idx)
      else GrowMatch(p, i - 1, current, res, idx + [i], d, rank)
  }

  /** The state of that loop after matching the slots `i + 1 .. index`, counted down. */
  ghost predicate GrowState(p: seq<string>, index: nat, i: int, matched: string, result: seq<string>,
                            idx: seq<int>, d: Dict, rank: Ranker)
    requires index < |p|
  {
    -1 <= i <= index && |idx| == index - i &&
    (forall k :: 0 <= k < |idx| ==> idx[k] == index - k) &&
    (idx == [] ==> matched == "" && result == []) &&
    (idx != [] ==> matched == JoinSpaced(p[i + 1..index + 1]) &&
                   result == FuzzyMatch(matched, d, rank) && |result| == 1)
  }

  /** One successful growth step keeps the loop state. */
  lemma GrowStep(p: seq<string>, index: nat, i: nat, matched: string, result: seq<string>,
                 idx: seq<int>, d: Dict, rank: Ranker)
    requires i <= index < |p|
    requires GrowState(p, index, i, matched, result, idx, d, rank)
    requires FuzzyMatch(Grown(p[i], matched), d, rank) != []
    ensures GrowState(p, index, i - 1, Grown(p[i], matched),
                      FuzzyMatch(Grown(p[i], matched), d, rank), idx + [i], d, rank)
  {
    if idx == [] {
      assert p[i..index + 1] == [p[i]];
    } else {
      assert p[i..index + 1] == [p[i]] + p[i + 1..index + 1];
    }
  }

  /** The loop keeps its state and stops either at slot 0 or at a growth that does not match. */
  lemma {:induction false} GrowMatchShape(p: seq<string>, index: nat, i: int, matched: string,
                                          result: seq<string>, idx: seq<int>, d: Dict, rank: Ranker)
    requires index < |p|
    requires GrowState(p, index, i, matched, result, idx, d, rank)
    ensures |GrowMatch(p, i, matched, result, idx, d, rank).2| <= index + 1
    ensures GrowStopped(p, index, GrowMatch(p, i, matched, result, idx, d, rank), d, rank)
    decreases i + 1
  {
    if i >= 0 {
      var current := Grown(p[i], matched);
      if FuzzyMatch(current, d, rank) != [] {
        GrowStep(p, index, i, matched, result, idx, d, rank);
        GrowMatchShape(p, index, i - 1, current, FuzzyMatch(current, d, rank), idx + [i], d, rank);
      }
    }
  }

  /** The phrase of the slots `j .. index` matches some table string. */
  predicate PhraseMatches(p: seq<string>, j: nat, index: nat, d: Dict, rank: Ranker)
    requires j <= index < |p|
  {
    FuzzyMatch(JoinSpaced(p[j..index + 1]), d, rank) != []
  }

  /** Every phrase the loop grew through, from the token at `index` alone up to the whole
      run it has matched, matches the table. */
  lemma {:induction false} GrowMatchPrefixes(p: seq<string>, index: nat, i: int, matched: string,
                                             result: seq<string>, idx: seq<int>, d: Dict, rank: Ranker)
    requires index < |p|
    requires GrowState(p, index, i, matched, result, idx, d, rank)
    requires forall j: nat :: i < j <= index ==> PhraseMatches(p, j, index, d, rank)
    ensures var ix := GrowMatch(p, i, matched, result, idx, d, rank).2;
            forall j: nat :: index + 1 - |ix| <= j <= index ==> PhraseMatches(p, j, index, d, rank)
    decreases i + 1
  {
    if i >= 0 {
      var current := Grown(p[i], matched);
      if FuzzyMatch(current, d, rank) != [] {
        GrowStep(p, index, i, matched, result, idx, d, rank);
        assert PhraseMatches(p, i, index, d, rank);
        GrowMatchPrefixes(p, index, i - 1, current, FuzzyMatch(current, d, rank), idx + [i], d, rank);
      }
    }
  }

  /** Where the loop ends: its state after |ix| tokens, and no further growth matches. */
  ghost predicate GrowStopped(p: seq<string>, index: nat, out: (string, seq<string>, seq<int>),
                              d: Dict, rank: Ranker)
    requires index < |p|
  {
    var (m, res, ix) := out;
    |ix| <= index + 1 &&
    GrowState(p, index, index - |ix|, m, res, ix, d, rank) &&
    (|ix| <= index ==> FuzzyMatch(Grown(p[index - |ix|], m), d, rank) == [])
  }

  /** matchAddressPart: the code matched by the longest phrase ending at `index` (grown
      backwards while it keeps matching) and the indices of that phrase's tokens. */
  function PartMatch(p: seq<string>, index: nat, d: Dict, rank: Ranker): (r: (string, seq<int>))
    requires index < |p|
    ensures |r.1| <= index + 1
    ensures forall k :: 0 <= k < |r.1| ==> r.1[k] == index - k
  {
    var (matched, result, idx) := GrowMatch(p, index, "", [], [], d, rank);
    GrowMatchShape(p, index, index, "", [], [], d, rank);
    (GetMatchKey(if |result| == 1 then result[0] else matched, d), idx)
  }

  /** What matchAddressPart finds: no indices exactly when the token at `index` alone does
      not match; otherwise every phrase of the run, from that token alone up to the whole
      run, matches, the whole phrase matches exactly one table string, the code is that
      string's key, and one more token in front no longer matches. */
  lemma PartMatchMeaning(p: seq<string>, index: nat, d: Dict, rank: Ranker)
    requires index < |p|
    ensures var r := PartMatch(p, index, d, rank);
            (r.1 == [] <==> FuzzyMatch(p[index], d, rank) == []) &&
            (forall j: nat :: index + 1 - |r.1| <= j <= index ==> PhraseMatches(p, j, index, d, rank)) &&
            (r.1 == [] ==> r.0 == GetMatchKey("", d)) &&
            (r.1 != [] ==>
               var phrase := JoinSpaced(p[index + 1 - |r.1|..index + 1]);
               |FuzzyMatch(phrase, d, rank)| == 1 &&
               r.0 == GetMatchKey(FuzzyMatch(phrase, d, rank)[0], d) &&
               (|r.1| <= index ==> FuzzyMatch(p[index - |r.1|] + " " + phrase, d, rank) == []))
  {
    GrowMatchShape(p, index, index, "", [], [], d, rank);
    GrowMatchPrefixes(p, index, index, "", [], [], d, rank);
    var r := PartMatch(p, index, d, rank);
    if r.1 != [] {
      assert p[index..index + 1] == [p[index]];
    }
  }

  /** The code matchAddressPart returns is "" or the key of an entry whose code or display
      form is the target it looked up: the fuzzy match of the matched phrase, or "" when no
      token matched. */
  lemma PartMatchCodeIsKey(p: seq<string>, index: nat, d: Dict, rank: Ranker)
    requires index < |p|
    ensures var r := PartMatch(p, index, d, rank);
            var ms := if r.1 == [] then [""]
                      else FuzzyMatch(JoinSpaced(p[index + 1 - |r.1|..index + 1]), d, rank);
            |ms| == 1 &&
            (r.0 != "" ==> exists j :: 0 <= j < |d| && d[j].0 == r.0 && EntryMatches(d[j], ms[0]))
  {
    PartMatchMeaning(p, index, d, rank);
    var r := PartMatch(p, index, d, rank);
    var ms := if r.1 == [] then [""]
              else FuzzyMatch(JoinSpaced(p[index + 1 - |r.1|..index + 1]), d, rank);
    assert r.0 == GetMatchKey(ms[0], d);
    if r.0 != "" {
      GetMatchKeyFound(ms[0], d);
    }
  }
}
