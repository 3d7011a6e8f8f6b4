// The token classifiers (isPartString, isPartNumber, isPartNumberRange, isPartMixed,
// isPartAnyNumber, matchPostCode) and the numeric splitters (splitNumberRange,
// splitMixedIndex, getAddressNumber), written on one token rather than on an index.

module Classifier {
  import opened Strings

  predicate AllDigits(s: string) { forall i :: 0 <= i < |s| ==> IsDigit(s[i]) }

  /** `^[a-zA-Z]+$` */
  predicate IsWord(t: string) { |t| > 0 && forall i :: 0 <= i < |t| ==> IsLetter(t[i]) }

  /** `^[0-9]+$` */
  predicate IsNumber(t: string) { |t| > 0 && AllDigits(t) }

  /** Length of the longest run of digits `t` starts with. */
  function DigitPrefix(t: string): (k: nat)
    ensures k <= |t|
    ensures AllDigits(t[..k])
    ensures k < |t| ==> !IsDigit(t[k])
  {
    if t == [] || !IsDigit(t[0]) then 0
    else
      var k := 1 + DigitPrefix(t[1..]);
      assert forall i :: 1 <= i < k ==> t[..k][i] == t[1..][..k - 1][i - 1];
      k
  }

  /** `^([0-9]+)-([0-9]+)$` */
  predicate IsNumberRange(t: string)
  {
    var k := DigitPrefix(t);
    0 < k && k + 1 < |t| && t[k] == '-' && IsNumber(t[k + 1..])
  }

  /** `^([0-9]+)([A-Z]{1,2})$` */
  predicate IsMixed(t: string)
  {
    var k := DigitPrefix(t);
    0 < k < |t| <= k + 2 && forall i :: k <= i < |t| ==> IsUpperLetter(t[i])
  }

  /** isPartAnyNumber: a plain, mixed or range number. */
  predicate IsAnyNumber(t: string) { IsMixed(t) || IsNumber(t) || IsNumberRange(t) }

  /** A leading digit run that stops at `k` is the whole digit prefix. */
  lemma {:induction false} DigitPrefixAt(t: string, k: nat)
    requires k <= |t| && AllDigits(t[..k]) && (k < |t| ==> !IsDigit(t[k]))
    ensures DigitPrefix(t) == k
  {
    if k > 0 {
      assert IsDigit(t[..k][0]);
      var u := t[1..][..k - 1];
      assert AllDigits(u) by {
        assert forall i :: 0 <= i < |u| ==> u[i] == t[..k][i + 1];
      }
      DigitPrefixAt(t[1..], k - 1);
    }
  }

  /** The range classifier agrees with its pattern: two digit runs around one hyphen. */
  lemma IsNumberRangeShape(t: string)
    ensures IsNumberRange(t) <==>
            exists k :: 0 < k < |t| && t[k] == '-' && IsNumber(t[..k]) && IsNumber(t[k + 1..])
  {
    if exists k :: 0 < k < |t| && t[k] == '-' && IsNumber(t[..k]) && IsNumber(t[k + 1..]) {
      var k :| 0 < k < |t| && t[k] == '-' && IsNumber(t[..k]) && IsNumber(t[k + 1..]);
      DigitPrefixAt(t, k);
    }
  }

  /** The mixed classifier agrees with its pattern: a digit run, then one or two capitals. */
  lemma IsMixedShape(t: string)
    ensures IsMixed(t) <==>
            exists k :: 0 < k < |t| <= k + 2 && IsNumber(t[..k]) &&
                        forall i :: k <= i < |t| ==> IsUpperLetter(t[i])
  {
    if exists k :: 0 < k < |t| <= k + 2 && IsNumber(t[..k]) &&
                   forall i :: k <= i < |t| ==> IsUpperLetter(t[i]) {
      var k :| 0 < k < |t| <= k + 2 && IsNumber(t[..k]) &&
               forall i :: k <= i < |t| ==> IsUpperLetter(t[i]);
      DigitPrefixAt(t, k);
    }
  }

  /** A plain number is neither a range nor a mixed token. */
  lemma NumberIsNotRangeOrMixed(t: string)
    ensures IsNumber(t) ==> !IsNumberRange(t) && !IsMixed(t)
  {
    if IsNumber(t) {
      DigitPrefixAt(t, |t|);
    }
  }

  function Pow10(n: nat): (p: nat)
    ensures p >= 1
  {
    if n == 0 then 1 else 10 * Pow10(n - 1)
  }

  /** The decimal value of a digit string (strconv.Atoi without its 64-bit bound). */
  function DigitsValue(d: string): (v: nat)
    requires AllDigits(d)
    ensures v < Pow10(|d|)
  {
    if d == [] then 0
    else
      var init := d[..|d| - 1];
      assert AllDigits(init) by { assert forall i :: 0 <= i < |init| ==> init[i] == d[i]; }
      10 * DigitsValue(init) + (d[|d| - 1] as int - '0' as int)
  }

  /** strconv.Atoi on a token, zero when the token is not a digit string. */
  function Atoi(t: string): (v: nat)
    ensures IsNumber(t) ==> v == DigitsValue(t)
    ensures !IsNumber(t) ==> v == 0
  {
    if IsNumber(t) then DigitsValue(t) else 0
  }

  /** splitNumberRange: the two ends of `N-M`, zeroes for any other token. */
  function SplitNumberRange(t: string): (r: (nat, nat))
    ensures !IsNumberRange(t) ==> r == (0, 0)
  {
    if IsNumberRange(t) then
      var k := DigitPrefix(t);
      (DigitsValue(t[..k]), DigitsValue(t[k + 1..]))
    else (0, 0)
  }

  /** splitMixedIndex: the number and the letters of `N` plus one or two capitals, zero and
      the empty string for any other token. */
  function SplitMixedIndex(t: string): (r: (nat, string))
    ensures !IsMixed(t) ==> r == (0, "")
    ensures IsMixed(t) ==> 1 <= |r.1| <= 2 && r.1 == t[|t| - |r.1|..]
  {
    if IsMixed(t) then
      var k := DigitPrefix(t);
      (DigitsValue(t[..k]), t[k..])
    else (0, "")
  }

  /** Splitting `a-b` gives back the values of `a` and `b`. */
  lemma SplitNumberRangeOf(a: string, b: string)
    requires IsNumber(a) && IsNumber(b)
    ensures IsNumberRange(a + "-" + b)
    ensures SplitNumberRange(a + "-" + b) == (DigitsValue(a), DigitsValue(b))
  {
    var t := a + "-" + b;
    assert t[..|a|] == a;
    assert t[|a| + 1..] == b;
    DigitPrefixAt(t, |a|);
  }

  /** Splitting `a` followed by one or two capitals gives back the value of `a` and the
      capitals. */
  lemma SplitMixedIndexOf(a: string, s: string)
    requires IsNumber(a) && 1 <= |s| <= 2 && forall i :: 0 <= i < |s| ==> IsUpperLetter(s[i])
    ensures IsMixed(a + s)
    ensures SplitMixedIndex(a + s) == (DigitsValue(a), s)
  {
    var t := a + s;
    assert t[..|a|] == a;
    assert t[|a|..] == s;
    DigitPrefixAt(t, |a|);
  }

  /** getAddressNumber: (number, letter suffix, range end). The suffix is set only for a
      mixed token, the end only for a range, and a plain number gives just its value. */
  function GetAddressNumber(t: string): (r: (nat, string, nat))
    ensures r.1 != "" ==> IsMixed(t)
    ensures r.2 != 0 ==> IsNumberRange(t)
    ensures IsNumber(t) ==> r == (DigitsValue(t), "", 0)
    ensures IsMixed(t) ==> r == (SplitMixedIndex(t).0, SplitMixedIndex(t).1, 0)
    ensures IsNumberRange(t) ==> r == (SplitNumberRange(t).0, "", SplitNumberRange(t).1)
  {
    NumberIsNotRangeOrMixed(t);
    if IsMixed(t) then
      var (n, s) := SplitMixedIndex(t);
      (n, s, 0)
    else if IsNumberRange(t) then
      var (n, e) := SplitNumberRange(t);
      (n, "", e)
    else (Atoi(t), "", 0)
  }

  /** matchPostCode: the value of a token of exactly four digits, zero otherwise. */
  function MatchPostCode(t: string): (v: nat)
    ensures |t| == 4 && IsNumber(t) ==> v == DigitsValue(t)
    ensures v != 0 ==> |t| == 4 && IsNumber(t) && v == DigitsValue(t)
    ensures v < 10000
  {
    if |t| == 4 && IsNumber(t) then DigitsValue(t) else 0
  }

  /** A consumed slot (the empty string) matches no classifier. */
  lemma EmptyTokenClassifiesAsNothing()
    ensures !IsWord("") && !IsNumber("") && !IsNumberRange("") && !IsMixed("")
    ensures !IsAnyNumber("") && MatchPostCode("") == 0 && GetAddressNumber("") == (0, "", 0)
  {
  }

  /** `getAddressNumber` on "5-11", "168A" and "123". */
  lemma DecompositionExamples()
    ensures GetAddressNumber("5-11") == (5, "", 11)
    ensures GetAddressNumber("168A") == (168, "A", 0)
    ensures GetAddressNumber("123") == (123, "", 0)
  {
    SplitNumberRangeOf("5", "11");
    assert "5" + "-" + "11" == "5-11";
    SplitMixedIndexOf("168", "A");
    assert "168" + "A" == "168A";
    NumberIsNotRangeOrMixed("123");
    assert "123"[..2] == "12" && "12"[..1] == "1" && "1"[..0] == "";
  }
}
