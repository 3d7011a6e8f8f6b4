// The normaliser of LoadAddressString: drop every character outside `A-Za-z0-9`, space and
// hyphen, upper-case what is left, and split it on single spaces.

module Normaliser {
  import opened Strings

  /** The characters the pattern `[^A-Za-z0-9 -]+` leaves in place. */
  predicate IsKept(c: char) { IsLetter(c) || IsDigit(c) || c == ' ' || c == '-' }

  /** The characters a normalised address string is made of. */
  predicate IsNormal(c: char) { IsUpperLetter(c) || IsDigit(c) || c == ' ' || c == '-' }

  /** `strings.ToUpper` on one character; only ASCII letters survive the filter. */
  function ToUpper(c: char): (u: char)
    ensures IsKept(c) ==> IsNormal(u)
    ensures IsNormal(c) ==> u == c
    ensures IsLowerLetter(c) ==> IsUpperLetter(u) && u as int == c as int - 32
  {
    if IsLowerLetter(c) then (c as int - 32) as char else c
  }

  /** `strings.ToUpper(reg.ReplaceAllString(s, ""))`. */
  function Normalise(s: string): (r: string)
    ensures |r| <= |s|
    ensures forall i :: 0 <= i < |r| ==> IsNormal(r[i])
  {
    if s == [] then []
    else (if IsKept(s[0]) then [ToUpper(s[0])] else []) + Normalise(s[1..])
  }

  /** A single character is dropped, or kept and upper-cased. */
  lemma NormaliseChar(c: char)
    ensures Normalise([c]) == if IsKept(c) then [ToUpper(c)] else []
  {
    assert [c][1..] == [];
  }

  /** The normaliser works character by character: it distributes over concatenation. */
  lemma {:induction false} NormaliseAppend(a: string, b: string)
    ensures Normalise(a + b) == Normalise(a) + Normalise(b)
  {
    if a == [] {
      assert a + b == b;
    } else {
      assert (a + b)[0] == a[0];
      assert (a + b)[1..] == a[1..] + b;
      NormaliseAppend(a[1..], b);
    }
  }

  /** A string that is already normalised is left as it is. */
  lemma {:induction false} NormaliseFixesNormal(s: string)
    requires forall i :: 0 <= i < |s| ==> IsNormal(s[i])
    ensures Normalise(s) == s
  {
    if s != [] {
      NormaliseFixesNormal(s[1..]);
      assert [s[0]] + s[1..] == s;
    }
  }

  /** Normalising twice is normalising once. */
  lemma NormaliseIdempotent(s: string)
    ensures Normalise(Normalise(s)) == Normalise(s)
  {
    NormaliseFixesNormal(Normalise(s));
  }

  /** The number of space characters in `s`. */
  function CountSpaces(s: string): nat
  {
    if s == [] then 0 else (if s[0] == ' ' then 1 else 0) + CountSpaces(s[1..])
  }

  /** `strings.Split(s, " ")`: one part more than there are spaces, none holding a space,
      every character taken from `s`. */
  function Split(s: string): (r: seq<string>)
    ensures |r| == CountSpaces(s) + 1
    ensures forall k :: 0 <= k < |r| ==> ' ' !in r[k]
    ensures forall k, i :: 0 <= k < |r| && 0 <= i < |r[k]| ==> r[k][i] in s
  {
    if s == [] then [""]
    else
      var rest := Split(s[1..]);
      if s[0] == ' ' then [""] + rest
      else [[s[0]] + rest[0]] + rest[1..]
  }

  /** Joining the parts with single spaces gives back the string that was split. */
  lemma {:induction false} JoinSplit(s: string)
    ensures JoinSpaced(Split(s)) == s
  {
    if s != [] {
      var rest := Split(s[1..]);
      JoinSplit(s[1..]);
      if s[0] == ' ' {
        assert ([""] + rest)[1..] == rest;
        assert s == [' '] + s[1..];
      } else {
        var r := [[s[0]] + rest[0]] + rest[1..];
        assert r[1..] == rest[1..];
        assert s == [s[0]] + s[1..];
        if |rest| > 1 {
          assert JoinSpaced(rest) == rest[0] + " " + JoinSpaced(rest[1..]);
        }
      }
    }
  }

  /** Splitting words that hold no space and joining them back is the identity. */
  lemma {:induction false} SplitJoin(ws: seq<string>)
    requires ws != []
    requires forall k :: 0 <= k < |ws| ==> ' ' !in ws[k]
    ensures Split(JoinSpaced(ws)) == ws
  {
    if |ws| == 1 {
      SplitNoSpace(ws[0]);
    } else {
      SplitJoin(ws[1..]);
      SplitAppend(ws[0], JoinSpaced(ws[1..]));
      assert [ws[0]] + ws[1..] == ws;
    }
  }

  lemma {:induction false} SplitNoSpace(w: string)
    requires ' ' !in w
    ensures Split(w) == [w]
  {
    if w != [] {
      SplitNoSpace(w[1..]);
      assert [w[0]] + w[1..] == w;
    }
  }

  lemma {:induction false} SplitAppend(w: string, rest: string)
    requires ' ' !in w
    ensures Split(w + " " + rest) == [w] + Split(rest)
  {
    if w == [] {
      assert w + " " + rest == [' '] + rest;
      assert (w + " " + rest)[1..] == rest;
    } else {
      assert (w + " " + rest)[1..] == w[1..] + " " + rest;
      SplitAppend(w[1..], rest);
      assert [w[0]] + w[1..] == w;
    }
  }

  /** The tokens LoadAddressString stores: upper-case letters, digits and hyphens only. */
  lemma TokensAreNormal(raw: string)
    ensures forall k, i :: 0 <= k < |Split(Normalise(raw))| && 0 <= i < |Split(Normalise(raw))[k]| ==>
              IsNormal(Split(Normalise(raw))[k][i]) && Split(Normalise(raw))[k][i] != ' '
  {
  }
}
