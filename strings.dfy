// Character classes and the string helpers the parser builds phrases with.

module Strings {

  predicate IsUpperLetter(c: char) { 'A' <= c <= 'Z' }

  predicate IsLowerLetter(c: char) { 'a' <= c <= 'z' }

  predicate IsLetter(c: char) { IsUpperLetter(c) || IsLowerLetter(c) }

  predicate IsDigit(c: char) { '0' <= c <= '9' }

  /** The words of `ws` joined by single spaces, as `strings.Join(ws, " ")` does and as the
      parser's repeated `fmt.Sprintf("%s %s", ...)` calls build a phrase. */
  function JoinSpaced(ws: seq<string>): string
  {
    if ws == [] then ""
    else if |ws| == 1 then ws[0]
    else ws[0] + " " + JoinSpaced(ws[1..])
  }

  /** Prepending one word on the left adds one separating space, unless it is the only word. */
  lemma JoinSpacedCons(w: string, ws: seq<string>)
    ensures JoinSpaced([w] + ws) == if ws == [] then w else w + " " + JoinSpaced(ws)
  {
    assert ([w] + ws)[1..] == ws;
  }

  /** Appending one word on the right adds one separating space. */
  lemma {:induction false} JoinSpacedSnoc(ws: seq<string>, w: string)
    requires ws != []
    ensures JoinSpaced(ws + [w]) == JoinSpaced(ws) + " " + w
  {
    if |ws| == 1 {
      assert ws + [w] == [ws[0], w];
    } else {
      assert (ws + [w])[1..] == ws[1..] + [w];
      JoinSpacedSnoc(ws[1..], w);
    }
  }

  /** `strings.HasSuffix(s, suffix)`. */
  predicate HasSuffix(s: string, suffix: string)
  {
    |suffix| <= |s| && s[|s| - |suffix|..] == suffix
  }
}
