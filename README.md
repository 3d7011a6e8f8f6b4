# addressparser in Dafny

A model of the Go package `addressparser`. The package breaks one free-text Australian
postal address into an `AddressParts` record. The record holds the flat, level, street number,
street name, street type, suffix, suburb, state and postcode.

The model follows the package's four layers:

- **Normaliser** (`normaliser.dfy`, module `Normaliser`). This is what `LoadAddressString`
  does to the raw text. It drops every character outside `A-Za-z0-9`, space and hyphen. It
  upper-cases the rest and splits it on single spaces, as `strings.Split` does.
- **Token classifiers and numeric splitters** (`classifier.dfy`, module `Classifier`). These
  are the `isPart*` regular expressions written out as predicates on one token. The module
  also holds `splitNumberRange`, `splitMixedIndex`, `getAddressNumber` and `matchPostCode`.
- **Reference tables and fuzzy matcher** (`dictionary.dfy`, module `Dictionary`). It holds
  `stringInSlice`, `mapToSlice`, `mapKeysToSlice`, `getMatchKey` and `fuzzyMatch`.
- **Positional engine.** This layer is in three files:
  - `scan.dfy`, module `Scan`: the scanning helpers as functions on the token sequence.
  - `engine.dfy`, module `Engine`: one function per block of `ProcessAddress`, their
    composition `Process`, and what the pipeline guarantees.
  - `address_parts.dfy`, module `AddressParser`: the class `AddressParts`. It holds a token
    `array<string>` and the record fields. Its methods run the source's loops and update the
    fields in place. Each method is proved to compute the matching function of `Scan` or
    `Engine`.

`strings.dfy` (module `Strings`) holds character classes and `JoinSpaced`. `JoinSpaced` is
the single-space join that `strings.Join` and the repeated `fmt.Sprintf("%s %s", …)` calls
build. `scenarios.dfy` (module `Scenarios`) takes three addresses through every pass: test
address 2 of `address_test.go` and two made-up ones. It uses small tables and a ranker that
proposes nothing, so only exact table hits match.

Some things the source reads from outside are parameters here. The six dictionaries
(`flatTypes`, `levelTypes`, `streetTypes`, `streetSuffixes`, `australianStates`,
`addressTypesNoNumber`) are defined outside the file. So is the fuzzy ranker
(`fuzzy.RankFind` followed by `sort.Sort`). Both are gathered in `Scan.Tables`. A dictionary
is a sequence of (code, display) pairs, and that sequence fixes the order that a Go map
leaves open. The ranker is a function value. `Dictionary.SoundRanker` states what the library
promises about it, and lemmas take that as a hypothesis.

Two model choices need explaining:

- **Index tests.** `findIndex` and `findIndexReverse` take index predicates. The model passes
  token tests (`string -> bool`) instead.
- **Probing past the end.** `findIndexReverse` probes `last(index + 1)`, and that can fall
  one past the end. The source only ever passes `isPartAny` there, which ignores its index.
  The model lets the test pass at that position (`Scan.HitReverse`).

A token the engine has consumed is the empty string. A consumed slot passes no classifier.
Every pass only ever consumes.

## Model

| member | source | states |
|---|---|---|
| Strings.JoinSpaced | address-parser.go:317 | the words joined by single spaces, as `strings.Join` and the repeated `fmt.Sprintf("%s %s", …)` build a phrase |
| Strings.JoinSpacedCons | address-parser.go:355 | putting one word in front adds one separating space, as `getStringBefore` grows its phrase |
| Strings.JoinSpacedSnoc | address-parser.go:377 | appending one word adds one separating space, as `getStringAfter` grows its phrase |
| Strings.HasSuffix | address-parser.go:78 | `strings.HasSuffix`: the string ends with the suffix |
| Normaliser.ToUpper | address-parser.go:165 | a kept character becomes a normal one; a normal one is unchanged; a letter becomes its capital |
| Normaliser.Normalise | address-parser.go:160-166 | the result is no longer than the input and holds only `A-Z`, digits, space and hyphen |
| Normaliser.NormaliseChar | address-parser.go:165 | one character is dropped when the filter pattern matches it, and otherwise kept and upper-cased |
| Normaliser.NormaliseAppend | address-parser.go:165 | the filter and the upper-casing work character by character: normalising `a + b` is normalising `a`, then `b` |
| Normaliser.NormaliseFixesNormal | address-parser.go:165 | a string of normal characters is left unchanged |
| Normaliser.NormaliseIdempotent | address-parser.go:165 | normalising twice is normalising once |
| Normaliser.Split | address-parser.go:167 | `strings.Split(s, " ")`: one part more than there are spaces, no part holds a space, every character comes from `s` |
| Normaliser.JoinSplit | address-parser.go:166-167 | joining the stored parts with single spaces gives back the stored address string |
| Normaliser.SplitJoin | address-parser.go:167 | splitting space-free words joined by single spaces gives back the words |
| Normaliser.SplitNoSpace | address-parser.go:167 | a string without a space splits into itself alone |
| Normaliser.SplitAppend | address-parser.go:167 | splitting `w + " " + rest` gives `w` followed by the parts of `rest` |
| Normaliser.TokensAreNormal | address-parser.go:165-167 | every stored token is made of `A-Z`, digits and hyphens |
| Classifier.IsWord | address-parser.go:403-409 | `isPartString`: `^[a-zA-Z]+$`, a non-empty run of letters |
| Classifier.IsNumber | address-parser.go:411-414 | `isPartNumber`: `^[0-9]+$`, a non-empty run of digits |
| Classifier.IsNumberRange | address-parser.go:416-419 | `isPartNumberRange`, written on the digit prefix; `IsNumberRangeShape` ties it to the pattern |
| Classifier.IsMixed | address-parser.go:421-424 | `isPartMixed`, written on the digit prefix; `IsMixedShape` ties it to the pattern |
| Classifier.IsAnyNumber | address-parser.go:430-432 | `isPartAnyNumber`: a mixed, plain or range number |
| Classifier.DigitPrefix | address-parser.go:416-424 | the longest leading run of digits: all digits, and the next character is not a digit |
| Classifier.DigitPrefixAt | address-parser.go:416-424 | a digit run stopped by a non-digit is exactly the digit prefix |
| Classifier.IsNumberRangeShape | address-parser.go:416-419 | `IsNumberRange` holds exactly for two digit runs around one hyphen (`^([0-9]+)-([0-9]+)$`) |
| Classifier.IsMixedShape | address-parser.go:421-424 | `IsMixed` holds exactly for a digit run followed by one or two capitals (`^([0-9]+)([A-Z]{1,2})$`) |
| Classifier.NumberIsNotRangeOrMixed | address-parser.go:411-424 | a plain number is neither a range nor a mixed token |
| Classifier.DigitsValue | address-parser.go:398 | the decimal value of a digit string is below 10 to the power of its length |
| Classifier.Atoi | address-parser.go:398 | a digit string gives its decimal value; any other token gives 0 |
| Classifier.SplitNumberRange | address-parser.go:89-104 | any token that is not `N-M` gives (0, 0) |
| Classifier.SplitMixedIndex | address-parser.go:106-121 | a token that is not mixed gives (0, ""); a mixed token gives its trailing one or two letters |
| Classifier.SplitNumberRangeOf | address-parser.go:89-104 | splitting `a-b` gives back the values of `a` and `b` |
| Classifier.SplitMixedIndexOf | address-parser.go:106-121 | splitting `a` plus one or two capitals gives back the value of `a` and the capitals |
| Classifier.GetAddressNumber | address-parser.go:385-401 | a suffix only for a mixed token; a range end only for a range; a plain number gives just its value; mixed and range tokens are decomposed by their splitters |
| Classifier.MatchPostCode | address-parser.go:447-457 | a token of exactly four digits gives its value; the result is non-zero only for such a token, and below 10000 |
| Classifier.EmptyTokenClassifiesAsNothing | address-parser.go:403-457 | a consumed token matches no classifier and decomposes to zeroes |
| Classifier.DecompositionExamples | address-parser.go:385-401 | `"5-11"` gives (5, "", 11), `"168A"` gives (168, "A", 0), `"123"` gives (123, "", 0) |
| Dictionary.StringInSlice | address-parser.go:16-23 | true exactly when the string is in the list |
| Dictionary.MapToSlice | address-parser.go:25-31 | twice as many strings as the table has entries |
| Dictionary.MapToSliceLayout | address-parser.go:25-31 | entry `j` sits at positions `2j` (code) and `2j+1` (display form) |
| Dictionary.InMapToSlice | address-parser.go:25-31 | a string is in the flattened table exactly when some entry's code or display form is that string |
| Dictionary.MapKeysToSlice | address-parser.go:33-40 | the codes of the table, one per entry, in table order |
| Dictionary.GetMatchKey | address-parser.go:42-49 | `getMatchKey` as a scan of the table in order; `GetMatchKeyFirst` and `GetMatchKeyFound` state what it returns |
| Dictionary.GetMatchKeyFirst | address-parser.go:42-49 | "" when no entry matches; otherwise the code of the first entry whose code or display form is the item |
| Dictionary.GetMatchKeyFound | address-parser.go:42-49 | a non-empty result is the code of an entry that matches the item |
| Dictionary.FuzzyMatch | address-parser.go:51-87 | at most one result |
| Dictionary.FuzzyMatchCases | address-parser.go:51-87 | nothing for "", exactly `[phrase]` for a code or display form, nothing for any other single character, otherwise the best-ranked candidate exactly when its distance is below 10 or it ends with the phrase |
| Dictionary.FuzzyMatchFromTable | address-parser.go:58-86 | with a sound ranker, the result is a code or display form of the table, and a fuzzy result has the least distance |
| Scan.IsStreetType | address-parser.go:438-444 | `isPartStreetType`: the token has a fuzzy match in the street-type table |
| Scan.StreetTypeTest | address-parser.go:438-444 | `isPartStreetType` as a token test for the scans |
| Scan.AnyTokenAcceptsAll | address-parser.go:434-436 | `isPartAny` holds of every token |
| Scan.ConsumedSlotFailsTests | address-parser.go:403-444 | a consumed slot is not a word, not a number and not a street type |
| Scan.FirstHit | address-parser.go:459-468 | 0, or an index from `startIndex` on where `current` holds there and `last` holds just before |
| Scan.FirstHitIsFirst | address-parser.go:459-468 | no hit lies before the result; a result of 0 means there is no hit at all |
| Scan.LastHit | address-parser.go:470-479 | 0, or an index up to `startIndex` where `current` holds there and `last` just after |
| Scan.LastHitIsLast | address-parser.go:470-479 | no hit lies between the result and `startIndex`; 0 means no hit at 1 or above |
| Scan.RunStart | address-parser.go:342-361 | the start of the maximal run of words ending just before `end` |
| Scan.RunEnd | address-parser.go:363-383 | the end of the maximal run of words starting at `from` |
| Scan.IndicesDown | address-parser.go:342-361 | the indices `start-1` down to `lo`, in that order |
| Scan.IndicesUp | address-parser.go:363-383 | the indices `from` up to `hi-1`, in that order |
| Scan.WordsBefore | address-parser.go:342-361 | the maximal run of words just before `start`, joined left to right by single spaces, with exactly their indices counted down from `start-1` |
| Scan.WordsAfter | address-parser.go:363-383 | the maximal run of words just after `start`, joined by single spaces, with exactly their indices counted up from `start+1` |
| Scan.Blanked | address-parser.go:295-299 | the length is kept |
| Scan.BlankedAt | address-parser.go:295-299 | exactly the listed slots become "", every other slot is kept |
| Scan.BlankedOne | address-parser.go:295-299 | blanking one slot is a sequence update |
| Scan.BlankedSnoc | address-parser.go:295-299 | blanking one more listed slot blanks it on top of the others |
| Scan.BlankedConsumes | address-parser.go:295-299 | removeParts only consumes |
| Scan.ConsumesTransitive | address-parser.go:176-285 | consuming twice is consuming |
| Scan.GrowMatch | address-parser.go:312-331 | the loop of `matchAddressPart`, grown one token to the left while the phrase matches; `GrowMatchShape` and `GrowMatchPrefixes` state where it stops |
| Scan.GrowStep | address-parser.go:312-331 | one successful growth step of matchAddressPart keeps the loop state |
| Scan.GrowMatchShape | address-parser.go:312-331 | the loop ends in its loop state, and no further growth matches |
| Scan.GrowMatchPrefixes | address-parser.go:312-331 | every phrase the loop grew through, from the token at `index` alone to the whole run, matches the table |
| Scan.PartMatch | address-parser.go:306-340 | the matched indices are a descending run that starts at `index` |
| Scan.PartMatchMeaning | address-parser.go:306-340 | no indices exactly when the token alone does not match; every phrase of the run matches, so the loop stops at the first failing growth; the whole phrase has exactly one fuzzy match, the code is its key, and one more token in front no longer matches |
| Scan.PartMatchCodeIsKey | address-parser.go:333-339 | a non-empty code is the key of an entry whose code or display form is the matched target |
| Engine.AddressPartNoNumber | address-parser.go:301-304 | `addressPartNoNumber`: the code is a code or display form of the no-number table |
| Engine.FlatPass | address-parser.go:182-194 | only consumes tokens; changes no field but the flat fields |
| Engine.FlatApply | address-parser.go:186-193 | only consumes tokens; changes no field but the flat fields |
| Engine.LevelPass | address-parser.go:197-208 | only consumes tokens; changes no field but the level fields |
| Engine.LevelApply | address-parser.go:200-207 | only consumes tokens; changes no field but the level fields |
| Engine.PostcodePass | address-parser.go:213-220 | only consumes; changes only the postcode, and only to the value of a four-digit last token, which is then consumed |
| Engine.StatePass | address-parser.go:223-231 | only consumes tokens; changes no field but the state |
| Engine.StreetNumberPass | address-parser.go:234-240 | only consumes tokens; changes no field but the street-number fields |
| Engine.TakeStreetNumber | address-parser.go:236-239 | only consumes tokens; changes no field but the street-number fields |
| Engine.StreetTypePass | address-parser.go:243-257 | only consumes; changes only street name and type; index 0 leaves the state unchanged; a hit is a street-type token after a word |
| Engine.StreetNamePass | address-parser.go:261-268 | only consumes tokens; changes no field but the street name |
| Engine.SuburbPass | address-parser.go:271-283 | only consumes tokens; changes no field but suffix and suburb |
| Engine.EarlyPasses | address-parser.go:180-240 | only consumes tokens; leaves street name and type alone |
| Engine.LatePasses | address-parser.go:243-283 | only consumes tokens; changes no field but street name, type, suffix and suburb |
| Engine.Process | address-parser.go:176-285 | the token slice keeps its length and tokens only ever become "" |
| Engine.PostCodeFromPostcodePass | address-parser.go:213-220 | from the postcode block on, the postcode changes only to the value of a four-digit last token, which ends consumed |
| Engine.PostCodeFromLastToken | address-parser.go:213-220 | a non-zero postcode comes from a last token of exactly four digits, and that token ends consumed |
| Engine.FourDigitLastTokenIsPostCode | address-parser.go:180-220 | when the first token is not a word, a non-zero four-digit last token always becomes the postcode |
| Engine.StreetTypeSentinel | address-parser.go:243-257 | the street-type block sets "-" only after "THE"; the street name is then "THE " and the token, and both are consumed |
| Engine.SentinelOnlyAfterThe | address-parser.go:176-285 | a final street type of "-" means a street-type token followed "THE"; the name is "THE " and that token; both are consumed |
| AddressParser.Parse | address-parser.go:145-155 | an error exactly when the normalised string has fewer than two spaces (three tokens); otherwise at least three tokens, only consumed |
| AddressParser.NewAddress | address-parser.go:145-155 | a fresh record; on success its state is exactly `Parse`'s, on error it is the loaded tokens and the zero record |
| AddressParser.AddressParts.constructor | address-parser.go:124-142 | every field at its zero value, no tokens |
| AddressParser.AddressParts.LoadAddressString | address-parser.go:158-173 | stores the normalised string and its split; an error exactly when there are fewer than 3 tokens; the record is untouched |
| AddressParser.AddressParts.RemoveParts | address-parser.go:295-299 | the array becomes `Blanked` of its old contents; no field changes |
| AddressParser.AddressParts.FindIndex | address-parser.go:459-468 | the result is `FirstHit` from `startIndex` |
| AddressParser.AddressParts.FindIndexReverse | address-parser.go:470-479 | the result is `LastHit` from `startIndex` |
| AddressParser.AddressParts.GetStringBefore | address-parser.go:342-361 | the result is `WordsBefore` of the tokens |
| AddressParser.AddressParts.GetStringAfter | address-parser.go:363-383 | the result is `WordsAfter` of the tokens |
| AddressParser.AddressParts.MatchAddressPart | address-parser.go:306-340 | the result is `PartMatch` of the tokens |
| AddressParser.AddressParts.ProcessAddress | address-parser.go:176-285 | the new fields and tokens are exactly `Process` of the old ones |
| AddressParser.AddressParts.LookForFlatType | address-parser.go:182-194 | the new state is `FlatPass` of the old |
| AddressParser.AddressParts.ApplyFlatType | address-parser.go:186-193 | the new state is `FlatApply` of the old |
| AddressParser.AddressParts.LookForLevelType | address-parser.go:197-208 | the new state is `LevelPass` of the old |
| AddressParser.AddressParts.ApplyLevelType | address-parser.go:200-207 | the new state is `LevelApply` of the old |
| AddressParser.AddressParts.LookForPostCode | address-parser.go:213-220 | the new state is `PostcodePass` of the old |
| AddressParser.AddressParts.LookForState | address-parser.go:223-231 | the new state is `StatePass` of the old |
| AddressParser.AddressParts.LookForStreetNumber | address-parser.go:234-240 | the new state is `StreetNumberPass` of the old |
| AddressParser.AddressParts.ApplyStreetNumber | address-parser.go:236-239 | the new state is `TakeStreetNumber` of the old |
| AddressParser.AddressParts.FindStreetType | address-parser.go:243-257 | the new state and the index found are `StreetTypePass` of the old state |
| AddressParser.AddressParts.FindStreetName | address-parser.go:261-268 | the new state is `StreetNamePass` of the old |
| AddressParser.AddressParts.FindSuburb | address-parser.go:271-283 | the new state is `SuburbPass` of the old |
| Scenarios.ScenarioProcess | address-parser.go:176-285 | "12 SMITH ST SYDNEY NSW 2000" gives number 12, street SMITH, type ST, suburb SYDNEY, state NSW and postcode 2000, with no token left over |
| Scenarios.ScenarioTheAvenue | address-parser.go:176-285 | "UNIT 5 1 THE AVENUE NEWTOWN" gives flat UNIT 5, number 1, street name "THE AVENUE", street type "-" and suburb NEWTOWN, with no token left over |
| Scenarios.ScenarioPostcode | address-parser.go:213-220 | the postcode block on the first scenario |
| Scenarios.ScenarioState | address-parser.go:223-231 | the state block on the first scenario |
| Scenarios.ScenarioStreetNumber | address-parser.go:234-240 | the street-number block on the first scenario |
| Scenarios.ScenarioStreetType | address-parser.go:243-257 | the street-type block on the first scenario |
| Scenarios.ScenarioStreetName | address-parser.go:261-268 | the street-name block on the first scenario |
| Scenarios.ScenarioSuburb | address-parser.go:271-283 | the suburb block on the first scenario |
| Scenarios.ScenarioFlatMatch | address-parser.go:183-185 | the flat block finds the number at 1 and matches "UNIT" at 0 |
| Scenarios.ScenarioFlat | address-parser.go:182-194 | the flat block on the second scenario |
| Scenarios.ScenarioNoLevel | address-parser.go:197-198 | the level block finds nothing on the second scenario |
| Scenarios.ScenarioNoPostcodeNoState | address-parser.go:213-231 | no postcode and no state on the second scenario |
| Scenarios.ScenarioFlatStreetNumber | address-parser.go:234-240 | the street-number block on the second scenario |
| Scenarios.ScenarioSentinel | address-parser.go:243-252 | the "THE" branch of the street-type block on the second scenario |
| Scenarios.ScenarioHighway | address_test.go:27-40 | test address 2, "1910 LONG LONG HWY MT NOWHERE VIC 3216", gives exactly the expected record (number 1910, street LONG LONG, type HIGHWAY, suburb MT NOWHERE, state VIC, postcode 3216) with no token left over, as address_test.go:333-338 requires |
| Scenarios.HighwayPostcode | address-parser.go:213-220 | the postcode block on test address 2 takes 3216 |
| Scenarios.HighwayState | address-parser.go:223-231 | the state block matches "VIC" and stops when "NOWHERE VIC" fails |
| Scenarios.HighwayStreetNumber | address-parser.go:234-240 | the street-number block takes 1910 from slot 0 |
| Scenarios.HighwayStreetType | address-parser.go:243-257 | the street-type block finds "HWY" after "LONG" and stores its code HIGHWAY |
| Scenarios.HighwayStreetName | address-parser.go:261-268 | the street-name block takes "LONG LONG" |
| Scenarios.HighwaySuburb | address-parser.go:271-283 | the suburb block takes "MT NOWHERE" |
| Scenarios.ScenarioSentinelSuburb | address-parser.go:261-283 | the street-name block keeps the name from "THE"; the suburb block takes NEWTOWN |

## Left out

- The fuzzy ranker. `fuzzy.RankFind` (a subsequence test with Levenshtein distance) and the
  `sort.Sort` that follows are an external library. They are a function parameter here.
  `SoundRanker` states what the library promises about them.
- Go map order. `mapToSlice`, `mapKeysToSlice` and `getMatchKey` walk a Go map, whose order
  is unspecified. Here they walk a sequence of pairs, which fixes one order.
- Dictionary contents. The tables are defined in a file that is not part of this model, so
  they are parameters. Most end-to-end expectations in address_test.go:9-250 depend on those
  tables and on the fuzzy library, and are not modelled. Test address 2 needs only exact hits
  on "HWY" and "VIC", so `Scenarios.ScenarioHighway` states it with one-entry tables; the
  other two scenarios use small made-up tables.
- Regex compilation failures and `errors.Wrap`. The patterns are constants and always
  compile, so the model writes the classifiers out directly and does not model that error
  path.
- `strconv.Atoi`. Out-of-range values are not modelled: digit strings are unbounded
  naturals. Signs are not modelled either: only digit strings ever reach `Atoi`, because
  `getAddressNumber` is only called on number tokens.
- Integer width. `int` fields are unbounded `nat`s; the fields are never negative.
- `fmt.Sprintf("%s %s", …)` is string concatenation with one space.
- The error value. The one error (`"Address string too short"`) is `LoadError.TooShort`.
- Out-of-range panics. `ProcessAddress` requires at least one token, since the source would
  index slot 0. Loading always stores at least one token.
- `hasPartIndex` is written inline in `SuburbPass` and `FindSuburb` as a bounds test.
  `isPartNumberOrMixed` is never called by the core and is not modelled.
- The test scaffolding (`spew.Dump`, `TestAddress`) is not modelled.
- Blocks as helpers. The flat, level and street-number blocks of `ProcessAddress` are split
  into two methods each: one that finds, one that applies what was found. The statements
  and their order are unchanged.
