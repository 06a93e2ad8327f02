/** The string helpers of the generator: glob matching over a list, capitalising, status words. */
module Utils {

  /**
   * A glob matcher: `matches(text, pattern)` holds when `pattern` accepts
   * `text`.  The generator delegates this to the minimatch library, whose
   * glob semantics are not part of this model.
   */
  type Matcher = (string, string) -> bool

  /** `globPatterns.some(pattern => minimatch(toMatch, pattern))` */
  function MatchesAny(toMatch: string, globPatterns: seq<string>, matches: Matcher): bool
  {
    if |globPatterns| == 0 then false
    else matches(toMatch, globPatterns[0]) || MatchesAny(toMatch, globPatterns[1..], matches)
  }

  /** True exactly when some pattern of the list matches; so never for an empty list. */
  lemma {:induction false} MatchesAnyIsSome(toMatch: string, globPatterns: seq<string>, matches: Matcher)
    ensures MatchesAny(toMatch, globPatterns, matches) <==>
            exists i :: 0 <= i < |globPatterns| && matches(toMatch, globPatterns[i])
  {
    if |globPatterns| > 0 {
      MatchesAnyIsSome(toMatch, globPatterns[1..], matches);
      if MatchesAny(toMatch, globPatterns[1..], matches) {
        var i :| 0 <= i < |globPatterns[1..]| && matches(toMatch, globPatterns[1..][i]);
        assert matches(toMatch, globPatterns[i + 1]);
      }
      if exists i :: 0 <= i < |globPatterns| && matches(toMatch, globPatterns[i]) {
        var i :| 0 <= i < |globPatterns| && matches(toMatch, globPatterns[i]);
        if i > 0 {
          assert matches(toMatch, globPatterns[1..][i - 1]);
        }
      }
    }
  }

  /** `String.prototype.toUpperCase` on one character, for the ASCII letters. */
  function ToUpper(c: char): char {
    if 'a' <= c <= 'z' then (c as int - 'a' as int + 'A' as int) as char else c
  }

  /** `str.charAt(0).toUpperCase() + str.slice(1)` */
  function UpperCaseFirstLetter(str: string): (r: string)
    ensures |r| == |str|
    ensures str == "" ==> r == ""
    ensures str != "" ==> r[0] == ToUpper(str[0]) && r[1..] == str[1..]
  {
    if str == "" then "" else [ToUpper(str[0])] + str[1..]
  }

  /** Capitalising twice is capitalising once. */
  lemma UpperCaseFirstLetterIdempotent(str: string)
    ensures UpperCaseFirstLetter(UpperCaseFirstLetter(str)) == UpperCaseFirstLetter(str)
  {
  }

  /** The word for an HTTP status used in generated names. */
  function TextForStatus(status: string): (text: string)
    ensures status == "200" ==> text == "Ok"
    ensures status == "201" ==> text == "Created"
    ensures status != "200" && status != "201" ==> text == status
  {
    match status
    case "200" => "Ok"
    case "201" => "Created"
    case _ => status
  }

  /** A successful status: one whose code text starts with `2`. */
  predicate IsSuccessStatus(status: string) {
    |status| > 0 && status[0] == '2'
  }

  /**
   * On successful statuses the status word is one-to-one, so two distinct
   * 2xx codes never yield the same name suffix.
   */
  lemma TextForStatusInjective(a: string, b: string)
    requires IsSuccessStatus(a) && IsSuccessStatus(b)
    requires TextForStatus(a) == TextForStatus(b)
    ensures a == b
  {
  }
}
