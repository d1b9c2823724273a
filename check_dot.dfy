/** lib/queryBuilders/checkDot.js: the separator placed in front of a new step. */
module Separator {

  /** `''` for an empty string or one ending in `(` or `.`, and `.` for every other string. */
  function CheckDot(str: string := ""): (r: string)
    ensures r == "" || r == "."
    ensures r == "" <==> |str| == 0 || str[|str| - 1] == '(' || str[|str| - 1] == '.'
  {
    if EndsWith(str, '(') || EndsWith(str, '.') || |str| == 0 then "" else "."
  }

  /** JavaScript `str.endsWith(c)` for a one-character argument. */
  predicate EndsWith(str: string, c: char) {
    |str| > 0 && str[|str| - 1] == c
  }

  /** The default argument is the empty string, whose separator is empty. */
  lemma DefaultIsEmpty()
    ensures CheckDot() == ""
  {
  }
}
