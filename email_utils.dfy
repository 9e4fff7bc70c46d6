/**
 * EmailUtils.isEmailValid: a light plausibility check of an email address. A string is a
 * sequence of Unicode scalar values (`char`), whereas JavaScript's `length` and indexing count
 * UTF-16 code units. The answer is the same either way: '@' and '.' are single code units and
 * never halves of a surrogate pair, so the first and last elements are '@' or '.' under one
 * reading exactly when they are under the other; and a string that passes has an '@' that is
 * neither first nor last, so it has at least three elements under both readings.
 */
module EmailUtils {

  /** The argument as JavaScript sees it: a string, or any other value. */
  datatype JsValue = JsString(s: string) | NonString

  /** `s.includes(c)` for a one-character needle. */
  function Includes(s: string, c: char): (r: bool)
    ensures r <==> c in s
  {
    if s == [] then false
    else
      assert s == [s[0]] + s[1..];
      s[0] == c || Includes(s[1..], c)
  }

  /** A character `'@.'.includes(...)` rejects at either end of an address. */
  predicate IsEdgeForbidden(c: char) {
    Includes("@.", c)
  }

  /**
   * `isEmailValid(value)`: a string of at least three characters that contains '@' and
   * neither starts nor ends with '@' or '.'. Anything that is not a string is invalid.
   */
  function IsEmailValid(value: JsValue): (r: bool)
    ensures r <==>
      value.JsString?
      && |value.s| >= 3
      && '@' in value.s
      && value.s[0] != '@' && value.s[0] != '.'
      && value.s[|value.s| - 1] != '@' && value.s[|value.s| - 1] != '.'
  {
    match value
    case NonString => false
    case JsString(s) =>
      var l := |s|;
      l >= 3 && Includes(s, '@') && !IsEdgeForbidden(s[0]) && !IsEdgeForbidden(s[l - 1])
  }

  /** Valid and invalid addresses, one for each rule of `isEmailValid`. */
  lemma EmailExamples()
    ensures IsEmailValid(JsString("a@b"))
    ensures !IsEmailValid(JsString("@b.com"))
    ensures !IsEmailValid(JsString("a@"))
    ensures !IsEmailValid(JsString(""))
    ensures !IsEmailValid(NonString)
    ensures !IsEmailValid(JsString(".a@b"))
    ensures !IsEmailValid(JsString("a@b."))
    ensures !IsEmailValid(JsString("abc"))
  {
  }
}
