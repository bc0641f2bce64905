/**
 * The field rules the forms declare (`required`, `minLength`, `pattern`),
 * checked in the order the form library checks them: an empty field fails
 * `required`, a non-empty one is then held to its length and pattern.
 */
module FormRules {
  import opened Common

  datatype FieldError = Required | MinLength | Pattern

  /**
   * A string's JavaScript `length`: its UTF-16 code units. A character
   * outside the Basic Multilingual Plane is a surrogate pair and counts twice.
   */
  function Utf16Length(s: string): (n: nat)
    ensures |s| <= n <= 2 * |s|
    decreases |s|
  {
    if s == [] then 0
    else (if s[0] as int > 0xFFFF then 2 else 1) + Utf16Length(s[1..])
  }

  /** For text within the Basic Multilingual Plane the two lengths agree. */
  lemma {:induction false} Utf16LengthOfBmp(s: string)
    requires forall i :: 0 <= i < |s| ==> s[i] as int <= 0xFFFF
    ensures Utf16Length(s) == |s|
    decreases |s|
  {
    if s != [] {
      Utf16LengthOfBmp(s[1..]);
    }
  }

  /** One emoji is two code units long, so it meets `minLength: 2` on its own. */
  lemma OneEmojiMeetsMinLengthTwo()
    ensures Utf16Length("\U{1F600}") == 2
    ensures CheckText("\U{1F600}", 2).None?
  {
  }

  /** `{ required: true, minLength: n }` on a text field. */
  function CheckText(v: string, minLength: nat): (e: Option<FieldError>)
    ensures e == Some(Required) <==> v == ""
    ensures e.None? <==> v != "" && Utf16Length(v) >= minLength
    ensures e != Some(Pattern)
  {
    if v == "" then Some(Required)
    else if Utf16Length(v) < minLength then Some(MinLength)
    else None
  }

  /** `{ required: true, pattern: p }` on a text field, with `matches` the pattern's verdict. */
  function CheckPattern(v: string, matches: bool): (e: Option<FieldError>)
    ensures e == Some(Required) <==> v == ""
    ensures e.None? <==> v != "" && matches
    ensures e != Some(MinLength)
  {
    if v == "" then Some(Required)
    else if !matches then Some(Pattern)
    else None
  }
}
