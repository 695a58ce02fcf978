/**
 * The class-validator checks the request DTOs use, with validator.js's meaning.
 * `IsEmail` and `IsDateString` are left to parameters of the DTO predicates.
 */
module Validators {

  /** U+FE0E and U+FE0F, which `isLength` does not count. */
  predicate IsVariationSelector(c: char) {
    c == '\U{FE0E}' || c == '\U{FE0F}'
  }

  /**
   * The length `Length`, `MinLength` and `MaxLength` compare: the number of code
   * points (a surrogate pair counts once), leaving out variation selectors.
   */
  function VisibleLength(s: string): (n: nat)
    ensures n <= |s|
  {
    if s == [] then 0 else (if IsVariationSelector(s[0]) then 0 else 1) + VisibleLength(s[1..])
  }

  /** `@Length(min, max)`. */
  predicate LengthIn(s: string, min: nat, max: nat) {
    min <= VisibleLength(s) <= max
  }

  /** For text without variation selectors the measured length is the number of code points. */
  lemma {:induction false} VisibleLengthPlain(s: string)
    requires forall i :: 0 <= i < |s| ==> !IsVariationSelector(s[i])
    ensures VisibleLength(s) == |s|
  {
    if s != [] {
      VisibleLengthPlain(s[1..]);
    }
  }

  /** The measured length of a concatenation is the sum of the parts' measured lengths. */
  lemma {:induction false} VisibleLengthAppend(a: string, b: string)
    ensures VisibleLength(a + b) == VisibleLength(a) + VisibleLength(b)
  {
    if a == [] {
      assert a + b == b;
    } else {
      assert (a + b)[1..] == a[1..] + b;
      VisibleLengthAppend(a[1..], b);
    }
  }

  /** `@IsNotEmpty()` on a string: not `''`. */
  predicate NotEmpty(s: string) {
    s != ""
  }

  predicate IsHexDigit(c: char) {
    ('0' <= c <= '9') || ('a' <= c <= 'f') || ('A' <= c <= 'F')
  }

  /** `@IsUUID()`: 8-4-4-4-12 hexadecimal digits in either case, separated by hyphens. */
  predicate IsUuid(s: string) {
    |s| == 36 && s[8] == '-' && s[13] == '-' && s[18] == '-' && s[23] == '-'
    && forall i :: 0 <= i < 36 && i != 8 && i != 13 && i != 18 && i != 23 ==> IsHexDigit(s[i])
  }

  /** `@IsEnum(E)`: one of the enum's string values. */
  predicate IsEnum(s: string, values: seq<string>) {
    s in values
  }
}
