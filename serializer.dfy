/**
 * The webhook serializer's phone-number check: the pattern
 * `^\+?[1-9]\d{1,14}$` as `re.match` applies it, which loosely follows the
 * 15-digit limit of ITU-T E.164, clause 6.
 */
module Serializer {
  import Text
  import opened Wrappers

  const PHONE_MAX_LENGTH: nat := 20
  const MESSAGE_TYPE_MAX_LENGTH: nat := 20
  const DEFAULT_MESSAGE_TYPE: string := "text"
  const INVALID_PHONE: string := "Invalid phone number format"

  /** The outcome of a field validator: the value, or the `ValidationError` text. */
  datatype Validated = Valid(value: string) | Invalid(message: string)

  /** `\+?[1-9]\d{1,14}` matching the whole of `s`. */
  predicate WholeMatch(s: string) {
    var digits := if |s| > 0 && s[0] == '+' then s[1..] else s;
    2 <= |digits| <= 15 && Text.AllDigits(digits) && digits[0] != '0'
  }

  /** `re.match(r'^\+?[1-9]\d{1,14}$', s)`: `$` also matches just before a final newline. */
  predicate PhonePatternMatches(s: string) {
    WholeMatch(s) || (|s| > 0 && s[|s| - 1] == '\n' && WholeMatch(s[..|s| - 1]))
  }

  /** `validate_phone_number`: the value unchanged when it matches, else the error. */
  function ValidatePhoneNumber(value: string): (r: Validated)
    ensures r.Valid? <==> PhonePatternMatches(value)
    ensures r.Valid? ==> r.value == value
    ensures r.Invalid? ==> r.message == INVALID_PHONE
  {
    if PhonePatternMatches(value) then Valid(value) else Invalid(INVALID_PHONE)
  }

  /** An optional '+', a digit 1-9, and 1 to 14 more digits. */
  predicate PlusAndDigits(value: string, plus: string, d: string) {
    plus in {"", "+"} && value == plus + d && 2 <= |d| <= 15 && Text.AllDigits(d) && '1' <= d[0] <= '9'
  }

  /**
   * Without a trailing newline, a number is accepted exactly when it is an
   * optional '+', a digit 1-9, and 1 to 14 more digits.
   */
  lemma AcceptedNumbers(value: string)
    requires value == [] || value[|value| - 1] != '\n'
    ensures ValidatePhoneNumber(value).Valid? <==> exists plus: string, d: string :: PlusAndDigits(value, plus, d)
  {
    if ValidatePhoneNumber(value).Valid? {
      AcceptedIsPlusAndDigits(value);
    }
    if exists plus: string, d: string :: PlusAndDigits(value, plus, d) {
      var plus: string, d: string :| PlusAndDigits(value, plus, d);
      PlusAndDigitsAccepted(value, plus, d);
    }
  }

  /** An accepted number splits at its optional '+'. */
  lemma AcceptedIsPlusAndDigits(value: string)
    requires value == [] || value[|value| - 1] != '\n'
    requires ValidatePhoneNumber(value).Valid?
    ensures PlusAndDigits(value, if value[0] == '+' then "+" else "", if value[0] == '+' then value[1..] else value)
  {
    if value[0] == '+' {
      assert value == "+" + value[1..];
    }
  }

  /** Every such split is accepted. */
  lemma PlusAndDigitsAccepted(value: string, plus: string, d: string)
    requires PlusAndDigits(value, plus, d)
    ensures ValidatePhoneNumber(value).Valid?
  {
    if plus == "+" {
      assert value[1..] == d;
    } else {
      assert value == d;
    }
  }

  /** An accepted number carries 2 to 15 digits, never more than E.164 allows. */
  lemma AcceptedWithinE164(value: string)
    requires ValidatePhoneNumber(value).Valid?
    ensures var s := if value[|value| - 1] == '\n' && !WholeMatch(value) then value[..|value| - 1] else value;
            var d := if s[0] == '+' then s[1..] else s;
            2 <= |d| <= 15 && Text.AllDigits(d)
    ensures |value| <= 17 <= PHONE_MAX_LENGTH
  {
  }

  /** A character that is neither a digit nor the leading '+' rules out a whole match. */
  lemma NonDigitBlocksMatch(s: string, i: nat)
    requires i < |s| && !Text.IsDigit(s[i]) && s[i] != '+'
    ensures !WholeMatch(s)
  {
    if s[0] == '+' {
      assert i > 0 && s[1..][i - 1] == s[i];
    }
  }

  /** A space, a hyphen or an ASCII letter anywhere makes the number invalid. */
  lemma RejectsSeparatorsAndLetters(value: string, i: nat)
    requires i < |value| && (value[i] == ' ' || value[i] == '-' || 'a' <= value[i] <= 'z' || 'A' <= value[i] <= 'Z')
    ensures ValidatePhoneNumber(value).Invalid?
  {
    NonDigitBlocksMatch(value, i);
    if value[|value| - 1] == '\n' {
      var s := value[..|value| - 1];
      assert i < |s| && s[i] == value[i];
      NonDigitBlocksMatch(s, i);
    }
  }

  /** A leading 0, with or without '+', makes the number invalid. */
  lemma RejectsLeadingZero(value: string)
    ensures ValidatePhoneNumber("0" + value).Invalid?
    ensures ValidatePhoneNumber("+0" + value).Invalid?
  {
    var a := "0" + value;
    var b := "+0" + value;
    assert a[0] == '0' && b[1..][0] == '0';
    if a[|a| - 1] == '\n' {
      assert a[..|a| - 1][0] == '0';
    }
    if b[|b| - 1] == '\n' && |b| > 2 {
      assert b[..|b| - 1][1..][0] == '0';
    }
  }

  /** A number followed by one newline still passes the pattern, as `$` allows. */
  lemma TrailingNewlineAccepted(value: string)
    requires WholeMatch(value)
    ensures ValidatePhoneNumber(value + "\n") == Valid(value + "\n")
  {
    assert (value + "\n")[..|value|] == value;
  }

  /** The webhook's `message_type` field: 'text' when the payload omits it. */
  function WebhookMessageType(given: Option<string>): (r: string)
    ensures given.None? ==> r == DEFAULT_MESSAGE_TYPE
    ensures given.Some? ==> r == given.value
  {
    given.GetOr(DEFAULT_MESSAGE_TYPE)
  }
}
