/**
 * The new-password form: the four password rules listed under the field,
 * the validators of the new and the confirming password, when the submit
 * button is enabled, and the guard against submitting twice.
 *
 * The maximum password length is the parameter `maxLength`: the constants
 * file that defines it is not part of this model.
 */
module PasswordForm {
  import opened Common

  predicate IsLowerAscii(c: char) { 'a' <= c <= 'z' }
  predicate IsUpperAscii(c: char) { 'A' <= c <= 'Z' }
  predicate IsAsciiAlnum(c: char) { IsLowerAscii(c) || IsUpperAscii(c) || IsDigit(c) }

  /** `value.trim().length >= 8` */
  predicate LengthRule(value: string) {
    |Trim(value)| >= 8
  }

  /**
   * `/^(?=.*[a-z])(?=.*[A-Z]).+$/`: one or more characters, none a line
   * terminator (which `.` does not match), with a lower-case and an
   * upper-case ASCII letter among them.
   */
  predicate CaseRule(value: string) {
    |value| > 0
    && (forall i :: 0 <= i < |value| ==> !IsLineTerminator(value[i]))
    && (exists i :: 0 <= i < |value| && IsLowerAscii(value[i]))
    && (exists i :: 0 <= i < |value| && IsUpperAscii(value[i]))
  }

  /** `/\d/` */
  predicate DigitRule(value: string) {
    exists i :: 0 <= i < |value| && IsDigit(value[i])
  }

  /** `/[^A-Za-z0-9]/` */
  predicate SpecialRule(value: string) {
    exists i :: 0 <= i < |value| && !IsAsciiAlnum(value[i])
  }

  datatype Rule = BeAtLeast8Characters | IncludeUpperCaseAndLowerCase | ContainsNumber | ContainsSpecialCharacter

  /** The rules in the order the form lists them. */
  const Rules: seq<Rule> := [BeAtLeast8Characters, IncludeUpperCaseAndLowerCase, ContainsNumber, ContainsSpecialCharacter]

  predicate IsMatch(rule: Rule, value: string) {
    match rule
    case BeAtLeast8Characters => LengthRule(value)
    case IncludeUpperCaseAndLowerCase => CaseRule(value)
    case ContainsNumber => DigitRule(value)
    case ContainsSpecialCharacter => SpecialRule(value)
  }

  /** `RULES.every(rule => rule.isMatch(value))` */
  predicate AllRulesMatch(value: string) {
    forall i :: 0 <= i < |Rules| ==> IsMatch(Rules[i], value)
  }

  lemma AllRulesMatchIff(value: string)
    ensures AllRulesMatch(value) <==> LengthRule(value) && CaseRule(value) && DigitRule(value) && SpecialRule(value)
  {
    assert IsMatch(Rules[0], value) == LengthRule(value);
    assert IsMatch(Rules[1], value) == CaseRule(value);
    assert IsMatch(Rules[2], value) == DigitRule(value);
    assert IsMatch(Rules[3], value) == SpecialRule(value);
  }

  /** The new password's validation: required, at most `maxLength` long, no whitespace, every rule. */
  predicate NewPasswordValid(value: string, maxLength: int) {
    value != "" && |value| <= maxLength && !HasWhitespace(value) && AllRulesMatch(value)
  }

  /** The confirmation's validation: required, no whitespace, and the same text as the new password. */
  predicate ConfirmValid(confirm: string, newPassword: string) {
    confirm != "" && !HasWhitespace(confirm) && confirm == newPassword
  }

  /** The current password's validation, when the form asks for it: required and at most `maxLength` long. */
  predicate CurrentValid(current: string, maxLength: int) {
    current != "" && |current| <= maxLength
  }

  datatype FormData = FormData(currentPassword: string, newPassword: string, newPasswordConfirm: string)

  /** react-hook-form's `isValid`: every registered field passes. */
  predicate FormValid(data: FormData, withCurrentPassword: bool, maxLength: int) {
    (withCurrentPassword ==> CurrentValid(data.currentPassword, maxLength))
    && NewPasswordValid(data.newPassword, maxLength)
    && ConfirmValid(data.newPasswordConfirm, data.newPassword)
  }

  /** The submit button: disabled when the form is invalid or a rule fails on the watched new password. */
  function SubmitEnabled(data: FormData, withCurrentPassword: bool, maxLength: int): (r: bool)
    ensures r ==> AllRulesMatch(data.newPassword) && data.newPasswordConfirm == data.newPassword
  {
    FormValid(data, withCurrentPassword, maxLength)
    && !(exists i :: 0 <= i < |Rules| && !IsMatch(Rules[i], data.newPassword))
  }

  /** The extra rule test on the button adds nothing: the button is enabled exactly when the form is valid. */
  lemma SubmitEnabledIffValid(data: FormData, withCurrentPassword: bool, maxLength: int)
    ensures SubmitEnabled(data, withCurrentPassword, maxLength) <==> FormValid(data, withCurrentPassword, maxLength)
  {
  }

  lemma {:induction false} TrimStartNoWhitespace(s: string)
    requires !HasWhitespace(s)
    ensures TrimStart(s) == s
  {
    if |s| > 0 {
      assert !IsJsWhitespace(s[0]);
    }
  }

  lemma {:induction false} TrimEndNoWhitespace(s: string)
    requires !HasWhitespace(s)
    ensures TrimEnd(s) == s
  {
    if |s| > 0 {
      assert !IsJsWhitespace(s[|s| - 1]);
    }
  }

  /** `trim` leaves a text without whitespace as it is. */
  lemma TrimNoWhitespace(s: string)
    requires !HasWhitespace(s)
    ensures Trim(s) == s
  {
    TrimStartNoWhitespace(s);
    TrimEndNoWhitespace(s);
  }

  /**
   * For a text without whitespace the length rule is a plain length test and
   * the case rule's line-terminator condition always holds; a space never
   * passes, though the special-character rule would count it.
   */
  lemma RulesWithoutWhitespace(value: string)
    requires !HasWhitespace(value)
    ensures LengthRule(value) <==> |value| >= 8
    ensures CaseRule(value) <==> ((exists i :: 0 <= i < |value| && IsLowerAscii(value[i]))
                                  && (exists i :: 0 <= i < |value| && IsUpperAscii(value[i])))
    ensures SpecialRule(" ") && !NewPasswordValid("Abcdef1 x", 100)
  {
    TrimNoWhitespace(value);
    assert forall i :: 0 <= i < |value| ==> !IsLineTerminator(value[i]) by {
      forall i | 0 <= i < |value|
        ensures !IsLineTerminator(value[i])
      {
        assert !IsJsWhitespace(value[i]);
      }
    }
    assert !IsAsciiAlnum(" "[0]);
    assert IsJsWhitespace("Abcdef1 x"[7]);
  }

  /** An example that passes every rule, and one that fails only for its length. */
  lemma RuleExamples()
    ensures NewPasswordValid("Secret#1", 8)
    ensures !LengthRule("Sec#1a") && CaseRule("Sec#1a") && DigitRule("Sec#1a") && SpecialRule("Sec#1a")
  {
    ValidExample();
    ShortExample();
  }

  /** Every character of the text is ASCII and visible, so none is whitespace. */
  lemma VisibleAsciiHasNoWhitespace(s: string)
    requires forall k :: 0 <= k < |s| ==> '!' <= s[k] <= '~'
    ensures !HasWhitespace(s)
  {
  }

  lemma ValidExample()
    ensures NewPasswordValid("Secret#1", 8)
  {
    var p := "Secret#1";
    VisibleAsciiHasNoWhitespace(p);
    TrimNoWhitespace(p);
    assert IsUpperAscii(p[0]) && IsLowerAscii(p[1]) && IsDigit(p[7]) && !IsAsciiAlnum(p[6]);
    AllRulesMatchIff(p);
  }

  lemma ShortExample()
    ensures !LengthRule("Sec#1a") && CaseRule("Sec#1a") && DigitRule("Sec#1a") && SpecialRule("Sec#1a")
  {
    var q := "Sec#1a";
    VisibleAsciiHasNoWhitespace(q);
    TrimNoWhitespace(q);
    assert IsUpperAscii(q[0]) && IsLowerAscii(q[1]) && IsDigit(q[4]) && !IsAsciiAlnum(q[3]);
  }

  /** `handleFormSubmit`'s loading flag: a submit while one is running does nothing. */
  class Form {
    var isLoading: bool

    constructor ()
      ensures !isLoading
    {
      isLoading := false;
    }

    /** The start of `handleFormSubmit`: hands the data on unless a submit is already running. */
    method BeginSubmit(data: FormData) returns (submitted: Option<FormData>)
      modifies this
      ensures old(isLoading) ==> submitted.None? && isLoading
      ensures !old(isLoading) ==> submitted == Some(data) && isLoading
    {
      if isLoading {
        return None;
      }
      isLoading := true;
      submitted := Some(data);
    }

    /** The `finally`: the flag is cleared whether `onSubmit` succeeded or threw. */
    method FinishSubmit()
      modifies this
      ensures !isLoading
    {
      isLoading := false;
    }
  }
}
