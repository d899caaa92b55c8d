/**
 * The `[PasswordStrength]` data-annotation attribute. It repeats the password
 * validator's checks with a longer weak-password list, and it records its
 * message in a mutable `ErrorMessage` property instead of returning one.
 */
module PasswordStrength {

  import opened Wrappers
  import opened Text
  import Validation

  /** The `object?` the attribute is handed. */
  datatype Value = NullValue | StringValue(s: string) | OtherValue

  const AttributeWeakPasswords: seq<string> := Validation.WeakPasswords + ["admin", "letmein"]

  /** What `IsValid` decides, and the message it records when it records one. */
  datatype Verdict = Valid | Invalid(message: Option<string>)

  function Judge(value: Value): (v: Verdict)
    ensures v.Valid? <==>
              value.StringValue? && !IsBlank(value.s) && 6 <= |value.s| <= 100
              && ToLower(value.s) !in AttributeWeakPasswords
    ensures v == Invalid(None) <==> !value.StringValue? || IsBlank(value.s)
    ensures v == Invalid(Some(Validation.PasswordTooShort)) <==>
              value.StringValue? && !IsBlank(value.s) && |value.s| < 6
    ensures v == Invalid(Some(Validation.PasswordTooLong)) <==>
              value.StringValue? && !IsBlank(value.s) && |value.s| > 100
    ensures v == Invalid(Some(Validation.PasswordTooCommon)) <==>
              value.StringValue? && !IsBlank(value.s) && 6 <= |value.s| <= 100
              && ToLower(value.s) in AttributeWeakPasswords
  {
    match value
    case NullValue => Invalid(None)
    case OtherValue => Invalid(None)
    case StringValue(password) =>
      if IsBlank(password) then Invalid(None)
      else if |password| < 6 then Invalid(Some(Validation.PasswordTooShort))
      else if |password| > 100 then Invalid(Some(Validation.PasswordTooLong))
      else if ToLower(password) in AttributeWeakPasswords then Invalid(Some(Validation.PasswordTooCommon))
      else Valid
  }

  class PasswordStrengthAttribute {
    /** `ValidationAttribute.ErrorMessage`; None until a check sets it. */
    var errorMessage: Option<string>

    constructor ()
      ensures errorMessage == None
    {
      errorMessage := None;
    }

    method IsValid(value: Value) returns (valid: bool)
      modifies this
      ensures valid <==> Judge(value).Valid?
      ensures Judge(value).Invalid? && Judge(value).message.Some? ==> errorMessage == Judge(value).message
      ensures !(Judge(value).Invalid? && Judge(value).message.Some?) ==> errorMessage == old(errorMessage)
    {
      if !value.StringValue? {
        return false;
      }
      var password := value.s;
      if IsBlank(password) {
        return false;
      }
      if |password| < 6 {
        errorMessage := Some(Validation.PasswordTooShort);
        return false;
      }
      if |password| > 100 {
        errorMessage := Some(Validation.PasswordTooLong);
        return false;
      }
      if ToLower(password) in AttributeWeakPasswords {
        errorMessage := Some(Validation.PasswordTooCommon);
        return false;
      }
      return true;
    }
  }

  /** Every password the attribute accepts, the validator accepts too. */
  lemma AttributeStricterThanValidator(password: string)
    ensures Judge(StringValue(password)).Valid? ==> Validation.ValidatePasswordStrength(password).Success?
  {
  }

  /**
   * The two disagree on exactly one password up to case: "admin" is too short to
   * reach the list, so only "letmein" separates them.
   */
  lemma AttributeAndValidatorDisagreeOnlyOnLetmein(password: string)
    ensures (Validation.ValidatePasswordStrength(password).Success? && !Judge(StringValue(password)).Valid?)
            <==> ToLower(password) == "letmein"
    ensures ToLower(password) == "letmein" ==>
              Judge(StringValue(password)) == Invalid(Some(Validation.PasswordTooCommon))
  {
    var lower := ToLower(password);
    if lower == "letmein" {
      assert |password| == 7;
      assert !IsWhiteSpace(password[0]) by {
        assert lower[0] == 'l' && lower[0] == LowerChar(password[0]);
      }
      assert lower !in Validation.WeakPasswords;
      assert lower in AttributeWeakPasswords;
      assert !IsBlank(password);
    } else if Validation.ValidatePasswordStrength(password).Success? {
      assert |lower| >= 6;
      assert lower != "admin";
    }
  }

  /** Where both reject a non-blank string with a message, the messages are the same. */
  lemma MessagesAgree(password: string)
    requires Judge(StringValue(password)).Invalid? && Judge(StringValue(password)).message.Some?
    requires Validation.ValidatePasswordStrength(password).Failure?
    ensures Judge(StringValue(password)).message.value == Validation.ValidatePasswordStrength(password).errorMessage
  {
  }
}
