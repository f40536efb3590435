/** utils/validate.js: the signup input check, which collects an error
    message per failed rule. */
module Validate {
  import opened Common
  import opened Text

  const EmailError: string := "Invalid or missing email."
  const PasswordError: string :=
    "Password must be at least 8 characters long and include uppercase, lowercase, number, and symbol."

  /** The characters the password analysis of the `validator` package counts
      as symbols. */
  predicate IsSymbol(c: char) {
    c in "-#!$@\U{00A3}%^&*()_+|~=`{}[]:\";'<>?,./\\ "
  }

  /** `isStrongPassword` with minimum length 8 and at least one lower-case
      letter, upper-case letter, digit and symbol. The length is the
      string's `length`, in UTF-16 code units. */
  predicate StrongPassword(p: string) {
    && Utf16Length(p) >= 8
    && (exists i :: 0 <= i < |p| && IsLower(p[i]))
    && (exists i :: 0 <= i < |p| && IsUpper(p[i]))
    && (exists i :: 0 <= i < |p| && IsDigit(p[i]))
    && (exists i :: 0 <= i < |p| && IsSymbol(p[i]))
  }

  datatype Validation = Validation(isValid: bool, errors: seq<string>)

  /** `validateSignupInput({ email, password })`. `isEmail` is the address
      check of the `validator` package. A missing password makes that
      package throw (the failure carries its message). */
  method ValidateSignupInput(email: Option<string>, password: Option<string>, isEmail: string -> bool)
    returns (r: Result<Validation, string>)
    ensures r.Failure? <==> password.None?
    ensures r.Success? ==>
      && (EmailError in r.value.errors <==> email.None? || email.value == [] || !isEmail(email.value))
      && (PasswordError in r.value.errors <==> !StrongPassword(password.value))
      && (r.value.isValid <==> r.value.errors == [])
      && (forall e :: e in r.value.errors ==> e == EmailError || e == PasswordError)
      && |r.value.errors| <= 2
      && (|r.value.errors| == 2 ==> r.value.errors == [EmailError, PasswordError])
  {
    var errors: seq<string> := [];
    if email.None? || email.value == [] || !isEmail(email.value) {
      errors := errors + [EmailError];
    }
    if password.None? {
      return Failure("Expected a string but received a undefined");
    }
    var isStrong := StrongPassword(password.value);
    if !isStrong {
      errors := errors + [PasswordError];
    }
    r := Success(Validation(|errors| == 0, errors));
  }

  /** A password with every character class and eight characters passes. */
  lemma StrongPasswordAccepts()
    ensures StrongPassword("Passw0rd!")
  {
    var p := "Passw0rd!";
    var symbols := "-#!$@\U{00A3}%^&*()_+|~=`{}[]:\";'<>?,./\\ ";
    assert symbols[2] == p[8];
    assert IsLower(p[1]) && IsUpper(p[0]) && IsDigit(p[5]) && IsSymbol(p[8]);
  }

  /** Six characters of which two lie beyond U+FFFF are eight code units,
      long enough for the length rule. */
  lemma StrongPasswordCountsCodeUnits()
    ensures |"Aa1!\U{1F600}\U{1F600}"| == 6
    ensures StrongPassword("Aa1!\U{1F600}\U{1F600}")
  {
    var p := "Aa1!\U{1F600}\U{1F600}";
    var symbols := "-#!$@\U{00A3}%^&*()_+|~=`{}[]:\";'<>?,./\\ ";
    assert symbols[2] == p[3];
    assert IsLower(p[1]) && IsUpper(p[0]) && IsDigit(p[2]) && IsSymbol(p[3]);
    assert Utf16Length(p[5..]) == 2;
    assert Utf16Length(p[4..]) == 4;
    assert Utf16Length(p) == 8 by {
      assert p[1..][3..] == p[4..];
    }
  }

  /** A short password fails, and so does one without an upper-case letter. */
  lemma StrongPasswordRejects()
    ensures !StrongPassword("Pa0!")
    ensures !StrongPassword("password1!")
  {
    var p := "password1!";
    forall i | 0 <= i < |p|
      ensures !IsUpper(p[i])
    {
    }
  }
}
