/** The login-field validators of src/utils/validation.ts: total functions from
    the raw field strings to an optional message, an error map or a verdict. */
module Validation {
  import opened Wrappers
  import opened Constants

  // ---------------------------------------------------------------------------
  // JavaScript string primitives the validators rely on
  // ---------------------------------------------------------------------------

  /** The characters `String.prototype.trim` strips: ECMAScript WhiteSpace
      (tab, vertical tab, form feed, no-break space, byte-order mark and every
      space separator) and LineTerminator (LF, CR, LS, PS). */
  predicate IsWhitespace(c: char): (b: bool)
    ensures b ==> Utf16Units(c) == 1
  {
    c == '\t' || c == '\n' || c == '\U{000B}' || c == '\U{000C}' || c == '\r'
    || c == ' ' || c == '\U{00A0}' || c == '\U{1680}'
    || ('\U{2000}' <= c <= '\U{200A}')
    || c == '\U{2028}' || c == '\U{2029}' || c == '\U{202F}' || c == '\U{205F}'
    || c == '\U{3000}' || c == '\U{FEFF}'
  }

  /** A field is blank when it holds nothing but whitespace. */
  predicate IsBlank(s: string) {
    forall i :: 0 <= i < |s| ==> IsWhitespace(s[i])
  }

  /** How many whitespace characters `s` starts with. */
  function LeadingWhitespace(s: string): (n: nat)
    ensures n <= |s|
    ensures forall i :: 0 <= i < n ==> IsWhitespace(s[i])
    ensures n == |s| || !IsWhitespace(s[n])
  {
    if s == [] || !IsWhitespace(s[0]) then 0 else 1 + LeadingWhitespace(s[1..])
  }

  /** How many whitespace characters `s` ends with. */
  function TrailingWhitespace(s: string): (n: nat)
    ensures n <= |s|
    ensures forall i :: |s| - n <= i < |s| ==> IsWhitespace(s[i])
    ensures n == |s| || !IsWhitespace(s[|s| - n - 1])
  {
    if s == [] || !IsWhitespace(s[|s| - 1]) then 0 else 1 + TrailingWhitespace(s[..|s| - 1])
  }

  /** `String.prototype.trim`: the piece of `s` left once its leading and
      trailing whitespace are removed. Everything before and after the piece
      is whitespace, and the piece is empty exactly when `s` is blank, which
      is what the validators' `!s.trim()` test asks. */
  function Trim(s: string): (r: string)
    ensures var a := LeadingWhitespace(s); a + |r| <= |s| && r == s[a..a + |r|]
    ensures forall i :: 0 <= i < LeadingWhitespace(s) ==> IsWhitespace(s[i])
    ensures forall i :: LeadingWhitespace(s) + |r| <= i < |s| ==> IsWhitespace(s[i])
    ensures r == [] <==> IsBlank(s)
    ensures r == [] || (!IsWhitespace(r[0]) && !IsWhitespace(r[|r| - 1]))
  {
    var a := LeadingWhitespace(s);
    if a == |s| then [] else s[a..|s| - TrailingWhitespace(s)]
  }

  /** Code units one character takes in JavaScript's UTF-16 strings. */
  function Utf16Units(c: char): (units: nat) {
    if c as int < 0x1_0000 then 1 else 2
  }

  /** JavaScript's `s.length`: the number of UTF-16 code units, so a
      character outside the Basic Multilingual Plane counts twice. */
  function Utf16Length(s: string): (n: nat)
    ensures |s| <= n <= 2 * |s|
    ensures n == |s| <==> forall i :: 0 <= i < |s| ==> s[i] as int < 0x1_0000
  {
    if s == [] then 0
    else
      assert forall i :: 0 <= i < |s| - 1 ==> s[1..][i] == s[i + 1];
      Utf16Units(s[0]) + Utf16Length(s[1..])
  }

  /** The number a string of decimal digits denotes. */
  function DigitsValue(s: string): (value: nat) {
    if s == [] then 0
    else 10 * DigitsValue(s[..|s| - 1]) + (if '0' <= s[|s| - 1] <= '9' then (s[|s| - 1] - '0') as nat else 0)
  }

  /** Decimal rendering of a natural number, as a template literal prints it:
      digits only, no leading zero, denoting `n`. */
  function DecimalString(n: nat): (r: string)
    ensures |r| >= 1
    ensures forall i :: 0 <= i < |r| ==> '0' <= r[i] <= '9'
    ensures r[0] != '0' || n == 0
    ensures DigitsValue(r) == n
  {
    var digit := ['0' + (n % 10) as char];
    if n < 10 then digit else DecimalString(n / 10) + digit
  }

  // ---------------------------------------------------------------------------
  // Messages
  // ---------------------------------------------------------------------------

  /** "This field is required." */
  const RequiredMessage: string := "필수 입력항목입니다"

  /** "The password must be at least N characters." */
  const MinLengthMessage: string :=
    "비밀번호는 최소 " + DecimalString(MinPasswordLength) + "자 이상이어야 합니다"

  /** The error-map keys of the two login fields. */
  const IdField: string := "id"
  const PasswordField: string := "password"

  /** JavaScript truthiness of a `string | null`. Every message the
      validators return is truthy, so `if (error)` is a null test. */
  predicate Truthy(message: Option<string>): (t: bool)
    ensures message == Some(RequiredMessage) || message == Some(MinLengthMessage) ==> t
    ensures message == None ==> !t
  {
    message.Some? && message.value != ""
  }

  // ---------------------------------------------------------------------------
  // Validators
  // ---------------------------------------------------------------------------

  /** `validateId`: the id is required, and nothing else is asked of it. */
  function ValidateId(id: string): (r: Option<string>)
    ensures r == Some(RequiredMessage) <==> IsBlank(id)
    ensures r == None <==> !IsBlank(id)
  {
    if Trim(id) == [] then Some(RequiredMessage) else None
  }

  /** `validatePassword`: blankness is checked first, so a whitespace-only
      password of any length is "required", not "too short". */
  function ValidatePassword(password: string): (r: Option<string>)
    ensures r == Some(RequiredMessage) <==> IsBlank(password)
    ensures r == Some(MinLengthMessage)
        <==> !IsBlank(password) && Utf16Length(password) < MinPasswordLength
    ensures r == None
        <==> !IsBlank(password) && Utf16Length(password) >= MinPasswordLength
  {
    if Trim(password) == [] then Some(RequiredMessage)
    else if Utf16Length(password) < MinPasswordLength then Some(MinLengthMessage)
    else None
  }

  /** `validateLoginForm`: one entry per failing field, keyed by field name,
      holding that field's message; no other keys. */
  function ValidateLoginForm(id: string, password: string): (errors: map<string, string>)
    ensures IdField in errors <==> ValidateId(id).Some?
    ensures IdField in errors ==> errors[IdField] == ValidateId(id).value
    ensures PasswordField in errors <==> ValidatePassword(password).Some?
    ensures PasswordField in errors ==> errors[PasswordField] == ValidatePassword(password).value
    ensures errors.Keys <= {IdField, PasswordField}
  {
    var empty: map<string, string> := map[];
    var idError := ValidateId(id);
    var withId := if Truthy(idError) then empty[IdField := idError.value] else empty;
    assert withId.Keys <= {IdField} && (IdField in withId <==> idError.Some?);
    assert IdField in withId ==> withId[IdField] == idError.value;
    var passwordError := ValidatePassword(password);
    assert IdField != PasswordField;
    assert Truthy(passwordError) <==> passwordError.Some?;
    if Truthy(passwordError) then withId[PasswordField := passwordError.value] else withId
  }

  /** `validateCredentials`: exact, case-sensitive comparison with the fixed
      account; no trimming. */
  function ValidateCredentials(id: string, password: string): (ok: bool)
    ensures ok <==> id == AdminId && password == AdminPassword
  {
    id == AdminId && password == AdminPassword
  }

  // ---------------------------------------------------------------------------
  // Properties
  // ---------------------------------------------------------------------------

  /** The form is clean exactly when the id is not blank and the password is
      neither blank nor shorter than the minimum. */
  lemma FormCleanIff(id: string, password: string)
    ensures ValidateLoginForm(id, password) == map[]
        <==> !IsBlank(id) && !IsBlank(password) && Utf16Length(password) >= MinPasswordLength
  {
  }

  /** Each entry of the error map depends on its own field only. */
  lemma FieldsIndependent(id1: string, id2: string, password1: string, password2: string)
    ensures var e1, e2 := ValidateLoginForm(id1, password1), ValidateLoginForm(id1, password2);
      (IdField in e1 <==> IdField in e2) && (IdField in e1 ==> e1[IdField] == e2[IdField])
    ensures var e1, e2 := ValidateLoginForm(id1, password1), ValidateLoginForm(id2, password1);
      (PasswordField in e1 <==> PasswordField in e2)
      && (PasswordField in e1 ==> e1[PasswordField] == e2[PasswordField])
  {
  }

  /** The length message names the minimum exactly as the source spells it. */
  lemma MinLengthMessageText()
    ensures MinLengthMessage == "비밀번호는 최소 8자 이상이어야 합니다"
  {
  }

  /** Password length is JavaScript's: four characters outside the Basic
      Multilingual Plane are eight code units and pass the minimum. */
  lemma AstralPasswordLength()
    ensures ValidatePassword("\U{1F600}\U{1F600}\U{1F600}\U{1F600}") == None
  {
    assert Utf16Length("\U{1F600}\U{1F600}\U{1F600}\U{1F600}") == 8;
  }

  /** The fixed account is never stopped by the form validation, so the login
      form's submit gate always lets it through to `login`. */
  lemma {:induction false} AdminPassesForm(id: string, password: string)
    requires ValidateCredentials(id, password)
    ensures ValidateLoginForm(id, password) == map[]
  {
    assert !IsWhitespace(id[0]);
    assert !IsWhitespace(password[0]);
    assert Utf16Length(password) == 9;
    FormCleanIff(id, password);
  }

  /** The "required" cases of the unit tests, including the precedence of
      "required" over "too short" for an all-space password. */
  lemma PasswordRequiredExamples()
    ensures ValidatePassword("") == Some(RequiredMessage)
    ensures ValidatePassword("        ") == Some(RequiredMessage)
  {
  }

  /** The "too short" cases of the unit tests. */
  lemma PasswordTooShortExamples()
    ensures ValidatePassword("1234567") == Some(MinLengthMessage)
    ensures ValidatePassword("short") == Some(MinLengthMessage)
  {
    var digits, word := "1234567", "short";
    assert !IsWhitespace(digits[0]) && !IsWhitespace(word[0]);
    assert forall i :: 0 <= i < |digits| ==> digits[i] as int < 0x1_0000;
    assert forall i :: 0 <= i < |word| ==> word[i] as int < 0x1_0000;
  }

  /** The accepted cases of the unit tests. */
  lemma PasswordAcceptedExamples()
    ensures ValidatePassword("12345678") == None
    ensures ValidatePassword("longerpassword") == None
  {
    assert !IsWhitespace("12345678"[0]);
    assert !IsWhitespace("longerpassword"[0]);
  }

  /** The credential check neither folds case nor trims. */
  lemma CredentialsExact()
    ensures ValidateCredentials("admin", "admin1234")
    ensures !ValidateCredentials("Admin", "admin1234")
    ensures !ValidateCredentials("admin ", "admin1234")
    ensures !ValidateCredentials("admin", "ADMIN1234")
    ensures !ValidateCredentials("wrongemail", "admin1234")
    ensures !ValidateCredentials("admin", "wrongpassword")
    ensures !ValidateCredentials("wrong", "wrong")
  {
  }
}
