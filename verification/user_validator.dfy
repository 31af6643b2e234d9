/** src/validators/userValidator.js: the rule chains for email, password,
    firstName and lastName. */
module UserValidator {
  import opened Common
  import opened Text
  import opened Library
  import opened Validation

  /** The characters of the class `[@$!%*?&]`. */
  predicate IsSpecial(c: char) {
    c == '@' || c == '$' || c == '!' || c == '%' || c == '*' || c == '?' || c == '&'
  }

  /** The class `[A-Za-z\d@$!%*?&]`. */
  predicate IsPasswordChar(c: char) {
    IsAsciiUpper(c) || IsAsciiLower(c) || IsAsciiDigit(c) || IsSpecial(c)
  }

  /** `/^(?=.*[a-z])(?=.*[A-Z])(?=.*\d)(?=.*[@$!%*?&])[A-Za-z\d@$!%*?&]{6,}$/`:
      four look-aheads, each asking for one character of its class, and a body
      of six or more characters of the allowed class. */
  predicate MatchesPasswordPattern(s: string) {
    && |s| >= 6
    && (forall i :: 0 <= i < |s| ==> IsPasswordChar(s[i]))
    && (exists i :: 0 <= i < |s| && IsAsciiLower(s[i]))
    && (exists i :: 0 <= i < |s| && IsAsciiUpper(s[i]))
    && (exists i :: 0 <= i < |s| && IsAsciiDigit(s[i]))
    && (exists i :: 0 <= i < |s| && IsSpecial(s[i]))
  }

  /** The password policy in words: 6 to 20 characters, only letters, digits
      and `@$!%*?&`, with at least one lower-case letter, one capital, one digit
      and one of the special characters. */
  predicate PasswordPolicy(s: string) {
    && 6 <= |s| <= 20
    && (forall i :: 0 <= i < |s| ==> IsPasswordChar(s[i]))
    && (exists i :: 0 <= i < |s| && IsAsciiLower(s[i]))
    && (exists i :: 0 <= i < |s| && IsAsciiUpper(s[i]))
    && (exists i :: 0 <= i < |s| && IsAsciiDigit(s[i]))
    && (exists i :: 0 <= i < |s| && IsSpecial(s[i]))
  }

  /** `password`: trim, isLength 6..20, notEmpty, matches. The chain accepts
      exactly the trimmed passwords that meet the policy. */
  function PasswordRule(v: Option<string>): (errors: seq<FieldError>)
    ensures errors == [] <==> PasswordPolicy(Trim(Raw(v)))
  {
    var t := Trim(Raw(v));
    if MatchesPasswordPattern(t) then ValidatorLengthPlain(t); PasswordSteps(t)
    else PasswordSteps(t)
  }

  /** The three validators of the password chain on the trimmed value. */
  function PasswordSteps(t: string): (errors: seq<FieldError>)
    ensures errors == [] <==> LengthWithin(t, 6, 20) && t != "" && MatchesPasswordPattern(t)
  {
    Step(LengthWithin(t, 6, 20), "password", Length) + Step(t != "", "password", NotEmpty)
    + Step(MatchesPasswordPattern(t), "password", Pattern)
  }

  /** The class `[A-Za-zğüşöçıİĞÜŞÖÇ\s]`. */
  predicate IsNameChar(c: char) {
    || IsAsciiUpper(c) || IsAsciiLower(c) || IsWhitespace(c)
    || c == 'ğ' || c == 'ü' || c == 'ş' || c == 'ö' || c == 'ç' || c == 'ı'
    || c == 'İ' || c == 'Ğ' || c == 'Ü' || c == 'Ş' || c == 'Ö' || c == 'Ç'
  }

  /** `/^[A-Za-zğüşöçıİĞÜŞÖÇ\s]+$/`. */
  predicate MatchesNamePattern(t: string) {
    |t| >= 1 && forall i :: 0 <= i < |t| ==> IsNameChar(t[i])
  }

  /** Name characters are all counted by `isLength`. */
  lemma NameLengthPlain(t: string)
    requires MatchesNamePattern(t)
    ensures ValidatorLength(t) == |t|
  {
    forall i | 0 <= i < |t| ensures !IsPresentationSelector(t[i]) {
      assert IsNameChar(t[i]);
    }
    ValidatorLengthPlain(t);
  }

  /** Shared chain of `firstName` and `lastName`: trim, notEmpty, isLength
      2..30, matches the name pattern. It accepts exactly the trimmed values of
      2 to 30 characters drawn from the name class. */
  function NameRule(path: string, v: Option<string>): (errors: seq<FieldError>)
    ensures errors == [] <==>
      var t := Trim(Raw(v));
      2 <= |t| <= 30 && forall i :: 0 <= i < |t| ==> IsNameChar(t[i])
    ensures forall e :: e in errors ==> e.path == path
  {
    var t := Trim(Raw(v));
    if MatchesNamePattern(t) then NameLengthPlain(t); NameSteps(path, t)
    else NameSteps(path, t)
  }

  /** The three validators of the name chain on the trimmed value. */
  function NameSteps(path: string, t: string): (errors: seq<FieldError>)
    ensures errors == [] <==> t != "" && LengthWithin(t, 2, 30) && MatchesNamePattern(t)
    ensures forall e :: e in errors ==> e.path == path
    ensures t == "" ==> |errors| >= 1 && errors[0] == FieldError(path, NotEmpty)
  {
    Step(t != "", path, NotEmpty) + Step(LengthWithin(t, 2, 30), path, Length)
    + Step(MatchesNamePattern(t), path, Pattern)
  }

  function FirstNameRule(v: Option<string>): seq<FieldError> {
    NameRule("firstName", v)
  }

  function LastNameRule(v: Option<string>): seq<FieldError> {
    NameRule("lastName", v)
  }

  /** An empty or white-space-only name fails `notEmpty` first. */
  lemma BlankNameFailsNotEmptyFirst(path: string, v: Option<string>)
    requires Trim(Raw(v)) == ""
    ensures |NameRule(path, v)| >= 1 && NameRule(path, v)[0] == FieldError(path, NotEmpty)
  {
    assert NameRule(path, v) == NameSteps(path, "");
  }

  /** The result of a chain that also rewrites the field. */
  datatype Sanitized = Sanitized(errors: seq<FieldError>, value: string)

  /** What `normalizeEmail` leaves in the field: its result, or the text
      `"false"` where it returns `false`. */
  function NormalizedText(lib: Lib, s: string): string {
    match lib.normalizeEmail(s)
    case Some(e) => e
    case None => "false"
  }

  /** `email`: trim, isEmail, normalizeEmail, notEmpty, toLowerCase. The
      sanitised value has no capital letter whatever the input. */
  function EmailRule(lib: Lib, v: Option<string>): (r: Sanitized)
    ensures r.errors == [] <==>
      lib.isEmail(Trim(Raw(v))) && NormalizedText(lib, Trim(Raw(v))) != ""
    ensures forall i :: 0 <= i < |r.value| ==> !IsAsciiUpper(r.value[i])
  {
    var t := Trim(Raw(v));
    var n := NormalizedText(lib, t);
    Sanitized(Step(lib.isEmail(t), "email", IsEmail) + Step(n != "", "email", NotEmpty), ToLower(n))
  }
}
