/** The submit handler of the register page: four checks in order, then one register call. */
module RegisterForm {
  import opened Text
  import opened Forms
  import LoginForm

  const PasswordTooShort: string := "Password must be at least 6 characters"
  const PasswordsDiffer: string := "Passwords do not match"

  /** The minimum password length, counted in UTF-16 code units as `length` does. */
  const MinPasswordLength: nat := 6

  /** The four failure conditions, in the order the handler tests them. */
  predicate AnyBlank(email: string, password: string, confirm: string) {
    IsBlank(email) || IsBlank(password) || IsBlank(confirm)
  }

  predicate TooShort(password: string) {
    |Utf16(password)| < MinPasswordLength
  }

  /**
   * The first failing check decides the one message shown; if none fails
   * the call receives the email and password untrimmed.
   */
  function Submit(email: string, password: string, confirm: string)
    : (r: Submission<LoginForm.Credentials>)
    ensures r.Submitted? <==>
              && !AnyBlank(email, password, confirm) && MatchesEmailPattern(email)
              && !TooShort(password) && password == confirm
    ensures r.Submitted? ==> r.request == LoginForm.Credentials(email, password)
    ensures r == Rejected(FillAllFields) <==> AnyBlank(email, password, confirm)
    ensures r == Rejected(InvalidEmail) <==>
              !AnyBlank(email, password, confirm) && !MatchesEmailPattern(email)
    ensures r == Rejected(PasswordTooShort) <==>
              && !AnyBlank(email, password, confirm) && MatchesEmailPattern(email)
              && TooShort(password)
    ensures r == Rejected(PasswordsDiffer) <==>
              && !AnyBlank(email, password, confirm) && MatchesEmailPattern(email)
              && !TooShort(password) && password != confirm
  {
    if AnyBlank(email, password, confirm) then Rejected(FillAllFields)
    else if !MatchesEmailPattern(email) then Rejected(InvalidEmail)
    else if TooShort(password) then Rejected(PasswordTooShort)
    else if password != confirm then Rejected(PasswordsDiffer)
    else Submitted(LoginForm.Credentials(email, password))
  }

  /** Whatever the register page lets through, the login page would let through with the same call. */
  lemma RegisteredCanLogIn(email: string, password: string, confirm: string)
    requires Submit(email, password, confirm).Submitted?
    ensures LoginForm.Submit(email, password) == Submit(email, password, confirm)
  {
  }

  /** A password of three characters outside the basic plane is six code units long, so it is long enough. */
  lemma AstralCharactersCountTwice()
    ensures !TooShort("\U{1F600}\U{1F600}\U{1F600}")
  {
    var s := "\U{1F600}\U{1F600}\U{1F600}";
    assert s == s[..2] + [s[2]];
    assert s[..2] == s[..1] + [s[1]];
    assert |Utf16(s[..1])| == 2;
    assert |Utf16(s[..2])| == 4;
  }

  /** The login page has no length rule: a one-character password it accepts, the register page refuses. */
  lemma LoginLacksLengthRule()
    ensures LoginForm.Submit("a@b.c", "x").Submitted?
    ensures Submit("a@b.c", "x", "x") == Rejected(PasswordTooShort)
  {
    ShortAddressMatches();
    VisibleFirstNotBlank("a@b.c");
    VisibleFirstNotBlank("x");
    assert |Utf16("x")| == 1 by { Utf16OfBasicPlane("x"); }
  }
}
