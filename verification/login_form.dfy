/** The submit handler of the login page: two checks, then one login call. */
module LoginForm {
  import opened Text
  import opened Forms

  datatype Credentials = Credentials(email: string, password: string)

  /**
   * Both fields must hold a non-space character, then the email must match
   * the email pattern; the call receives the fields untrimmed.
   */
  function Submit(email: string, password: string): (r: Submission<Credentials>)
    ensures r.Submitted? <==> !IsBlank(email) && !IsBlank(password) && MatchesEmailPattern(email)
    ensures r.Submitted? ==> r.request == Credentials(email, password)
    ensures r == Rejected(FillAllFields) <==> IsBlank(email) || IsBlank(password)
    ensures r == Rejected(InvalidEmail) <==>
              !IsBlank(email) && !IsBlank(password) && !MatchesEmailPattern(email)
  {
    if IsBlank(email) || IsBlank(password) then Rejected(FillAllFields)
    else if !MatchesEmailPattern(email) then Rejected(InvalidEmail)
    else Submitted(Credentials(email, password))
  }
}
