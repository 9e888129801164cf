/** The e-mail and Google login form (`LoginForm`). The Firebase calls are replaced by
    their outcome, passed in by the caller. */
module Login {
  import opened Common

  datatype Credentials = Credentials(email: string, password: string)

  datatype Field = EmailField | PasswordField

  const MinPassword: nat := 8
  const LoginFailedAlert: string := "이메일 또는 비밀번호를 확인해주세요."
  const GoogleFailedAlert: string := "구글 로그인 중 오류가 발생했습니다."

  /** `isSubmitDisabled`. */
  predicate SubmitDisabled(c: Credentials) {
    |c.email| == 0 || |c.password| < MinPassword
  }

  /** `handleChange`. */
  function WithField(c: Credentials, field: Field, v: string): Credentials {
    match field
    case EmailField => c.(email := v)
    case PasswordField => c.(password := v)
  }

  /** A change touches only its own field. */
  lemma {:induction false} ChangeTouchesOnlyItsField(c: Credentials, field: Field, v: string)
    ensures field == EmailField ==> WithField(c, field, v).email == v && WithField(c, field, v).password == c.password
    ensures field == PasswordField ==> WithField(c, field, v).password == v && WithField(c, field, v).email == c.email
  {
  }

  /** What a login attempt leads to. */
  datatype LoginResult =
    | NoAttempt
    | LoggedIn(nav: Nav, calledBack: bool)   // `onSuccess(user)`, or `/` without one
    | Alerted(message: string)

  function Success(hasCallback: bool): LoginResult {
    LoggedIn(if hasCallback then Stay else Push("/"), hasCallback)
  }

  /** `handleEmailLogin`; `outcome` is the result of signing in with the credentials. */
  function EmailLogin(c: Credentials, outcome: AuthOutcome, hasCallback: bool): LoginResult {
    if SubmitDisabled(c) then NoAttempt
    else if outcome.Succeeded? then Success(hasCallback)
    else Alerted(LoginFailedAlert)
  }

  /** `handleKeyDown`: Enter tries to log in while the button is enabled. */
  function KeyDown(c: Credentials, enter: bool, outcome: AuthOutcome, hasCallback: bool): LoginResult {
    if enter && !SubmitDisabled(c) then EmailLogin(c, outcome, hasCallback) else NoAttempt
  }

  /** `handleGoogleLogin`: no disabled state. */
  function GoogleLogin(outcome: AuthOutcome, hasCallback: bool): LoginResult {
    if outcome.Succeeded? then Success(hasCallback) else Alerted(GoogleFailedAlert)
  }

  /** The button is disabled exactly without an e-mail or with a password under eight
      characters; a disabled form attempts nothing, an enabled one reports the outcome,
      navigating home only when no callback is given. Enter is the same as the button. */
  lemma {:induction false} LoginRules(c: Credentials, outcome: AuthOutcome, hasCallback: bool)
    ensures EmailLogin(c, outcome, hasCallback).NoAttempt? <==> c.email == "" || |c.password| < MinPassword
    ensures EmailLogin(c, outcome, hasCallback).LoggedIn? <==> !SubmitDisabled(c) && outcome.Succeeded?
    ensures EmailLogin(c, outcome, hasCallback).LoggedIn? ==>
      EmailLogin(c, outcome, hasCallback).nav == (if hasCallback then Stay else Push("/"))
    ensures !SubmitDisabled(c) && outcome.Failed? ==> EmailLogin(c, outcome, hasCallback) == Alerted(LoginFailedAlert)
    ensures KeyDown(c, true, outcome, hasCallback) == EmailLogin(c, outcome, hasCallback)
    ensures KeyDown(c, false, outcome, hasCallback) == NoAttempt
  {
  }

  class LoginForm {
    var email: string
    var password: string

    function State(): Credentials
      reads this
    {
      Credentials(email, password)
    }

    constructor ()
      ensures State() == Credentials("", "")
    {
      email, password := "", "";
    }

    method Change(field: Field, v: string)
      modifies this
      ensures State() == WithField(old(State()), field, v)
    {
      match field
      case EmailField => email := v;
      case PasswordField => password := v;
    }

    /** The login button; the form's own state never changes, whatever the outcome. */
    method Submit(outcome: AuthOutcome, hasCallback: bool) returns (r: LoginResult)
      ensures r == EmailLogin(State(), outcome, hasCallback)
    {
      if SubmitDisabled(State()) {
        return NoAttempt;
      }
      r := if outcome.Succeeded? then Success(hasCallback) else Alerted(LoginFailedAlert);
    }

    method Key(enter: bool, outcome: AuthOutcome, hasCallback: bool) returns (r: LoginResult)
      ensures r == KeyDown(State(), enter, outcome, hasCallback)
    {
      r := NoAttempt;
      if enter && !SubmitDisabled(State()) {
        r := Submit(outcome, hasCallback);
      }
    }

    method Google(outcome: AuthOutcome, hasCallback: bool) returns (r: LoginResult)
      ensures r == GoogleLogin(outcome, hasCallback)
    {
      r := GoogleLogin(outcome, hasCallback);
    }

    /** `handleGoBack`: the browser's back. */
    method GoBack() returns (nav: Nav)
      ensures nav == Back
    {
      nav := Back;
    }
  }
}
