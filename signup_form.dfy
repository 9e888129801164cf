/** The sign-up wizard (`SignupForm`): six steps (name, department, e-mail, password,
    confirmation, agreements), a Google shortcut that skips the e-mail and password
    steps, an effect that advances on long enough input, and the final submission. */
module SignUp {
  import opened Common

  datatype Form = Form(
    name: string, department: string, email: string, password: string, confirmPassword: string,
    termsAgreed: bool, privacyAgreed: bool, aiDataAgreed: bool, marketingAgreed: bool)

  const EmptyForm: Form := Form("", "", "", "", "", false, false, false, false)

  datatype TextField = NameField | DepartmentField | EmailField | PasswordField | ConfirmField
  datatype Agreement = Terms | Privacy | AiData | Marketing

  /** `activeStep`, `isSocialLogin` and `formData`. */
  datatype Wizard = Wizard(step: int, social: bool, form: Form)

  const Start: Wizard := Wizard(1, false, EmptyForm)

  const MinName: nat := 2
  const MinDepartment: nat := 2
  const MinPassword: nat := 8
  const AutoName: nat := 5
  const AutoDepartment: nat := 8

  const GoogleNameFallback: string := "구글유저"
  const GoogleEmailFallback: string := "google_user@hanbat.ac.kr"
  const GoogleFailedAlert: string := "구글 로그인 중 오류가 발생했습니다."
  const EmailInUseCode: string := "auth/email-already-in-use"
  const EmailInUseAlert: string := "이미 사용 중인 이메일입니다."
  const SignUpFailedAlert: string := "회원가입 중 오류가 발생했습니다. 다시 시도해주세요."

  /** `handleChange` on a text input: only that field changes. */
  function WithText(f: Form, field: TextField, v: string): Form {
    match field
    case NameField => f.(name := v)
    case DepartmentField => f.(department := v)
    case EmailField => f.(email := v)
    case PasswordField => f.(password := v)
    case ConfirmField => f.(confirmPassword := v)
  }

  /** `handleChange` on a checkbox: only that agreement changes. */
  function WithAgreement(f: Form, a: Agreement, b: bool): Form {
    match a
    case Terms => f.(termsAgreed := b)
    case Privacy => f.(privacyAgreed := b)
    case AiData => f.(aiDataAgreed := b)
    case Marketing => f.(marketingAgreed := b)
  }

  /** `isAllAgreed`: the two required agreements. */
  predicate AllAgreed(f: Form) {
    f.termsAgreed && f.privacyAgreed
  }

  /** The optional agreements never affect `isAllAgreed`, the required ones do. */
  lemma {:induction false} OnlyRequiredAgreementsCount(f: Form, b: bool)
    ensures AllAgreed(WithAgreement(f, AiData, b)) == AllAgreed(f)
    ensures AllAgreed(WithAgreement(f, Marketing, b)) == AllAgreed(f)
    ensures !AllAgreed(WithAgreement(f, Terms, false)) && !AllAgreed(WithAgreement(f, Privacy, false))
    ensures AllAgreed(WithAgreement(WithAgreement(f, Terms, true), Privacy, true))
  {
  }

  // ---------------------------------------------------------------------------
  // Steps

  /** `moveToNextStep(currentStep)`. */
  function NextStep(w: Wizard, current: int): (r: Wizard)
    ensures r.social == w.social && r.form == w.form
  {
    var f := w.form;
    if current == 1 && |f.name| >= MinName then w.(step := 2)
    else if current == 2 && |f.department| >= MinDepartment then w.(step := if w.social then 6 else 3)
    else if current == 3 && |f.email| > 0 then w.(step := 4)
    else if current == 4 && |f.password| >= MinPassword then w.(step := 5)
    else if current == 5 && f.password == f.confirmPassword then w.(step := 6)
    else w
  }

  /** `isNextDisabled()`. */
  predicate NextDisabled(w: Wizard) {
    var f := w.form;
    if w.step == 1 then |f.name| < MinName
    else if w.step == 2 then |f.department| < MinDepartment
    else if w.step == 3 then |f.email| == 0
    else if w.step == 4 then |f.password| < MinPassword
    else if w.step == 5 then f.password != f.confirmPassword || f.password == ""
    else if w.step == 6 then !AllAgreed(f)
    else false
  }

  /** Moving on from the active step: each step's own condition, the Google shortcut from
      the department straight to the agreements, and never a step back. An enabled button
      below step 6 always moves forward, and on steps 1 to 4 it is enabled exactly when
      it would move. */
  lemma {:induction false} NextStepRules(w: Wizard)
    requires 1 <= w.step <= 6
    ensures var r := NextStep(w, w.step);
      && w.step <= r.step <= 6
      && (w.step == 1 ==> (r.step == 2 <==> |w.form.name| >= MinName))
      && (w.step == 2 ==> (r.step != 2 <==> |w.form.department| >= MinDepartment))
      && (w.step == 2 && r.step != 2 ==> r.step == (if w.social then 6 else 3))
      && (w.step == 3 ==> (r.step == 4 <==> |w.form.email| > 0))
      && (w.step == 4 ==> (r.step == 5 <==> |w.form.password| >= MinPassword))
      && (w.step == 5 ==> (r.step == 6 <==> w.form.password == w.form.confirmPassword))
      && (w.step == 6 ==> r == w)
    ensures !NextDisabled(w) && w.step < 6 ==> NextStep(w, w.step).step > w.step
    ensures w.step <= 4 ==> (NextDisabled(w) <==> NextStep(w, w.step) == w)
    ensures w.step == 5 ==> (NextDisabled(w) <==> w.form.password != w.form.confirmPassword || w.form.password == "")
    ensures w.step == 6 ==> (NextDisabled(w) <==> !AllAgreed(w.form))
  {
  }

  /** `handleGoBack`. */
  function StepBack(w: Wizard): Wizard {
    if w.step == 6 && w.social then w.(step := 2)
    else if w.step > 1 then w.(step := w.step - 1)
    else w
  }

  /** Going back returns from the agreements straight to the department after the Google
      shortcut, otherwise one step back, and never below step 1. */
  lemma {:induction false} GoBackRules(w: Wizard)
    requires 1 <= w.step <= 6
    ensures 1 <= StepBack(w).step <= w.step
    ensures w.step == 6 && w.social ==> StepBack(w).step == 2
    ensures !(w.step == 6 && w.social) && w.step > 1 ==> StepBack(w).step == w.step - 1
    ensures w.step == 1 ==> StepBack(w) == w
  {
  }

  /** One run of the auto-advance effect. */
  function Effect(w: Wizard): Wizard {
    if w.step == 1 && |w.form.name| >= AutoName then w.(step := 2)
    else if w.step == 2 && |w.form.department| >= AutoDepartment then w.(step := if w.social then 6 else 3)
    else w
  }

  /** The effect re-runs whenever it changes the step, so after every update it has run
      until nothing changes; two runs always suffice. */
  function Settle(w: Wizard): Wizard {
    Effect(Effect(w))
  }

  /** A settled state is one the effect leaves alone; settling only ever moves forward and
      is idempotent. */
  lemma {:induction false} SettleRules(w: Wizard)
    requires 1 <= w.step <= 6
    ensures Effect(Settle(w)) == Settle(w) && Settle(Settle(w)) == Settle(w)
    ensures Effect(w) == w ==> Settle(w) == w
    ensures w.step <= Settle(w).step <= 6 && Settle(w).form == w.form && Settle(w).social == w.social
    ensures w.step == 1 && |w.form.name| >= AutoName ==> Settle(w).step >= 2
    ensures w.step == 2 && |w.form.department| >= AutoDepartment ==> Settle(w).step == (if w.social then 6 else 3)
  {
  }

  /** Going back onto a step whose input already passes its auto-advance threshold is
      undone at once by the effect. */
  lemma {:induction false} GoBackUndoneByEffect(w: Wizard)
    requires Effect(w) == w
    requires (w.step == 2 && |w.form.name| >= AutoName) || (w.step == 3 && !w.social && |w.form.department| >= AutoDepartment)
    ensures Settle(StepBack(w)).step >= w.step
  {
  }

  // ---------------------------------------------------------------------------
  // Visibility

  predicate Step2Visible(w: Wizard) { w.step >= 2 || |w.form.department| > 0 }
  predicate Step3Visible(w: Wizard) { !w.social && (w.step >= 3 || |w.form.email| > 0) }
  predicate Step4Visible(w: Wizard) { !w.social && (w.step >= 4 || |w.form.password| > 0) }
  predicate Step5Visible(w: Wizard) { !w.social && (w.step >= 5 || |w.form.confirmPassword| > 0) }
  predicate Step6Visible(w: Wizard) { w.step >= 6 }

  /** After the Google shortcut the e-mail and password sections never show; every
      section up to the active step does otherwise. */
  lemma {:induction false} VisibilityRules(w: Wizard)
    ensures w.social ==> !Step3Visible(w) && !Step4Visible(w) && !Step5Visible(w)
    ensures !w.social ==> (w.step >= 3 ==> Step3Visible(w)) && (w.step >= 4 ==> Step4Visible(w)) && (w.step >= 5 ==> Step5Visible(w))
    ensures w.step >= 2 ==> Step2Visible(w)
    ensures Step6Visible(w) <==> w.step >= 6
  {
  }

  /** Which inputs are on screen and enabled: the name input is always rendered but is
      disabled after the Google shortcut. */
  predicate FieldEnabled(w: Wizard, field: int) {
    if field == 1 then !w.social
    else if field == 2 then Step2Visible(w)
    else if field == 3 then Step3Visible(w)
    else if field == 4 then Step4Visible(w)
    else if field == 5 then Step5Visible(w)
    else false
  }

  // ---------------------------------------------------------------------------
  // Keys and buttons

  /** Enter in input `field` as written: the guard is the active step's, the move is the
      field's own. */
  function KeyAsWritten(w: Wizard, field: int): Wizard {
    if FieldEnabled(w, field) && !NextDisabled(w) then NextStep(w, field) else w
  }

  /** Enter that moves on from the active step, the step its guard checks. */
  function Key(w: Wizard, field: int): Wizard {
    if FieldEnabled(w, field) && !NextDisabled(w) then NextStep(w, w.step) else w
  }

  /** As written, Enter in the name input while the password step is active and its
      password is long enough sends the wizard back to the department step. */
  lemma {:induction false} EnterMovesBackAsWritten()
    ensures var w := Wizard(4, false, Form("홍길동", "AI", "id@hanbat.ac.kr", "password1", "", false, false, false, false));
      !NextDisabled(w) && Settle(KeyAsWritten(w, 1)).step == 2 && Key(w, 1).step == 5
  {
    var w := Wizard(4, false, Form("홍길동", "AI", "id@hanbat.ac.kr", "password1", "", false, false, false, false));
    assert |w.form.password| == 9 && |w.form.name| == 3 && |w.form.department| == 2;
  }

  /** Enter moves on as the button does, so it never moves back. */
  lemma {:induction false} KeyNeverMovesBack(w: Wizard, field: int)
    requires 1 <= w.step <= 6
    ensures w.step <= Key(w, field).step <= 6
    ensures Key(w, field) == w || Key(w, field) == NextStep(w, w.step)
  {
  }

  /** The "verify" button beside the e-mail input: the password step once an address is
      typed, whichever step is active. */
  function VerifyEmail(w: Wizard): Wizard {
    if Step3Visible(w) && |w.form.email| > 0 then w.(step := 4) else w
  }

  /** The result of the Google pop-up. */
  datatype GoogleUser = GoogleUser(displayName: Option<string>, email: Option<string>)

  function OrElse(s: Option<string>, fallback: string): (r: string)
    ensures s.Some? && s.value != "" ==> r == s.value
    ensures s.None? || s.value == "" ==> r == fallback
  {
    if s.Some? && s.value != "" then s.value else fallback
  }

  /** `handleGoogleLogin`: `None` is a failed pop-up, which alerts and changes nothing.
      The button only shows on the name step before the shortcut was taken. */
  function GoogleSignIn(w: Wizard, user: Option<GoogleUser>): Wizard {
    if w.step != 1 || w.social || user.None? then w
    else Wizard(2, true, w.form.(name := OrElse(user.value.displayName, GoogleNameFallback),
                                 email := OrElse(user.value.email, GoogleEmailFallback)))
  }

  /** A successful Google sign-in takes the shortcut and fills name and e-mail, with the
      fixed fallbacks for missing ones; everything else in the form is kept. */
  lemma {:induction false} GoogleSignInRules(w: Wizard, user: GoogleUser)
    requires w.step == 1 && !w.social
    ensures var r := GoogleSignIn(w, Some(user));
      && r.step == 2 && r.social
      && (user.displayName.None? ==> r.form.name == GoogleNameFallback)
      && (user.email.None? ==> r.form.email == GoogleEmailFallback)
      && r.form == w.form.(name := r.form.name, email := r.form.email)
    ensures GoogleSignIn(w, None) == w
  {
  }

  /** What the final submission leads to. */
  datatype SubmitResult =
    | NotSubmitted
    | Registered(nav: Nav, calledBack: bool)   // `onSuccess(formData)`, or `/login` without one
    | Alerted(message: string)

  /** `handleFinalSubmit`; `created` is the outcome of creating the e-mail account, which
      is only attempted without the Google shortcut. */
  function FinalSubmit(w: Wizard, created: AuthOutcome, hasCallback: bool): SubmitResult {
    if !AllAgreed(w.form) then NotSubmitted
    else if w.social || created.Succeeded? then Registered(if hasCallback then Stay else Push("/login"), hasCallback)
    else Alerted(if created.code == EmailInUseCode then EmailInUseAlert else SignUpFailedAlert)
  }

  /** Nothing is submitted without both required agreements; a Google sign-up never
      creates an account; a failed creation alerts with the message for its code. */
  lemma {:induction false} FinalSubmitRules(w: Wizard, created: AuthOutcome, hasCallback: bool)
    ensures FinalSubmit(w, created, hasCallback).NotSubmitted? <==> !AllAgreed(w.form)
    ensures AllAgreed(w.form) && w.social ==> FinalSubmit(w, created, hasCallback) == FinalSubmit(w, Succeeded, hasCallback)
    ensures FinalSubmit(w, created, hasCallback).Registered? ==>
      FinalSubmit(w, created, hasCallback).nav == (if hasCallback then Stay else Push("/login"))
    ensures AllAgreed(w.form) && !w.social && created == Failed(EmailInUseCode) ==>
      FinalSubmit(w, created, hasCallback) == Alerted(EmailInUseAlert)
  {
  }

  // ---------------------------------------------------------------------------
  // The component

  /** The bounds every reachable state keeps: a step from 1 to 6, the effect settled, and
      after the Google shortcut only the name, department and agreement steps. */
  ghost predicate Reachable(w: Wizard) {
    1 <= w.step <= 6 && Effect(w) == w && (w.social ==> w.step in {1, 2, 6})
  }

  lemma {:induction false} UpdatesStayReachable(w: Wizard, field: TextField, v: string, a: Agreement, b: bool, key: int, user: Option<GoogleUser>)
    requires Reachable(w)
    ensures Reachable(Settle(w.(form := WithText(w.form, field, v)))) && Reachable(w.(form := WithAgreement(w.form, a, b)))
    ensures Reachable(Settle(NextStep(w, w.step))) && Reachable(Settle(Key(w, key)))
    ensures Reachable(Settle(StepBack(w))) && Reachable(Settle(VerifyEmail(w))) && Reachable(Settle(GoogleSignIn(w, user)))
  {
  }

  class SignUpForm {
    var step: int
    var social: bool
    var form: Form

    function State(): Wizard
      reads this
    {
      Wizard(step, social, form)
    }

    ghost predicate Valid()
      reads this
    {
      Reachable(State())
    }

    constructor ()
      ensures Valid() && State() == Start
    {
      step, social, form := 1, false, EmptyForm;
    }

    method Set(w: Wizard)
      modifies this
      ensures State() == w
    {
      step, social, form := w.step, w.social, w.form;
    }

    method ChangeText(field: TextField, v: string)
      requires Valid()
      modifies this
      ensures Valid() && State() == Settle(old(State()).(form := WithText(old(form), field, v)))
    {
      UpdatesStayReachable(State(), field, v, Terms, false, 0, None);
      Set(Settle(State().(form := WithText(form, field, v))));
    }

    method ChangeAgreement(a: Agreement, b: bool)
      requires Valid()
      modifies this
      ensures Valid() && State() == old(State()).(form := WithAgreement(old(form), a, b))
    {
      UpdatesStayReachable(State(), NameField, "", a, b, 0, None);
      form := WithAgreement(form, a, b);
    }

    /** The bottom button: disabled by `isNextDisabled()`; below step 6 it moves on, on
        step 6 it submits. */
    method NextClick(created: AuthOutcome, hasCallback: bool) returns (r: SubmitResult)
      requires Valid()
      modifies this
      ensures Valid()
      ensures NextDisabled(old(State())) ==> State() == old(State()) && r == NotSubmitted
      ensures !NextDisabled(old(State())) && old(step) < 6 ==> State() == Settle(NextStep(old(State()), old(step))) && r == NotSubmitted
      ensures !NextDisabled(old(State())) && old(step) == 6 ==> State() == old(State()) && r == FinalSubmit(old(State()), created, hasCallback)
    {
      r := NotSubmitted;
      if NextDisabled(State()) {
        return;
      }
      if step < 6 {
        UpdatesStayReachable(State(), NameField, "", Terms, false, 0, None);
        Set(Settle(NextStep(State(), step)));
      } else {
        r := FinalSubmit(State(), created, hasCallback);
      }
    }

    method KeyDown(field: int)
      requires Valid()
      modifies this
      ensures Valid() && State() == Settle(Key(old(State()), field))
    {
      UpdatesStayReachable(State(), NameField, "", Terms, false, field, None);
      Set(Settle(Key(State(), field)));
    }

    method GoBack()
      requires Valid()
      modifies this
      ensures Valid() && State() == Settle(StepBack(old(State())))
    {
      UpdatesStayReachable(State(), NameField, "", Terms, false, 0, None);
      Set(Settle(StepBack(State())));
    }

    method VerifyEmailClick()
      requires Valid()
      modifies this
      ensures Valid() && State() == Settle(VerifyEmail(old(State())))
    {
      UpdatesStayReachable(State(), NameField, "", Terms, false, 0, None);
      Set(Settle(VerifyEmail(State())));
    }

    /** Returns the alert shown, if any. */
    method GoogleLogin(user: Option<GoogleUser>) returns (alert: Option<string>)
      requires Valid()
      modifies this
      ensures Valid() && State() == Settle(GoogleSignIn(old(State()), user))
      ensures alert == (if user.None? then Some(GoogleFailedAlert) else None)
    {
      UpdatesStayReachable(State(), NameField, "", Terms, false, 0, user);
      Set(Settle(GoogleSignIn(State(), user)));
      alert := if user.None? then Some(GoogleFailedAlert) else None;
    }
  }
}
