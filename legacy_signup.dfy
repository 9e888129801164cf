/** The older stand-alone sign-up page (`app/auth/signup/page.tsx`): the same six steps
    without the Google shortcut and without a disabled state on its button, an optional
    Hugging Face key, and a completion that only logs the form. */
module LegacySignUp {
  import opened Common

  datatype Form = Form(
    name: string, department: string, email: string, password: string, confirmPassword: string,
    huggingFaceKey: string, termsAgreed: bool, privacyAgreed: bool)

  const EmptyForm: Form := Form("", "", "", "", "", "", false, false)

  datatype TextField = NameField | DepartmentField | EmailField | PasswordField | ConfirmField | KeyField
  datatype Agreement = Terms | Privacy

  datatype Page = Page(step: int, form: Form)

  const MinName: nat := 2
  const MinDepartment: nat := 2
  const MinPassword: nat := 8
  const AutoName: nat := 5
  const AutoDepartment: nat := 8

  function WithText(f: Form, field: TextField, v: string): Form {
    match field
    case NameField => f.(name := v)
    case DepartmentField => f.(department := v)
    case EmailField => f.(email := v)
    case PasswordField => f.(password := v)
    case ConfirmField => f.(confirmPassword := v)
    case KeyField => f.(huggingFaceKey := v)
  }

  function WithAgreement(f: Form, a: Agreement, b: bool): Form {
    match a
    case Terms => f.(termsAgreed := b)
    case Privacy => f.(privacyAgreed := b)
  }

  predicate AllAgreed(f: Form) {
    f.termsAgreed && f.privacyAgreed
  }

  /** `moveToNextStep(currentStep)`: the e-mail step moves on whatever was typed. */
  function NextStep(p: Page, current: int): (r: Page)
    ensures r.form == p.form
  {
    var f := p.form;
    if current == 1 && |f.name| >= MinName then p.(step := 2)
    else if current == 2 && |f.department| >= MinDepartment then p.(step := 3)
    else if current == 3 then p.(step := 4)
    else if current == 4 && |f.password| >= MinPassword then p.(step := 5)
    else if current == 5 && f.password == f.confirmPassword then p.(step := 6)
    else p
  }

  /** From the active step `k` a move reaches `k + 1` and nothing else; it is
      unconditional from the e-mail step and needs that step's input otherwise. */
  lemma {:induction false} NextStepRules(p: Page, k: int)
    requires 1 <= k <= 5 && p.step == k
    ensures NextStep(p, k) == p || NextStep(p, k) == p.(step := k + 1)
    ensures k == 3 ==> NextStep(p, k).step == 4
    ensures k == 1 ==> (NextStep(p, k).step == 2 <==> |p.form.name| >= MinName)
    ensures k == 2 ==> (NextStep(p, k).step == 3 <==> |p.form.department| >= MinDepartment)
    ensures k == 4 ==> (NextStep(p, k).step == 5 <==> |p.form.password| >= MinPassword)
    ensures k == 5 ==> (NextStep(p, k).step == 6 <==> p.form.password == p.form.confirmPassword)
  {
  }

  /** The effect on `[name, department]`, run once after either changes. */
  function Effect(p: Page): Page {
    if p.step == 1 && |p.form.name| >= AutoName then p.(step := 2)
    else if p.step == 2 && |p.form.department| >= AutoDepartment then p.(step := 3)
    else p
  }

  /** `handleGoBack`: one step back, or home from the first step. */
  function StepBack(p: Page): (Page, Nav) {
    if p.step > 1 then (p.(step := p.step - 1), Stay) else (p, Push("/"))
  }

  predicate Step2Visible(p: Page) { p.step >= 2 || |p.form.department| > 0 }
  predicate Step3Visible(p: Page) { p.step >= 3 || |p.form.email| > 0 }
  predicate Step4Visible(p: Page) { p.step >= 4 || |p.form.password| > 0 }
  predicate Step5Visible(p: Page) { p.step >= 5 || |p.form.confirmPassword| > 0 }
  /** The key and the agreements show from the confirmation step on. */
  predicate AgreementsVisible(p: Page) { p.step >= 5 }

  /** Input `field` is on screen: the confirmation input sits inside the password section. */
  predicate FieldShown(p: Page, field: int) {
    if field == 1 then true
    else if field == 2 then Step2Visible(p)
    else if field == 3 then Step3Visible(p)
    else if field == 4 then Step4Visible(p)
    else if field == 5 then Step4Visible(p) && Step5Visible(p)
    else false
  }

  /** Enter in input `field`: the move of that field's step, with no guard. */
  function Key(p: Page, field: int): Page {
    if FieldShown(p, field) then NextStep(p, field) else p
  }

  /** The bottom button: a move below step 5; from step 5 on it completes (and only logs)
      when both agreements are given. Returns the page and whether it completed. */
  function Button(p: Page): (Page, bool) {
    if p.step < 5 then (NextStep(p, p.step), false) else (p, AllAgreed(p.form))
  }

  /** The "verify" button beside the e-mail input: the password step, unconditionally. */
  function VerifyEmail(p: Page): Page {
    if Step3Visible(p) then p.(step := 4) else p
  }

  /** Step 6 is reached only by Enter in the confirmation input with matching passwords:
      the button, the verify button, going back and the effect never lead there. */
  lemma {:induction false} SixOnlyFromConfirmation(p: Page, field: int)
    requires 1 <= p.step <= 5
    ensures Button(p).0.step <= 5 && VerifyEmail(p).step <= 5 && StepBack(p).0.step <= 5 && Effect(p).step <= 5
    ensures Key(p, field).step == 6 <==> field == 5 && FieldShown(p, 5) && p.form.password == p.form.confirmPassword
  {
  }

  /** The button completes only from step 5 on with both agreements; below step 5 it
      moves on as the active step's Enter does. */
  lemma {:induction false} ButtonRules(p: Page)
    ensures Button(p).1 <==> p.step >= 5 && AllAgreed(p.form)
    ensures p.step >= 5 ==> Button(p).0 == p
    ensures p.step < 5 ==> Button(p).0 == NextStep(p, p.step)
  {
  }

  /** Unlike the button, Enter in an earlier input moves the page back to the step after it. */
  lemma {:induction false} EnterOnEarlierInputMovesBack(p: Page)
    requires p.step == 5 && |p.form.name| >= MinName
    ensures Key(p, 1).step == 2
  {
  }

  /** A section is visible once its step is reached or its input holds something; the
      agreements exactly from step 5. */
  lemma {:induction false} VisibilityRules(p: Page)
    ensures Step2Visible(p) <==> p.step >= 2 || p.form.department != ""
    ensures Step3Visible(p) <==> p.step >= 3 || p.form.email != ""
    ensures Step4Visible(p) <==> p.step >= 4 || p.form.password != ""
    ensures Step5Visible(p) <==> p.step >= 5 || p.form.confirmPassword != ""
    ensures AgreementsVisible(p) <==> p.step >= 5
  {
  }

  /** The page's step stays between 1 and 6 under every update. */
  lemma {:induction false} StepsStayInRange(p: Page, field: int)
    requires 1 <= p.step <= 6
    ensures 1 <= NextStep(p, field).step <= 6 && 1 <= Effect(p).step <= 6 && 1 <= StepBack(p).0.step <= 6
    ensures 1 <= Key(p, field).step <= 6 && 1 <= Button(p).0.step <= 6 && 1 <= VerifyEmail(p).step <= 6
  {
  }

  class SignUpPage {
    var step: int
    var form: Form

    function State(): Page
      reads this
    {
      Page(step, form)
    }

    ghost predicate Valid()
      reads this
    {
      1 <= step <= 6
    }

    constructor ()
      ensures Valid() && State() == Page(1, EmptyForm)
    {
      step, form := 1, EmptyForm;
    }

    /** `handleChange`; a change of the name or department runs the effect once. */
    method ChangeText(field: TextField, v: string)
      requires Valid()
      modifies this
      ensures Valid()
      ensures var p := old(State()).(form := WithText(old(form), field, v));
        State() == if field in {NameField, DepartmentField} then Effect(p) else p
    {
      form := WithText(form, field, v);
      if field == NameField || field == DepartmentField {
        var p := Effect(State());
        step := p.step;
      }
    }

    method ChangeAgreement(a: Agreement, b: bool)
      requires Valid()
      modifies this
      ensures Valid() && State() == old(State()).(form := WithAgreement(old(form), a, b))
    {
      form := WithAgreement(form, a, b);
    }

    method KeyDown(field: int)
      requires Valid()
      modifies this
      ensures Valid() && State() == Key(old(State()), field)
    {
      step := Key(State(), field).step;
    }

    method ButtonClick() returns (completed: bool)
      requires Valid()
      modifies this
      ensures Valid() && (State(), completed) == Button(old(State()))
    {
      var p := Button(State());
      step := p.0.step;
      completed := p.1;
    }

    method VerifyEmailClick()
      requires Valid()
      modifies this
      ensures Valid() && State() == VerifyEmail(old(State()))
    {
      step := VerifyEmail(State()).step;
    }

    method GoBack() returns (nav: Nav)
      requires Valid()
      modifies this
      ensures Valid() && (State(), nav) == StepBack(old(State()))
    {
      if step > 1 {
        step := step - 1;
        nav := Stay;
      } else {
        nav := Push("/");
      }
    }
  }
}
