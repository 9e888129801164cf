/** The password-reset form (`ForgotPasswordForm`): an entry screen for the address and
    a confirmation screen once the reset mail went out. The Firebase call is replaced by
    its outcome, passed in by the caller. */
module Forgot {
  import opened Common

  datatype Screen = Screen(email: string, isSubmitted: bool)

  const ResetFailedAlert: string := "등록되지 않은 이메일이거나 오류가 발생했습니다."

  /** `isSubmitDisabled`: no address, or one without `@`. */
  predicate SubmitDisabled(s: Screen) {
    |s.email| == 0 || '@' !in s.email
  }

  lemma {:induction false} DisabledExactlyWithoutAt(s: Screen)
    ensures SubmitDisabled(s) <==> forall i :: 0 <= i < |s.email| ==> s.email[i] != '@'
  {
    if !SubmitDisabled(s) {
      var i :| 0 <= i < |s.email| && s.email[i] == '@';
    }
  }

  /** `handleResetPassword`: `None` when nothing happened, otherwise the new screen and
      the alert shown, if any. */
  function Reset(s: Screen, outcome: AuthOutcome): (Screen, Option<string>) {
    if SubmitDisabled(s) then (s, None)
    else if outcome.Succeeded? then (s.(isSubmitted := true), None)
    else (s, Some(ResetFailedAlert))
  }

  /** `handleKeyDown`: Enter resets only on the entry screen with the button enabled. */
  function KeyDown(s: Screen, enter: bool, outcome: AuthOutcome): (Screen, Option<string>) {
    if enter && !SubmitDisabled(s) && !s.isSubmitted then Reset(s, outcome) else (s, None)
  }

  /** `handleGoBack`: from the confirmation back to the entry screen, otherwise the
      browser's back. */
  function StepBack(s: Screen): (Screen, Nav) {
    if s.isSubmitted then (s.(isSubmitted := false), Stay) else (s, Back)
  }

  /** A reset only ever confirms, on success with an enabled form; a failure alerts and
      keeps the screen; going back from the confirmation keeps the address; Enter on the
      confirmation screen does nothing. */
  lemma {:induction false} ResetRules(s: Screen, outcome: AuthOutcome, enter: bool)
    ensures Reset(s, outcome).0.email == s.email
    ensures Reset(s, outcome).0.isSubmitted != s.isSubmitted ==> !SubmitDisabled(s) && outcome.Succeeded? && !s.isSubmitted
    ensures !SubmitDisabled(s) && outcome.Failed? ==> Reset(s, outcome) == (s, Some(ResetFailedAlert))
    ensures SubmitDisabled(s) ==> Reset(s, outcome) == (s, None)
    ensures s.isSubmitted ==> KeyDown(s, enter, outcome) == (s, None)
    ensures !SubmitDisabled(s) && outcome.Succeeded? ==> StepBack(Reset(s, outcome).0) == (s.(isSubmitted := false), Stay)
    ensures !s.isSubmitted ==> StepBack(s) == (s, Back)
  {
  }

  class ForgotPasswordForm {
    var email: string
    var isSubmitted: bool

    function State(): Screen
      reads this
    {
      Screen(email, isSubmitted)
    }

    constructor ()
      ensures State() == Screen("", false)
    {
      email, isSubmitted := "", false;
    }

    method Change(v: string)
      modifies this
      ensures State() == old(State()).(email := v)
    {
      email := v;
    }

    method ResetPassword(outcome: AuthOutcome) returns (alert: Option<string>)
      modifies this
      ensures (State(), alert) == Reset(old(State()), outcome)
    {
      alert := None;
      if SubmitDisabled(State()) {
        return;
      }
      if outcome.Succeeded? {
        isSubmitted := true;
      } else {
        alert := Some(ResetFailedAlert);
      }
    }

    method Key(enter: bool, outcome: AuthOutcome) returns (alert: Option<string>)
      modifies this
      ensures (State(), alert) == KeyDown(old(State()), enter, outcome)
    {
      alert := None;
      if enter && !SubmitDisabled(State()) && !isSubmitted {
        alert := ResetPassword(outcome);
      }
    }

    method GoBack() returns (nav: Nav)
      modifies this
      ensures (State(), nav) == StepBack(old(State()))
    {
      if isSubmitted {
        isSubmitted := false;
        nav := Stay;
      } else {
        nav := Back;
      }
    }

    /** The confirmation screen's button. */
    method GoToLogin() returns (nav: Nav)
      ensures nav == Push("/login")
    {
      nav := Push("/login");
    }
  }
}
