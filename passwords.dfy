/** The two password pages: changing the password of a signed-in user and setting a new
    one from a recovery link. Both run the same checks before they call `updateUser`,
    whose error, if any, is a parameter. */
module Passwords {
  import opened Wrappers

  const MIN_PASSWORD_LENGTH := 6

  /** Why a new password is refused. */
  datatype Problem = TooShort | Mismatch

  /** `handleSubmit`'s checks, in their order: the length, then the confirmation. */
  function PasswordProblem(password: string, confirm: string): (r: Option<Problem>)
    ensures r == Some(TooShort) <==> |password| < MIN_PASSWORD_LENGTH
    ensures r == Some(Mismatch) <==> |password| >= MIN_PASSWORD_LENGTH && password != confirm
    ensures r.None? <==> |password| >= MIN_PASSWORD_LENGTH && password == confirm
  {
    if |password| < MIN_PASSWORD_LENGTH then Some(TooShort)
    else if password != confirm then Some(Mismatch)
    else None
  }

  /** The length check comes first: a short password is refused as short even when the
      confirmation differs too, and a matching confirmation does not help it. */
  lemma LengthFirst(password: string, confirm: string)
    requires |password| < MIN_PASSWORD_LENGTH
    ensures PasswordProblem(password, confirm) == Some(TooShort)
    ensures PasswordProblem(password, password) == Some(TooShort)
  {
  }

  /** The toast the last submission showed. */
  datatype Notice = NoNotice | Refused(problem: Problem) | UpdateError(message: string) | Changed

  /** What the change page renders: the spinner while the session loads, nothing (and a
      redirect to the sign-in page) without a user, the form otherwise. */
  datatype ChangeView = ChangeSpinner | ToSignIn | ChangeForm

  function ChangePageView(authLoading: bool, hasUser: bool): (v: ChangeView)
    ensures v == ChangeForm <==> !authLoading && hasUser
    ensures v == ToSignIn <==> !authLoading && !hasUser
  {
    if authLoading then ChangeSpinner else if !hasUser then ToSignIn else ChangeForm
  }

  class ChangePasswordPage {
    var password: string
    var confirmPassword: string
    var isLoading: bool
    var navigated: Option<string>
    var notice: Notice

    constructor ()
      ensures password == "" && confirmPassword == "" && !isLoading && navigated.None? && notice == NoNotice
    {
      password := "";
      confirmPassword := "";
      isLoading := false;
      navigated := None;
      notice := NoNotice;
    }

    method SetFields(p: string, c: string)
      modifies this
      ensures password == p && confirmPassword == c
      ensures isLoading == old(isLoading) && navigated == old(navigated) && notice == old(notice)
    {
      password := p;
      confirmPassword := c;
    }

    /** `handleSubmit`: a refused password never reaches `updateUser`; an accepted one
        is sent, and success leads to the dashboard while an error shows its message
        and stays. `sent` is the password given to `updateUser`. */
    method HandleSubmit(updateError: Option<string>) returns (sent: Option<string>)
      modifies this
      ensures PasswordProblem(old(password), old(confirmPassword)).Some? ==>
        sent.None? && notice == Refused(PasswordProblem(old(password), old(confirmPassword)).value)
        && navigated == old(navigated)
      ensures PasswordProblem(old(password), old(confirmPassword)).None? ==> sent == Some(old(password))
      ensures sent.Some? && updateError.Some? ==> notice == UpdateError(updateError.value) && navigated == old(navigated)
      ensures sent.Some? && updateError.None? ==> notice == Changed && navigated == Some("/dashboard")
      ensures sent.None? ==> isLoading == old(isLoading)
      ensures sent.Some? ==> !isLoading
      ensures password == old(password) && confirmPassword == old(confirmPassword)
    {
      var problem := PasswordProblem(password, confirmPassword);
      if problem.Some? {
        notice := Refused(problem.value);
        sent := None;
        return;
      }
      isLoading := true;
      sent := Some(password);
      isLoading := false;
      if updateError.Some? {
        notice := UpdateError(updateError.value);
      } else {
        notice := Changed;
        navigated := Some("/dashboard");
      }
    }
  }

  /** What the recovery page renders. */
  datatype ResetView = ResetSpinner | InvalidLink | ResetForm

  class ResetPasswordPage {
    var password: string
    var confirmPassword: string
    var isLoading: bool
    var isValidSession: bool
    var checkingSession: bool
    var navigated: Option<string>
    var notice: Notice

    constructor ()
      ensures password == "" && confirmPassword == "" && !isLoading
      ensures !isValidSession && checkingSession && navigated.None? && notice == NoNotice
    {
      password := "";
      confirmPassword := "";
      isLoading := false;
      isValidSession := false;
      checkingSession := true;
      navigated := None;
      notice := NoNotice;
    }

    /** The spinner until the session is checked, the invalid-link screen while there
        is no recovery session, the form otherwise. */
    function View(): (v: ResetView)
      reads this
      ensures v == ResetForm <==> !checkingSession && isValidSession
      ensures v == InvalidLink <==> !checkingSession && !isValidSession
    {
      if checkingSession then ResetSpinner else if !isValidSession then InvalidLink else ResetForm
    }

    method SetFields(p: string, c: string)
      modifies this
      ensures password == p && confirmPassword == c
      ensures isLoading == old(isLoading) && isValidSession == old(isValidSession)
      ensures checkingSession == old(checkingSession) && navigated == old(navigated) && notice == old(notice)
    {
      password := p;
      confirmPassword := c;
    }

    /** `checkSession`: an existing session makes the link valid; the check ends either
        way, and the flag is never cleared. */
    method CheckSession(hasSession: bool)
      modifies this
      ensures isValidSession == (old(isValidSession) || hasSession)
      ensures !checkingSession
      ensures password == old(password) && confirmPassword == old(confirmPassword)
      ensures isLoading == old(isLoading) && navigated == old(navigated) && notice == old(notice)
    {
      if hasSession {
        isValidSession := true;
      }
      checkingSession := false;
    }

    /** The auth listener: a `PASSWORD_RECOVERY` event with a session makes the link
        valid; any other event changes nothing. */
    method OnAuthStateChange(event: string, hasSession: bool)
      modifies this
      ensures isValidSession == (old(isValidSession) || (event == "PASSWORD_RECOVERY" && hasSession))
      ensures checkingSession == old(checkingSession)
      ensures password == old(password) && confirmPassword == old(confirmPassword)
      ensures isLoading == old(isLoading) && navigated == old(navigated) && notice == old(notice)
    {
      if event == "PASSWORD_RECOVERY" && hasSession {
        isValidSession := true;
      }
    }

    /** `handleSubmit`: the same checks as the change page; success leads home. */
    method HandleSubmit(updateError: Option<string>) returns (sent: Option<string>)
      modifies this
      ensures PasswordProblem(old(password), old(confirmPassword)).Some? ==>
        sent.None? && notice == Refused(PasswordProblem(old(password), old(confirmPassword)).value)
        && navigated == old(navigated)
      ensures PasswordProblem(old(password), old(confirmPassword)).None? ==> sent == Some(old(password))
      ensures sent.Some? && updateError.Some? ==> notice == UpdateError(updateError.value) && navigated == old(navigated)
      ensures sent.Some? && updateError.None? ==> notice == Changed && navigated == Some("/")
      ensures sent.None? ==> isLoading == old(isLoading)
      ensures sent.Some? ==> !isLoading
      ensures password == old(password) && confirmPassword == old(confirmPassword)
      ensures isValidSession == old(isValidSession) && checkingSession == old(checkingSession)
    {
      var problem := PasswordProblem(password, confirmPassword);
      if problem.Some? {
        notice := Refused(problem.value);
        sent := None;
        return;
      }
      isLoading := true;
      sent := Some(password);
      isLoading := false;
      if updateError.Some? {
        notice := UpdateError(updateError.value);
      } else {
        notice := Changed;
        navigated := Some("/");
      }
    }
  }
}
