/** components/auth-form.tsx: the login / sign-up / forgot-password form. Its handlers set the
    form's state variables in sequence around calls to the auth session's `login`, `register`
    and `requestPasswordReset`; how those calls end is passed in as an Outcome. */
module AuthForm {
  import opened Wrappers

  const PasswordsDoNotMatch: string := "Passwords do not match"
  const PasswordTooShort: string := "Password must be at least 8 characters"
  const AuthenticationFailed: string := "Authentication failed"
  const ResetSent: string := "Password reset instructions have been sent to your email"
  const ResetRequestFailed: string := "Failed to request password reset"
  const MinPasswordLength: nat := 8

  /** A call the form makes into the auth session. */
  datatype AuthCall =
    | LoginCall(username: string, password: string)
    | RegisterCall(username: string, password: string, email: string)
    | ResetCall(email: string)

  /** The form's state variables. */
  datatype FormState = FormState(
    isLogin: bool,
    showForgotPassword: bool,
    email: string,
    username: string,
    password: string,
    confirmPassword: string,
    loading: bool,
    error: string,
    success: string)

  /** JavaScript's `string.length`: the number of UTF-16 code units, so a character outside
      the Basic Multilingual Plane (above U+FFFF) counts twice. */
  function Utf16Length(s: string): (n: nat)
  {
    if |s| == 0 then 0 else (if s[0] as int > 0xFFFF then 2 else 1) + Utf16Length(s[1..])
  }

  /** The length the form checks lies between the number of characters and twice that, and
      equals the number of characters exactly when none is outside the Basic Multilingual Plane. */
  lemma {:induction false} Utf16LengthBounds(s: string)
    ensures |s| <= Utf16Length(s) <= 2 * |s|
    ensures Utf16Length(s) == |s| <==> forall i :: 0 <= i < |s| ==> s[i] as int <= 0xFFFF
  {
    if |s| > 0 {
      Utf16LengthBounds(s[1..]);
      assert forall i :: 1 <= i < |s| ==> s[i] == s[1..][i - 1];
    }
  }

  /** Four emoji are eight code units, so they pass the length check and a matching pair of
      them raises no client-side error. */
  lemma AstralPasswordIsLongEnough()
    ensures Utf16Length("\U{1F600}\U{1F600}\U{1F600}\U{1F600}") == 8
    ensures SignUpError("\U{1F600}\U{1F600}\U{1F600}\U{1F600}", "\U{1F600}\U{1F600}\U{1F600}\U{1F600}").None?
  {
    var e := "\U{1F600}";
    assert Utf16Length(e) == 2;
    assert Utf16Length(e + e) == 4 by { assert (e + e)[1..] == e; }
    assert Utf16Length(e + e + e) == 6 by { assert (e + e + e)[1..] == e + e; }
    assert (e + e + e + e)[1..] == e + e + e;
    assert e + e + e + e == "\U{1F600}\U{1F600}\U{1F600}\U{1F600}";
  }

  /** The client-side sign-up checks, in the handler's order: the confirmation first, then the
      length. */
  function SignUpError(password: string, confirmPassword: string): (e: Option<string>)
    ensures e.None? <==> password == confirmPassword && Utf16Length(password) >= MinPasswordLength
    ensures password != confirmPassword ==> e == Some(PasswordsDoNotMatch)
    ensures password == confirmPassword && Utf16Length(password) < MinPasswordLength ==> e == Some(PasswordTooShort)
  {
    if password != confirmPassword then Some(PasswordsDoNotMatch)
    else if Utf16Length(password) < MinPasswordLength then Some(PasswordTooShort)
    else None
  }

  /** The text the catch block shows for a thrown message: `err.message || "Authentication failed"`. */
  function ShownError(message: string): (e: string)
    ensures e != ""
    ensures message != "" ==> e == message
  {
    OrElse(message, AuthenticationFailed)
  }

  /** The first statements of every submit: clear both messages and start loading. */
  function Begin(s: FormState): (p: FormState)
    ensures p.loading && p.error == "" && p.success == ""
    ensures p.(loading := s.loading, error := s.error, success := s.success) == s
  {
    s.(error := "", success := "", loading := true)
  }

  /** What the try block does for the current mode: the calls it makes, in order, and the
      message it throws (empty when it completes). */
  function SubmitAttempt<T, U>(s: FormState, register: Outcome<T>, login: Outcome<U>): (r: (seq<AuthCall>, Option<string>))
    ensures s.isLogin ==> r.0 == [LoginCall(s.username, s.password)]
                          && (r.1.Some? <==> login.Failed?)
                          && (login.Failed? ==> r.1 == Some(login.message))
    ensures !s.isLogin && SignUpError(s.password, s.confirmPassword).Some? ==>
              r == ([], SignUpError(s.password, s.confirmPassword))
    ensures !s.isLogin && SignUpError(s.password, s.confirmPassword).None? ==>
              && |r.0| >= 1 && r.0[0] == RegisterCall(s.username, s.password, s.email)
              && (register.Failed? ==> r == ([r.0[0]], Some(register.message)))
              && (register.Done? ==> r.0 == [r.0[0], LoginCall(s.username, s.password)]
                                     && r.1 == (if login.Failed? then Some(login.message) else None))
  {
    if s.isLogin then
      ([LoginCall(s.username, s.password)], if login.Failed? then Some(login.message) else None)
    else
      match SignUpError(s.password, s.confirmPassword)
      case Some(e) => ([], Some(e))
      case None =>
        var reg := RegisterCall(s.username, s.password, s.email);
        if register.Failed? then ([reg], Some(register.message))
        else ([reg, LoginCall(s.username, s.password)], if login.Failed? then Some(login.message) else None)
  }

  /** `handleSubmit`: Begin, run the attempt, show a thrown message, and release loading in the
      `finally` clause. Returns the new state and the calls made. */
  function SubmitStep<T, U>(s: FormState, register: Outcome<T>, login: Outcome<U>): (r: (FormState, seq<AuthCall>))
    ensures !r.0.loading && r.0.success == ""
    ensures r.0.error == match SubmitAttempt(s, register, login).1 case Some(m) => ShownError(m) case None => ""
    ensures r.0.(loading := s.loading, error := s.error, success := s.success) == s
    ensures r.1 == SubmitAttempt(s, register, login).0
  {
    var p := Begin(s);
    var (calls, thrown) := SubmitAttempt(p, register, login);
    var shown := match thrown case Some(m) => ShownError(m) case None => p.error;
    (p.(error := shown, loading := false), calls)
  }

  /** `handleForgotPassword`: Begin, request the reset for the current email, and on success
      show the confirmation and clear the email; on failure show the message. */
  function ForgotPasswordStep<T>(s: FormState, reset: Outcome<T>): (r: FormState)
    ensures !r.loading
    ensures reset.Done? ==> r.success == ResetSent && r.email == "" && r.error == ""
    ensures reset.Failed? ==> r.error == OrElse(reset.message, ResetRequestFailed)
                              && r.success == "" && r.email == s.email
    ensures r.(loading := s.loading, error := s.error, success := s.success, email := s.email) == s
  {
    var p := Begin(s);
    match reset
    case Done(_) => p.(success := ResetSent, email := "", loading := false)
    case Failed(m) => p.(error := OrElse(m, ResetRequestFailed), loading := false)
  }

  /** The 3-second timer the reset success schedules, as a separate step: back to the login
      view with the confirmation cleared. */
  function ResetTimerStep(s: FormState): (r: FormState)
    ensures !r.showForgotPassword && r.success == ""
    ensures r.(showForgotPassword := s.showForgotPassword, success := s.success) == s
  {
    s.(showForgotPassword := false, success := "")
  }

  /** The mode toggle: flip login/sign-up and clear the messages and both password fields;
      username and email are kept. */
  function ToggleModeStep(s: FormState): (r: FormState)
    ensures r.isLogin == !s.isLogin
    ensures r.error == "" && r.success == "" && r.password == "" && r.confirmPassword == ""
    ensures r.username == s.username && r.email == s.email
    ensures r.showForgotPassword == s.showForgotPassword && r.loading == s.loading
  {
    s.(isLogin := !s.isLogin, error := "", success := "", password := "", confirmPassword := "")
  }

  /** "Back to Login": leave the reset view and clear the messages. */
  function BackToLoginStep(s: FormState): (r: FormState)
    ensures !r.showForgotPassword && r.error == "" && r.success == ""
    ensures r.(showForgotPassword := s.showForgotPassword, error := s.error, success := s.success) == s
  {
    s.(showForgotPassword := false, error := "", success := "")
  }

  // ---------------------------------------------------------------------------------------
  // Properties

  /** A mismatch is reported before the length check, and then nothing is called. */
  lemma MismatchCheckedFirst<T, U>(s: FormState, register: Outcome<T>, login: Outcome<U>)
    requires !s.isLogin && s.password != s.confirmPassword && Utf16Length(s.password) < MinPasswordLength
    ensures SubmitStep(s, register, login).0.error == PasswordsDoNotMatch
    ensures SubmitStep(s, register, login).1 == []
  {
  }

  /** A valid sign-up whose registration succeeds registers and then logs in with the same
      username and password; the shown error is the login's, if any. */
  lemma ValidSignUpRegistersThenLogsIn<T, U>(s: FormState, register: Outcome<T>, login: Outcome<U>)
    requires !s.isLogin && s.password == s.confirmPassword && Utf16Length(s.password) >= MinPasswordLength
    requires register.Done?
    ensures var (r, calls) := SubmitStep(s, register, login);
            && calls == [RegisterCall(s.username, s.password, s.email), LoginCall(s.username, s.password)]
            && (login.Done? ==> r.error == "")
            && (login.Failed? ==> r.error == ShownError(login.message))
  {
  }

  /** Toggling twice restores the mode and keeps username and email, but the passwords stay
      cleared. */
  lemma ToggleTwice(s: FormState)
    ensures var r := ToggleModeStep(ToggleModeStep(s));
            r.isLogin == s.isLogin && r.username == s.username && r.email == s.email
            && r.password == "" && r.confirmPassword == ""
  {
  }

  /** Every submit, whatever the outcomes, ends with loading released. */
  lemma SubmitReleasesLoading<T, U>(s: FormState, register: Outcome<T>, login: Outcome<U>, reset: Outcome<T>)
    ensures !SubmitStep(s, register, login).0.loading
    ensures !ForgotPasswordStep(s, reset).loading
    ensures Begin(s).loading
  {
  }

  /** The form component. */
  class Form {
    var isLogin: bool
    var showForgotPassword: bool
    var email: string
    var username: string
    var password: string
    var confirmPassword: string
    var loading: bool
    var error: string
    var success: string

    function View(): FormState
      reads this
    {
      FormState(isLogin, showForgotPassword, email, username, password, confirmPassword, loading, error, success)
    }

    /** Initially in login mode, the reset view hidden, every field empty, not loading. */
    constructor ()
      ensures View() == FormState(true, false, "", "", "", "", false, "", "")
    {
      isLogin := true;
      showForgotPassword := false;
      email, username, password, confirmPassword := "", "", "", "";
      loading := false;
      error, success := "", "";
    }

    method HandleSubmit<T, U>(register: Outcome<T>, login: Outcome<U>) returns (calls: seq<AuthCall>)
      modifies this
      ensures (View(), calls) == SubmitStep(old(View()), register, login)
    {
      error := "";
      success := "";
      loading := true;
      ghost var begun := View();
      assert begun == Begin(old(View()));
      var thrown: Option<string> := None;
      calls := [];
      if isLogin {
        calls := [LoginCall(username, password)];
        if login.Failed? { thrown := Some(login.message); }
      } else if password != confirmPassword {
        thrown := Some(PasswordsDoNotMatch);
      } else if Utf16Length(password) < MinPasswordLength {
        thrown := Some(PasswordTooShort);
      } else {
        calls := [RegisterCall(username, password, email)];
        if register.Failed? {
          thrown := Some(register.message);
        } else {
          calls := [RegisterCall(username, password, email), LoginCall(username, password)];
          if login.Failed? { thrown := Some(login.message); }
        }
      }
      assert (calls, thrown) == SubmitAttempt(begun, register, login);
      if thrown.Some? {
        error := OrElse(thrown.value, AuthenticationFailed);
      }
      loading := false;
    }

    /** Returns the call made: a reset request for the email as it was on submit. */
    method HandleForgotPassword<T>(reset: Outcome<T>) returns (call: AuthCall)
      modifies this
      ensures View() == ForgotPasswordStep(old(View()), reset)
      ensures call == ResetCall(old(email))
    {
      error := "";
      success := "";
      loading := true;
      call := ResetCall(email);
      match reset {
        case Done(_) =>
          success := ResetSent;
          email := "";
        case Failed(m) =>
          error := OrElse(m, ResetRequestFailed);
      }
      loading := false;
    }

    method ResetTimerFires()
      modifies this
      ensures View() == ResetTimerStep(old(View()))
    {
      showForgotPassword := false;
      success := "";
    }

    method ToggleMode()
      modifies this
      ensures View() == ToggleModeStep(old(View()))
    {
      isLogin := !isLogin;
      error := "";
      success := "";
      password := "";
      confirmPassword := "";
    }

    method BackToLogin()
      modifies this
      ensures View() == BackToLoginStep(old(View()))
    {
      showForgotPassword := false;
      error := "";
      success := "";
    }

    /** "Forgot your password?": show the reset view. */
    method ShowForgotPassword()
      modifies this
      ensures View() == old(View()).(showForgotPassword := true)
    {
      showForgotPassword := true;
    }
  }
}
