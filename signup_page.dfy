/** The sign-up page: the password checks done before anything is sent,
    the messages for the identity provider's error codes, and the
    navigation after a successful sign-up. The provider's answers are
    parameters holding their outcomes. */
module SignupPage {
  import opened Outcomes
  import opened Text
  import opened AuthSession
  import Portals

  const MismatchMessage := "Passwords do not match"
  const ShortPasswordMessage := "Password must be at least 6 characters"
  const MinPasswordLength := 6
  const LoginLinkMarker := "already exists"
  const EmailInUseMessage := "An account with this email " + LoginLinkMarker + ". Please log in instead."
  const InvalidEmailMessage := "Invalid email address format."
  const WeakPasswordMessage := "Password is too weak. " + "Please use a stronger password."
  const GenericFailurePrefix := "Failed to create an account. "
  const GoogleFailureMessage := "Failed to sign up with Google."

  /** The checks before `signup` is called: the passwords must match, then
      the password must be at least 6 UTF-16 units long. */
  function SignupCheck(password: string, confirmPassword: string): (r: Option<string>)
    ensures password != confirmPassword ==> r == Some(MismatchMessage)
    ensures password == confirmPassword && Utf16Length(password) < MinPasswordLength ==>
      r == Some(ShortPasswordMessage)
    ensures r.None? <==> password == confirmPassword && Utf16Length(password) >= MinPasswordLength
  {
    if password != confirmPassword then Some(MismatchMessage)
    else if Utf16Length(password) < MinPasswordLength then Some(ShortPasswordMessage)
    else None
  }

  /** Six characters are enough; five plain ones are not. */
  lemma SignupCheckBoundary(password: string)
    requires forall i :: 0 <= i < |password| ==> password[i] as int < 0x10000
    ensures |password| == 6 ==> SignupCheck(password, password).None?
    ensures |password| == 5 ==> SignupCheck(password, password) == Some(ShortPasswordMessage)
  {
    Utf16LengthOfBmp(password);
  }

  /** The message shown for a failed `signup`. */
  function SignupErrorMessage(err: JsError): (m: string)
    ensures err.code == Some("auth/email-already-in-use") ==> m == EmailInUseMessage
    ensures err.code == Some("auth/invalid-email") ==> m == InvalidEmailMessage
    ensures err.code == Some("auth/weak-password") ==> m == WeakPasswordMessage
    ensures err.code !in {Some("auth/email-already-in-use"), Some("auth/invalid-email"), Some("auth/weak-password")} ==>
      m == GenericFailurePrefix + OrElse(err.message, "Please try again.")
  {
    if err.code == Some("auth/email-already-in-use") then EmailInUseMessage
    else if err.code == Some("auth/invalid-email") then InvalidEmailMessage
    else if err.code == Some("auth/weak-password") then WeakPasswordMessage
    else GenericFailurePrefix + OrElse(err.message, "Please try again.")
  }

  /** The error box offers "Go to Login" when its text includes
      "already exists". */
  predicate ShowsLoginLink(error: string) {
    Contains(error, LoginLinkMarker)
  }

  /** An e-mail already in use offers the login link. */
  lemma EmailInUseShowsLoginLink(err: JsError)
    requires err.code == Some("auth/email-already-in-use")
    ensures ShowsLoginLink(SignupErrorMessage(err))
  {
    ContainsSuffix("An account with this email ", LoginLinkMarker);
    ContainsExtend("An account with this email " + LoginLinkMarker, LoginLinkMarker, ". Please log in instead.");
  }

  /** Any text holding "already exists" holds a 'y'. */
  lemma MarkerNeedsY(s: string)
    ensures ShowsLoginLink(s) ==> 'y' in s
  {
    if ShowsLoginLink(s) {
      var i :| 0 <= i <= |s| && OccursAt(s, LoginLinkMarker, i);
      assert LoginLinkMarker[6] == 'y';
      assert s[i..i + |LoginLinkMarker|][6] == 'y';
      assert s[i + 6] == 'y';
    }
  }

  /** The invalid-email and weak-password messages offer no login link. */
  lemma OtherCodesShowNoLoginLink(err: JsError)
    requires err.code == Some("auth/invalid-email") || err.code == Some("auth/weak-password")
    ensures !ShowsLoginLink(SignupErrorMessage(err))
  {
    var m := SignupErrorMessage(err);
    if err.code == Some("auth/invalid-email") {
      InvalidEmailLacksY();
    } else {
      WeakPasswordLacksY();
    }
    MarkerNeedsY(m);
  }

  lemma InvalidEmailLacksY()
    ensures 'y' !in InvalidEmailMessage
  {
  }

  lemma WeakPasswordLacksY()
    ensures 'y' !in WeakPasswordMessage
  {
    assert 'y' !in "Password is too weak. ";
    assert 'y' !in "Please use a stronger password.";
  }

  datatype SignupField = EmailField | PasswordField | ConfirmField

  class SignupPageState {
    var email: string
    var password: string
    var confirmPassword: string
    var loading: bool
    var error: string

    constructor ()
      ensures email == "" && password == "" && confirmPassword == "" && !loading && error == ""
    {
      email, password, confirmPassword, loading, error := "", "", "", false, "";
    }

    /** Typing in one of the inputs. */
    method Edit(field: SignupField, value: string)
      modifies this
      ensures field == EmailField ==> email == value && password == old(password) && confirmPassword == old(confirmPassword)
      ensures field == PasswordField ==> password == value && email == old(email) && confirmPassword == old(confirmPassword)
      ensures field == ConfirmField ==> confirmPassword == value && email == old(email) && password == old(password)
      ensures loading == old(loading) && error == old(error)
    {
      match field {
        case EmailField => email := value;
        case PasswordField => password := value;
        case ConfirmField => confirmPassword := value;
      }
    }

    /** The e-mail form: `attempt` is what the provider's sign-up did, used
        only when the checks pass. Success goes to the profile page. */
    method HandleEmailSignup(auth: AuthProvider, attempt: Outcome<AuthUser>)
      returns (requested: Option<(string, string)>, nav: Option<Portals.Route>)
      modifies this, auth
      ensures requested.None? <==> SignupCheck(password, confirmPassword).Some?
      ensures requested.None? ==>
        error == SignupCheck(password, confirmPassword).value && nav.None? && loading == old(loading)
        && auth.error == old(auth.error)
      ensures requested.Some? ==> requested.value == (email, password) && !loading
      ensures requested.Some? && attempt.Done? ==> nav == Some(Portals.ProfileRoute) && error == ""
      ensures requested.Some? && attempt.Threw? ==> nav.None? && error == SignupErrorMessage(attempt.err)
      ensures requested.Some? ==>
        auth.error == (if attempt.Threw? then Some(attempt.err.message) else None)
      ensures email == old(email) && password == old(password) && confirmPassword == old(confirmPassword)
      ensures auth.currentUser == old(auth.currentUser) && auth.userProfile == old(auth.userProfile)
      ensures auth.loading == old(auth.loading)
    {
      var check := SignupCheck(password, confirmPassword);
      if check.Some? {
        error := check.value;
        return None, None;
      }
      error := "";
      loading := true;
      requested := Some((email, password));
      var r := auth.Signup(attempt);
      if r.Done? {
        nav := Some(Portals.ProfileRoute);
      } else {
        nav := None;
        error := SignupErrorMessage(r.err);
      }
      loading := false;
    }

    /** The Google button: `attempt` is what the provider's popup did. */
    method HandleGoogleSignup(auth: AuthProvider, attempt: Outcome<AuthUser>) returns (nav: Option<Portals.Route>)
      modifies this, auth
      ensures attempt.Done? ==> nav == Some(Portals.ProfileRoute) && error == ""
      ensures attempt.Threw? ==> nav.None? && error == GoogleFailureMessage
      ensures auth.error == (if attempt.Threw? then Some(attempt.err.message) else None)
      ensures !loading && auth.loading == old(auth.loading)
      ensures email == old(email) && password == old(password) && confirmPassword == old(confirmPassword)
      ensures auth.currentUser == old(auth.currentUser) && auth.userProfile == old(auth.userProfile)
    {
      error := "";
      loading := true;
      var r := auth.SignInWithGoogle(attempt);
      if r.Done? {
        nav := Some(Portals.ProfileRoute);
      } else {
        nav := None;
        error := GoogleFailureMessage;
      }
      loading := false;
    }
  }
}
