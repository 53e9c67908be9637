/** The "My Profile" page: it loads the profile into a form, lets the
    display name and phone be edited, saves them (never the role) and then
    refreshes the session's profile. Each awaited call is a parameter
    holding its outcome. */
module ProfilePage {
  import opened Outcomes
  import opened Text
  import opened UserService
  import opened ApiClient
  import opened AuthSession
  import Portals

  /** The form's fields; the role is shown but not editable. */
  datatype ProfileForm = ProfileForm(displayName: string, phone: string, role: string)

  /** The inputs of the form. */
  datatype ProfileField = DisplayNameInput | PhoneInput

  const InitialForm := ProfileForm("", "", "Parent")
  const LoadFailurePrefix := "Failed to load profile. "
  const UpdateFailurePrefix := "Failed to update profile. "
  const SavedMessage := "Profile updated successfully!"
  const LogoutFailure := "Failed to log out"
  /** The TypeError `data.user.displayName` throws on a body without a user. */
  const UndefinedDisplayNameMessage := "Cannot read properties of undefined (reading 'displayName')"

  /** The form filled from the profile the service sent. */
  function FormOf(user: UserView): (f: ProfileForm)
    ensures f.displayName == user.displayName && f.phone == user.phone
    ensures user.role != "" ==> f.role == user.role
    ensures user.role == "" ==> f.role == "Parent"
  {
    ProfileForm(OrElse(user.displayName, ""), OrElse(user.phone, ""), OrElse(user.role, "Parent"))
  }

  /** The body the Save button sends: display name and phone, no role. */
  function SavePayload(f: ProfileForm): (b: ProfileBody)
    ensures b.role.None?
    ensures b.displayName == Some(f.displayName) && b.phone == Some(f.phone)
  {
    ProfileBody(Some(f.displayName), Some(f.phone), None)
  }

  /** Saving the form can never change the stored role, whatever the role
      the form shows, and the saved record carries the form's name and
      phone. */
  lemma SaveKeepsStoredRole(t: Table, uid: string, f: ProfileForm, stamp: string, fault: StoreFault)
    requires uid in t
    ensures var s := PutProfile(t, uid, SavePayload(f), stamp, fault);
      && uid in s.table
      && s.table[uid].fields.role == t[uid].fields.role
      && (s.response.status == 200 ==>
            s.table[uid].fields.displayName == Some(f.displayName) && s.table[uid].fields.phone == Some(f.phone))
  {
    PutProfileWithoutRole(t, uid, SavePayload(f), stamp, fault);
  }

  /** On a healthy store the save of an existing profile is accepted. */
  lemma SaveAccepted(t: Table, uid: string, f: ProfileForm, stamp: string)
    requires uid in t
    ensures PutProfile(t, uid, SavePayload(f), stamp, Healthy).response.status == 200
  {
  }

  class ProfilePageState {
    var loading: bool
    var saving: bool
    var error: string
    var success: string
    var formData: ProfileForm

    constructor ()
      ensures !loading && !saving && error == "" && success == "" && formData == InitialForm
    {
      loading, saving, error, success, formData := false, false, "", "", InitialForm;
    }

    /** `loadProfile()` (also the Reset button): `fetched` is what
        `getProfile()` did. */
    method LoadProfile(fetched: Outcome<Body>)
      modifies this
      ensures !loading && saving == old(saving) && success == old(success)
      ensures fetched.Done? && fetched.value.UserBody? ==>
        formData == FormOf(fetched.value.user) && error == ""
      ensures fetched.Done? && fetched.value.ErrorBody? ==>
        formData == old(formData) && error == LoadFailurePrefix + UndefinedDisplayNameMessage
      ensures fetched.Threw? ==>
        formData == old(formData) && error == LoadFailurePrefix + fetched.err.message
    {
      loading := true;
      error := "";
      match fetched {
        case Done(data) =>
          if data.UserBody? {
            formData := FormOf(data.user);
          } else {
            error := LoadFailurePrefix + UndefinedDisplayNameMessage;
          }
        case Threw(err) =>
          error := LoadFailurePrefix + err.message;
      }
      loading := false;
    }

    /** The page's effect: a signed-out visitor, once the session check is
        over, goes to the login page; otherwise, even while the session
        check is still under way, the profile is loaded. */
    method AuthEffect(s: Session, fetched: Outcome<Body>) returns (nav: Option<Portals.Route>, loaded: bool)
      modifies this
      ensures nav.Some? <==> !s.loading && s.currentUser.None?
      ensures nav.Some? ==> nav.value == Portals.LoginRoute
      ensures loaded <==> nav.None?
      ensures !loaded ==> formData == old(formData) && error == old(error) && loading == old(loading)
      ensures loaded && fetched.Done? && fetched.value.UserBody? ==>
        formData == FormOf(fetched.value.user) && error == ""
      ensures loaded && fetched.Threw? ==>
        formData == old(formData) && error == LoadFailurePrefix + fetched.err.message
      ensures saving == old(saving) && success == old(success)
    {
      if !s.loading && s.currentUser.None? {
        return Some(Portals.LoginRoute), false;
      }
      nav, loaded := None, true;
      LoadProfile(fetched);
    }

    /** A change in one of the inputs. */
    method HandleInputChange(field: ProfileField, value: string)
      modifies this
      ensures field == DisplayNameInput ==> formData == old(formData).(displayName := value)
      ensures field == PhoneInput ==> formData == old(formData).(phone := value)
      ensures error == old(error) && success == old(success) && saving == old(saving)
    {
      match field {
        case DisplayNameInput => formData := formData.(displayName := value);
        case PhoneInput => formData := formData.(phone := value);
      }
    }

    /** The Save button: `updated` is what `updateProfile` did with the
        returned payload, and `refreshed` what the session's profile
        refresh did (it never throws). */
    method HandleSubmit(auth: AuthProvider, updated: Outcome<Body>, refreshed: Outcome<Body>)
      returns (payload: ProfileBody, refreshRequested: bool)
      modifies this, auth
      ensures payload == SavePayload(old(formData)) && payload.role.None?
      ensures refreshRequested == updated.Done?
      ensures updated.Done? ==> success == SavedMessage && error == ""
      ensures updated.Threw? ==> success == "" && error == UpdateFailurePrefix + updated.err.message
      ensures !saving && formData == old(formData) && loading == old(loading)
      ensures updated.Done? && refreshed.Done? ==>
        auth.userProfile == UserOf(refreshed.value) && auth.error == old(auth.error)
      ensures updated.Done? && refreshed.Threw? ==>
        auth.userProfile == old(auth.userProfile) && auth.error == Some(refreshed.err.message)
      ensures updated.Threw? ==> auth.userProfile == old(auth.userProfile) && auth.error == old(auth.error)
      ensures auth.currentUser == old(auth.currentUser) && auth.loading == old(auth.loading)
    {
      saving := true;
      error := "";
      success := "";
      payload := SavePayload(formData);
      refreshRequested := updated.Done?;
      if updated.Done? {
        var _ := auth.FetchUserProfile(refreshed);
        success := SavedMessage;
      } else {
        error := UpdateFailurePrefix + updated.err.message;
      }
      saving := false;
    }

    /** The three-second timer a successful save starts. */
    method SuccessTimerFired()
      modifies this
      ensures success == "" && error == old(error) && formData == old(formData) && saving == old(saving)
    {
      success := "";
    }

    /** The Logout button: success goes to the login page; failure shows
        "Failed to log out". */
    method HandleLogout(auth: AuthProvider, attempt: Outcome<()>) returns (nav: Option<Portals.Route>)
      modifies this, auth
      ensures nav == (if attempt.Done? then Some(Portals.LoginRoute) else None)
      ensures error == (if attempt.Done? then old(error) else LogoutFailure)
      ensures auth.userProfile == (if attempt.Done? then None else old(auth.userProfile))
      ensures auth.error == (if attempt.Done? then None else Some(attempt.err.message))
      ensures auth.currentUser == old(auth.currentUser) && auth.loading == old(auth.loading)
      ensures success == old(success) && formData == old(formData) && saving == old(saving)
    {
      var r := auth.Logout(attempt);
      if r.Done? {
        nav := Some(Portals.LoginRoute);
      } else {
        nav := None;
        error := LogoutFailure;
      }
    }
  }

  /** A load that runs while the session check is still under way and
      nobody is signed in yet goes out without a token; the service refuses
      it, and the page shows the service's reason. */
  lemma EarlyLoadIsRefused(t: Table, verify: string -> Option<Identity>, fault: StoreFault)
    ensures Settle(Answered(GetProfileRoute(t, AuthorizationOf(map[]), verify, fault)))
      == Threw(JsError(None, NoTokenMessage))
  {
    SignedOutRequestRejected(map[], verify, t, fault);
  }

  /** Loading the profile of a signed-in user whose row exists fills the
      form with that row's name and phone. */
  lemma LoadShowsStoredProfile(t: Table, token: string, verify: string -> Option<Identity>)
    requires !Contains(token, BearerPrefix) && verify(token).Some? && verify(token).value.uid in t
    ensures var got := Settle(Answered(GetProfileRoute(t, Some(BearerHeader(token)), verify, Healthy)));
      && got.Done? && got.value.UserBody?
      && FormOf(got.value.user).displayName == t[verify(token).value.uid].fields.displayName.GetOr("")
      && FormOf(got.value.user).phone == t[verify(token).value.uid].fields.phone.GetOr("")
  {
    InterceptedTokenReachesVerifier(token, verify);
  }
}
