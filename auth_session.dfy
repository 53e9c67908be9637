/** The client's session context: who is signed in, their profile from the
    users service, whether the first auth event is still pending, and the
    last error. Every identity-provider call and every bootstrap request is
    a parameter holding its outcome; an auth event is a method call. */
module AuthSession {
  import opened Outcomes
  import opened UserService

  /** The identity provider's user object; only uid and email matter here. */
  datatype AuthUser = AuthUser(uid: string, email: Option<string>)

  /** What the context exposes to pages: `loading`, `currentUser` and
      `userProfile`. */
  datatype Session = Session(loading: bool, currentUser: Option<AuthUser>, userProfile: Option<UserView>)

  /** `data.user` of a bootstrap response; an error body has none. */
  function UserOf(data: Body): (u: Option<UserView>)
    ensures u.Some? <==> data.UserBody?
    ensures u.Some? ==> u.value == data.user
  {
    if data.UserBody? then Some(data.user) else None
  }

  class AuthProvider {
    var currentUser: Option<AuthUser>
    var userProfile: Option<UserView>
    var loading: bool
    var error: Option<string>

    constructor ()
      ensures currentUser == None && userProfile == None && loading && error == None
    {
      currentUser, userProfile, loading, error := None, None, true, None;
    }

    function Snapshot(): (s: Session)
      reads this
      ensures s.loading == loading && s.currentUser == currentUser && s.userProfile == userProfile
    {
      Session(loading, currentUser, userProfile)
    }

    /** `signup(email, password)`: `attempt` is what
        `createUserWithEmailAndPassword` did. The error is cleared first; a
        failure records its message and is rethrown. */
    method Signup(attempt: Outcome<AuthUser>) returns (r: Outcome<AuthUser>)
      modifies this
      ensures r == attempt
      ensures error == (if attempt.Threw? then Some(attempt.err.message) else None)
      ensures currentUser == old(currentUser) && userProfile == old(userProfile)
      ensures loading == old(loading)
    {
      error := None;
      if attempt.Threw? {
        error := Some(attempt.err.message);
      }
      r := attempt;
    }

    /** `login(email, password)`: `attempt` is what
        `signInWithEmailAndPassword` did. */
    method Login(attempt: Outcome<AuthUser>) returns (r: Outcome<AuthUser>)
      modifies this
      ensures r == attempt
      ensures error == (if attempt.Threw? then Some(attempt.err.message) else None)
      ensures currentUser == old(currentUser) && userProfile == old(userProfile)
      ensures loading == old(loading)
    {
      error := None;
      if attempt.Threw? {
        error := Some(attempt.err.message);
      }
      r := attempt;
    }

    /** `signInWithGoogle()`: `attempt` is what the sign-in popup did. */
    method SignInWithGoogle(attempt: Outcome<AuthUser>) returns (r: Outcome<AuthUser>)
      modifies this
      ensures r == attempt
      ensures error == (if attempt.Threw? then Some(attempt.err.message) else None)
      ensures currentUser == old(currentUser) && userProfile == old(userProfile)
      ensures loading == old(loading)
    {
      error := None;
      if attempt.Threw? {
        error := Some(attempt.err.message);
      }
      r := attempt;
    }

    /** `logout()`: `attempt` is what `signOut` did. Success clears the
        profile; failure keeps it, records the message and is rethrown. */
    method Logout(attempt: Outcome<()>) returns (r: Outcome<()>)
      modifies this
      ensures r == attempt
      ensures attempt.Done? ==> userProfile == None && error == None
      ensures attempt.Threw? ==> userProfile == old(userProfile) && error == Some(attempt.err.message)
      ensures currentUser == old(currentUser) && loading == old(loading)
    {
      error := None;
      if attempt.Done? {
        userProfile := None;
      } else {
        error := Some(attempt.err.message);
      }
      r := attempt;
    }

    /** `fetchUserProfile()`: `bootstrap` is what `bootstrapUser()` did. On
        success the profile becomes `data.user`, which is returned; on
        failure the profile stays, the message is recorded and nothing is
        rethrown (`undefined` is returned). */
    method FetchUserProfile(bootstrap: Outcome<Body>) returns (r: Option<UserView>)
      modifies this
      ensures bootstrap.Done? ==>
        userProfile == UserOf(bootstrap.value) && r == userProfile && error == old(error)
      ensures bootstrap.Threw? ==>
        userProfile == old(userProfile) && error == Some(bootstrap.err.message) && r == None
      ensures currentUser == old(currentUser) && loading == old(loading)
    {
      if bootstrap.Done? {
        userProfile := UserOf(bootstrap.value);
        r := userProfile;
      } else {
        error := Some(bootstrap.err.message);
        r := None;
      }
    }

    /** The `onAuthStateChanged` listener: `user` is the event's user and
        `bootstrap` what the profile fetch did (unused when `user` is null).
        Loading is over once the event has been handled. */
    method OnAuthStateChanged(user: Option<AuthUser>, bootstrap: Outcome<Body>)
      modifies this
      ensures currentUser == user && !loading
      ensures user.None? ==> userProfile == None && error == old(error)
      ensures user.Some? && bootstrap.Done? ==>
        userProfile == UserOf(bootstrap.value) && error == old(error)
      ensures user.Some? && bootstrap.Threw? ==>
        userProfile == old(userProfile) && error == Some(bootstrap.err.message)
    {
      currentUser := user;
      if user.Some? {
        var _ := FetchUserProfile(bootstrap);
      } else {
        userProfile := None;
      }
      loading := false;
    }
  }

  /** The session life cycle: starting from the initial state, an event for
      a user whose bootstrap succeeds ends loading with that user and
      profile; a successful logout and the sign-out event that follows clear
      both and leave no error, and loading never comes back. */
  method SessionLifeCycle(user: AuthUser, data: Body)
    returns (initial: Session, signedIn: Session, signedOut: Session, finalError: Option<string>)
    requires data.UserBody?
    ensures initial == Session(true, None, None)
    ensures signedIn == Session(false, Some(user), Some(data.user))
    ensures signedOut == Session(false, None, None) && finalError.None?
  {
    var auth := new AuthProvider();
    initial := auth.Snapshot();
    auth.OnAuthStateChanged(Some(user), Done(data));
    signedIn := auth.Snapshot();
    var _ := auth.Logout(Done(()));
    auth.OnAuthStateChanged(None, Done(data));
    signedOut := auth.Snapshot();
    finalError := auth.error;
  }
}
