// The authentication provider: the `AuthState` record, the `user` entry of
// browser storage, and the five operations that rewrite them.
module AuthContext {
  import opened Seqs
  import opened Text
  import opened MockData

  /** `AuthState`; `error` is `null` or a message. */
  datatype AuthState = AuthState(user: Option<User>, isAuthenticated: bool, isLoading: bool, error: Option<string>)

  /** The provider's state together with the user record kept in storage. */
  datatype Session = Session(auth: AuthState, stored: Option<User>)

  /** `Partial<User>`: each field is either supplied or left out. */
  datatype UserPatch = UserPatch(
    id: Option<string>, name: Option<string>, email: Option<string>, phone: Option<string>,
    role: Option<Role>, avatar: Option<string>, createdAt: Option<int>)

  const SignedOut: AuthState := AuthState(None, false, false, None)

  /** The state the provider is created with, before the storage effect runs. */
  const InitialAuth: AuthState := AuthState(None, false, true, None)

  /** Exactly the states in which a user is present are authenticated. */
  predicate Consistent(a: AuthState)
  {
    a.isAuthenticated <==> a.user.Some?
  }

  /** Reloading the page would restore the same user: storage holds exactly the signed-in user. */
  predicate Persisted(s: Session)
  {
    s.stored == s.auth.user
  }

  function Pick<T>(supplied: Option<T>, current: T): T
  {
    if supplied.Some? then supplied.value else current
  }

  /** `{ ...user, ...patch }`: the supplied fields replace the user's, the others stay. */
  function Overlay(u: User, patch: UserPatch): (r: User)
    ensures patch.id.Some? ==> r.id == patch.id.value
    ensures patch.id.None? ==> r.id == u.id
    ensures patch.name.Some? ==> r.name == patch.name.value
    ensures patch.name.None? ==> r.name == u.name
    ensures patch.email.Some? ==> r.email == patch.email.value
    ensures patch.email.None? ==> r.email == u.email
    ensures patch.phone.Some? ==> r.phone == patch.phone.value
    ensures patch.phone.None? ==> r.phone == u.phone
    ensures patch.role.Some? ==> r.role == patch.role.value
    ensures patch.role.None? ==> r.role == u.role
    ensures patch.avatar.Some? ==> r.avatar == patch.avatar
    ensures patch.avatar.None? ==> r.avatar == u.avatar
    ensures patch.createdAt.Some? ==> r.createdAt == patch.createdAt.value
    ensures patch.createdAt.None? ==> r.createdAt == u.createdAt
  {
    User(Pick(patch.id, u.id), Pick(patch.name, u.name), Pick(patch.email, u.email), Pick(patch.phone, u.phone),
         Pick(patch.role, u.role), if patch.avatar.Some? then patch.avatar else u.avatar,
         Pick(patch.createdAt, u.createdAt))
  }

  /** The user `register` creates at `now` (milliseconds): id `user-<now>`, role user, no avatar. */
  function NewUser(name: string, email: string, phone: string, now: nat): (r: User)
    ensures r.name == name && r.email == email && r.phone == phone
    ensures r.role == UserRole && r.avatar.None? && r.createdAt == now
    ensures |r.id| > 5 && r.id[..5] == "user-" && AllDigits(r.id[5..])
  {
    User("user-" + NatToString(now), name, email, phone, UserRole, None, now)
  }

  // ----- the operations, each as one step -----

  /** The mount effect: a readable record signs its user in, an unreadable one is removed with an
      error, and with nothing stored only `isLoading` changes. */
  function Startup(s: Session, parseFails: bool): (r: Session)
    ensures s.stored.None? ==> r == Session(s.auth.(isLoading := false), None)
    ensures s.stored.Some? && !parseFails ==> r.auth == AuthState(s.stored, true, false, None) && r.stored == s.stored
    ensures s.stored.Some? && parseFails ==>
              r == Session(AuthState(None, false, false, Some("Invalid stored user data")), None)
  {
    if s.stored.Some? then
      if parseFails then Session(AuthState(None, false, false, Some("Invalid stored user data")), None)
      else Session(AuthState(s.stored, true, false, None), s.stored)
    else Session(s.auth.(isLoading := false), s.stored)
  }

  /** `login`; `storageThrows` says whether writing the record to storage fails. */
  function LoginStep(s: Session, email: string, password: string, storageThrows: bool): (r: Session)
    ensures Consistent(r.auth) && !r.auth.isLoading
    ensures r.auth.user.Some? <==> GetUserByCredentials(email, password).Some? && !storageThrows
    ensures r.auth.user.Some? ==> Persisted(r) && r.auth.error.None?
    ensures r.auth.user.None? ==> r.stored == s.stored && r.auth.error.Some?
  {
    var found := GetUserByCredentials(email, password);
    if found.Some? then
      if storageThrows then Session(AuthState(None, false, false, Some("An error occurred during login")), s.stored)
      else Session(AuthState(found, true, false, None), found)
    else Session(AuthState(None, false, false, Some("Invalid email or password")), s.stored)
  }

  /** `register`, at time `now`. */
  function RegisterStep(s: Session, name: string, email: string, phone: string, password: string,
                    now: nat, storageThrows: bool): (r: Session)
    ensures Consistent(r.auth) && !r.auth.isLoading
    ensures r.auth.user.Some? <==> !storageThrows
    ensures r.auth.user.Some? ==> Persisted(r) && r.auth.error.None? && r.auth.user.value.role == UserRole
    ensures r.auth.user.None? ==> r.stored == s.stored && r.auth.error.Some?
  {
    if storageThrows then
      Session(AuthState(None, false, false, Some("An error occurred during registration")), s.stored)
    else
      var u := NewUser(name, email, phone, now);
      Session(AuthState(Some(u), true, false, None), Some(u))
  }

  function LogoutStep(s: Session): (r: Session)
    ensures Persisted(r) && Consistent(r.auth)
    ensures r.auth.user.None? && r.stored.None? && !r.auth.isLoading && r.auth.error.None?
  {
    Session(SignedOut, None)
  }

  /** `updateProfile`: with a user, the overlaid user is stored and shown; without one, only the
      loading flag and the error of the first state update remain. */
  function UpdateProfileStep(s: Session, patch: UserPatch, storageThrows: bool): (r: Session)
    ensures r.stored == s.stored || (s.auth.user.Some? && !storageThrows)
    ensures r.auth.user.Some? <==> s.auth.user.Some?
    ensures s.auth.user.Some? && !storageThrows ==> Persisted(r) && Consistent(r.auth) && r.auth.error.None?
    ensures s.auth.user.None? ==> r.auth.isLoading && r.auth.error.None?
  {
    var pending := s.auth.(isLoading := true, error := None);
    if s.auth.user.None? then Session(pending, s.stored)
    else if storageThrows then
      Session(pending.(isLoading := false, error := Some("An error occurred while updating profile")), s.stored)
    else
      var u := Overlay(s.auth.user.value, patch);
      Session(AuthState(Some(u), true, false, None), Some(u))
  }

  /** The provider component. Every operation runs to completion before the next starts. */
  class AuthProvider {
    var auth: AuthState
    var stored: Option<User>

    function Current(): Session
      reads this
    {
      Session(auth, stored)
    }

    constructor (stored: Option<User>)
      ensures auth == InitialAuth && this.stored == stored
    {
      auth := InitialAuth;
      this.stored := stored;
    }

    method LoadStored(parseFails: bool)
      modifies this
      ensures Current() == Startup(old(Current()), parseFails)
    {
      if stored.Some? {
        if parseFails {
          stored := None;
          auth := AuthState(None, false, false, Some("Invalid stored user data"));
        } else {
          auth := AuthState(stored, true, false, None);
        }
      } else {
        auth := auth.(isLoading := false);
      }
    }

    method Login(email: string, password: string, storageThrows: bool)
      modifies this
      ensures Current() == LoginStep(old(Current()), email, password, storageThrows)
    {
      auth := auth.(isLoading := true, error := None);
      var user := GetUserByCredentials(email, password);
      if user.Some? {
        if storageThrows {
          auth := AuthState(None, false, false, Some("An error occurred during login"));
          return;
        }
        stored := user;
        auth := AuthState(user, true, false, None);
      } else {
        auth := AuthState(None, false, false, Some("Invalid email or password"));
      }
    }

    method Register(name: string, email: string, phone: string, password: string, now: nat, storageThrows: bool)
      modifies this
      ensures Current() == RegisterStep(old(Current()), name, email, phone, password, now, storageThrows)
    {
      auth := auth.(isLoading := true, error := None);
      var newUser := User("user-" + NatToString(now), name, email, phone, UserRole, None, now);
      if storageThrows {
        auth := AuthState(None, false, false, Some("An error occurred during registration"));
        return;
      }
      stored := Some(newUser);
      auth := AuthState(Some(newUser), true, false, None);
    }

    method Logout()
      modifies this
      ensures Current() == LogoutStep(old(Current()))
    {
      stored := None;
      auth := AuthState(None, false, false, None);
    }

    method UpdateProfile(patch: UserPatch, storageThrows: bool)
      modifies this
      ensures Current() == UpdateProfileStep(old(Current()), patch, storageThrows)
    {
      auth := auth.(isLoading := true, error := None);
      if auth.user.Some? {
        if storageThrows {
          auth := auth.(isLoading := false, error := Some("An error occurred while updating profile"));
          return;
        }
        var updatedUser := Overlay(auth.user.value, patch);
        stored := Some(updatedUser);
        auth := AuthState(Some(updatedUser), true, false, None);
      }
    }
  }

  // ----- lemmas -----

  /** Every operation keeps `isAuthenticated` in step with the presence of a user. */
  lemma OperationsKeepConsistent(s: Session, parseFails: bool, email: string, password: string, name: string,
                                 phone: string, now: nat, patch: UserPatch, storageThrows: bool)
    requires Consistent(s.auth)
    ensures Consistent(InitialAuth)
    ensures Consistent(Startup(s, parseFails).auth)
    ensures Consistent(LoginStep(s, email, password, storageThrows).auth)
    ensures Consistent(RegisterStep(s, name, email, phone, password, now, storageThrows).auth)
    ensures Consistent(LogoutStep(s).auth)
    ensures Consistent(UpdateProfileStep(s, patch, storageThrows).auth)
  {
  }

  /** A successful login shows and stores the looked-up user, with no error; a failed one shows no user
      and the credentials message, and leaves storage alone. */
  lemma LoginOutcome(s: Session, email: string, password: string)
    ensures var r := LoginStep(s, email, password, false);
            var found := GetUserByCredentials(email, password);
            (found.Some? ==> r.auth == AuthState(found, true, false, None) && r.stored == found && Persisted(r)) &&
            (found.None? ==> r.auth == AuthState(None, false, false, Some("Invalid email or password")) &&
                             r.stored == s.stored)
  {
  }

  /** With the seeded users only the admin pair signs in; the john@example.com pair always fails. */
  lemma SeededLogins(s: Session)
    ensures LoginStep(s, "admin@example.com", "admin123", false).auth.user == Some(Users[2])
    ensures LoginStep(s, "john@example.com", "password123", false).auth.error == Some("Invalid email or password")
  {
    CredentialsAcceptOnlyAdmin("admin@example.com", "admin123");
    CredentialsAcceptOnlyAdmin("john@example.com", "password123");
  }

  /** A failed login leaves the previous user's record in storage, so a reload signs that user back in. */
  lemma FailedLoginThenReload(u: User, a: AuthState, email: string, password: string)
    requires GetUserByCredentials(email, password).None?
    ensures Startup(Session(InitialAuth, LoginStep(Session(a, Some(u)), email, password, false).stored), false).auth.user
            == Some(u)
  {
  }

  /** Registering always signs in a fresh user with the given name, email and phone and role user, and stores it. */
  lemma RegisterOutcome(s: Session, name: string, email: string, phone: string, password: string, now: nat)
    ensures var r := RegisterStep(s, name, email, phone, password, now, false);
            r.auth.isAuthenticated && r.auth.error.None? && Persisted(r) &&
            r.auth.user.Some? && r.auth.user.value.name == name && r.auth.user.value.email == email &&
            r.auth.user.value.phone == phone && r.auth.user.value.role == UserRole
  {
  }

  /** Users registered at different times get different ids. */
  lemma RegisteredIdsDiffer(name: string, email: string, phone: string, t1: nat, t2: nat)
    requires t1 != t2
    ensures NewUser(name, email, phone, t1).id != NewUser(name, email, phone, t2).id
  {
    var p1, p2 := "user-" + NatToString(t1), "user-" + NatToString(t2);
    if p1 == p2 {
      assert NatToString(t1) == p1[5..] && NatToString(t2) == p2[5..];
      NatToStringValue(t1);
      NatToStringValue(t2);
    }
  }

  /** Logging out from any state clears storage and signs out without error. */
  lemma LogoutOutcome(s: Session)
    ensures LogoutStep(s).stored.None? && LogoutStep(s).auth == SignedOut
  {
  }

  /** With a user, the profile update overlays exactly the supplied fields and stores the result; without
      one, only `isLoading` (now true, and left so) and `error` (cleared) change. */
  lemma UpdateProfileOutcome(s: Session, patch: UserPatch)
    ensures var r := UpdateProfileStep(s, patch, false);
            (s.auth.user.Some? ==> r.auth.user == Some(Overlay(s.auth.user.value, patch)) && Persisted(r) &&
                                   r.auth.isAuthenticated && !r.auth.isLoading && r.auth.error.None?) &&
            (s.auth.user.None? ==> r == Session(s.auth.(isLoading := true, error := None), s.stored))
  {
  }

  /** An empty patch leaves the user as it was. */
  lemma EmptyPatchKeepsUser(u: User)
    ensures Overlay(u, UserPatch(None, None, None, None, None, None, None)) == u
  {
  }

  /** A reload right after a successful login, registration or profile update restores the same user. */
  lemma ReloadRestores(s: Session)
    requires Persisted(s) && s.auth.user.Some?
    ensures Startup(Session(InitialAuth, s.stored), false).auth == AuthState(s.auth.user, true, false, None)
  {
  }

  /** Startup from a fresh provider: the three outcomes. */
  lemma StartupOutcomes(stored: Option<User>, parseFails: bool)
    ensures var r := Startup(Session(InitialAuth, stored), parseFails);
            Consistent(r.auth) && !r.auth.isLoading &&
            (stored.None? ==> r.auth == SignedOut && r.stored.None?) &&
            (stored.Some? && !parseFails ==> r.auth.isAuthenticated && r.auth.user == stored) &&
            (stored.Some? && parseFails ==> r.stored.None? && r.auth.error == Some("Invalid stored user data"))
  {
  }
}
