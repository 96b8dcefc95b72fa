/**
 * The authentication provider: two state fields (`isAuthenticated`,
 * `currentUser`) over a fixed table of users and a fixed table of passwords.
 * `login` signs a user in when the e-mail is a known key and the password
 * matches, and otherwise raises "Invalid credentials" without touching the
 * state; `logout` resets both fields.
 */
module Auth {
  import opened Optional

  /** The three kinds of account. */
  datatype Role = Member | AdminPusat | AdminCabang

  datatype User = User(
    id: string,
    name: string,
    email: string,
    role: Role,
    branch: Option<string>,
    memberSince: string,
    profileImage: string)

  /** The user table, keyed by e-mail; every record's e-mail is its own key. */
  function DummyUsers(): (users: map<string, User>)
    ensures forall key :: key in users ==> users[key].email == key
    ensures users.Keys == DummyPasswords().Keys
  {
    map[
      "member@nu.or.id" := User("M001", "Ahmad Santoso", "member@nu.or.id", Member, None,
                                "2023-01-15", "https://example.com/profile1.jpg"),
      "admin.pusat@nu.or.id" := User("AP001", "Haji Muhammad", "admin.pusat@nu.or.id", AdminPusat, None,
                                     "2022-06-01", "https://example.com/profile2.jpg"),
      "admin.cabang@nu.or.id" := User("AC001", "Siti Aisyah", "admin.cabang@nu.or.id", AdminCabang,
                                      Some("Surabaya"), "2022-08-15", "https://example.com/profile3.jpg")
    ]
  }

  /** The password table, keyed by e-mail; no stored password is empty. */
  function DummyPasswords(): (passwords: map<string, string>)
    ensures |passwords.Keys| == 3
    ensures forall email :: email in passwords ==> passwords[email] != ""
  {
    map[
      "member@nu.or.id" := "member123",
      "admin.pusat@nu.or.id" := "adminpusat123",
      "admin.cabang@nu.or.id" := "admincabang123"
    ]
  }

  /** The e-mail is a known user and the password stored for it is the one given. */
  predicate ValidCredentials(email: string, password: string)
    ensures ValidCredentials(email, password) ==>
      password != "" && email in DummyUsers() && DummyUsers()[email].email == email
  {
    email in DummyUsers() && email in DummyPasswords() && DummyPasswords()[email] == password
  }

  /** The error `login` raises. */
  const InvalidCredentialsMessage: string := "Invalid credentials"

  /** The provider's two state fields as a value. */
  datatype AuthState = AuthState(isAuthenticated: bool, currentUser: Option<User>)

  /** The provider's initial state: signed out, no user. */
  const InitialState: AuthState := AuthState(false, None)

  /** The state after a `login` attempt, and the error it raised, if any. */
  datatype LoginOutcome = LoginOutcome(state: AuthState, error: Option<string>)

  /**
   * `login`: with valid credentials the user's record becomes the current user
   * and the state is authenticated; otherwise "Invalid credentials" is raised
   * and the state is left as it was.
   */
  function LoginStep(s: AuthState, email: string, password: string): (r: LoginOutcome)
    ensures r.error.None? <==> ValidCredentials(email, password)
    ensures r.error.None? ==>
      r.state.isAuthenticated && r.state.currentUser.Some? && r.state.currentUser.value.email == email
    ensures r.error.Some? ==> r.error.value == InvalidCredentialsMessage && r.state == s
  {
    if ValidCredentials(email, password) then
      LoginOutcome(AuthState(true, Some(DummyUsers()[email])), None)
    else
      LoginOutcome(s, Some(InvalidCredentialsMessage))
  }

  /** `logout`: whatever the state, it becomes signed out with no user. */
  function LogoutStep(s: AuthState): (r: AuthState)
    ensures !r.isAuthenticated && r.currentUser.None?
  {
    AuthState(false, None)
  }

  /** `userRole`: the current user's role, or none when nobody is signed in. */
  function RoleOf(u: Option<User>): (r: Option<Role>)
    ensures r.Some? <==> u.Some?
    ensures u.Some? ==> r.value == u.value.role
  {
    match u
    case Some(user) => Some(user.role)
    case None => None
  }

  /**
   * The invariant the provider keeps: it is authenticated exactly when a user is
   * present, and that user is one of the table's records.
   */
  predicate Consistent(s: AuthState) {
    (s.isAuthenticated <==> s.currentUser.Some?) &&
    (s.currentUser.Some? ==> s.currentUser.value in DummyUsers().Values)
  }

  /** One call a screen can make on the provider. */
  datatype Action = LoginAttempt(email: string, password: string) | LogoutCall

  /** The state after one action. */
  function Apply(s: AuthState, a: Action): AuthState {
    match a
    case LoginAttempt(email, password) => LoginStep(s, email, password).state
    case LogoutCall => LogoutStep(s)
  }

  /** The state after a sequence of actions, performed in order. */
  function Run(s: AuthState, actions: seq<Action>): AuthState
    decreases |actions|
  {
    if actions == [] then s else Run(Apply(s, actions[0]), actions[1..])
  }

  /** The initial state is consistent. */
  lemma InitialStateConsistent()
    ensures Consistent(InitialState)
  {
  }

  /** Every single action keeps the invariant. */
  lemma ApplyKeepsConsistent(s: AuthState, a: Action)
    requires Consistent(s)
    ensures Consistent(Apply(s, a))
  {
    match a
    case LoginAttempt(email, password) =>
      if ValidCredentials(email, password) {
        assert DummyUsers()[email] in DummyUsers().Values;
      }
    case LogoutCall =>
  }

  /**
   * From the initial state, after any sequence of logins and logouts, the
   * provider is authenticated exactly when a user is present, that user is one
   * of the table's records, and so the derived role is present exactly when
   * authenticated.
   */
  lemma {:induction false} RunKeepsConsistent(s: AuthState, actions: seq<Action>)
    requires Consistent(s)
    ensures Consistent(Run(s, actions))
    ensures Run(s, actions).isAuthenticated <==> RoleOf(Run(s, actions).currentUser).Some?
    decreases |actions|
  {
    if actions != [] {
      ApplyKeepsConsistent(s, actions[0]);
      RunKeepsConsistent(Apply(s, actions[0]), actions[1..]);
    }
  }

  /** Logging out twice is the same as logging out once. */
  lemma LogoutIdempotent(s: AuthState)
    ensures LogoutStep(LogoutStep(s)) == LogoutStep(s)
  {
  }

  /**
   * A successful login signs in the table's record for that e-mail, whatever
   * the state before; a failed one changes nothing.
   */
  lemma LoginResult(s: AuthState, email: string, password: string)
    ensures ValidCredentials(email, password) ==>
      LoginStep(s, email, password).state == AuthState(true, Some(DummyUsers()[email]))
    ensures !ValidCredentials(email, password) ==> LoginStep(s, email, password).state == s
  {
  }

  /** The three accounts of the tables sign in with their own passwords and roles. */
  lemma DummyAccountsSignIn()
    ensures RoleOf(LoginStep(InitialState, "member@nu.or.id", "member123").state.currentUser) == Some(Member)
    ensures RoleOf(LoginStep(InitialState, "admin.pusat@nu.or.id", "adminpusat123").state.currentUser)
         == Some(AdminPusat)
    ensures RoleOf(LoginStep(InitialState, "admin.cabang@nu.or.id", "admincabang123").state.currentUser)
         == Some(AdminCabang)
    ensures LoginStep(InitialState, "member@nu.or.id", "adminpusat123").error == Some(InvalidCredentialsMessage)
  {
  }

  /** The provider component: the two state fields the screens read. */
  class AuthProvider {
    var isAuthenticated: bool
    var currentUser: Option<User>

    /** The fields as a value. */
    function State(): AuthState
      reads this
    {
      AuthState(isAuthenticated, currentUser)
    }

    /** Both fields start signed out. */
    constructor ()
      ensures State() == InitialState
    {
      isAuthenticated := false;
      currentUser := None;
    }

    /**
     * `login`: sets the current user and the flag on valid credentials; otherwise
     * returns the "Invalid credentials" error and leaves both fields alone.
     */
    method Login(email: string, password: string) returns (error: Option<string>)
      modifies this
      ensures error.None? <==> ValidCredentials(email, password)
      ensures LoginOutcome(State(), error) == LoginStep(old(State()), email, password)
      ensures error.Some? ==> unchanged(this)
    {
      if ValidCredentials(email, password) {
        currentUser := Some(DummyUsers()[email]);
        isAuthenticated := true;
        error := None;
      } else {
        error := Some(InvalidCredentialsMessage);
      }
    }

    /** `logout`: clears the flag and the user. */
    method Logout()
      modifies this
      ensures State() == LogoutStep(old(State()))
      ensures !isAuthenticated && currentUser.None?
    {
      isAuthenticated := false;
      currentUser := None;
    }

    /** `userRole` as the provider exposes it. */
    function UserRole(): (r: Option<Role>)
      reads this
      ensures r.Some? <==> currentUser.Some?
      ensures currentUser.Some? ==> r.value == currentUser.value.role
    {
      RoleOf(currentUser)
    }
  }
}
