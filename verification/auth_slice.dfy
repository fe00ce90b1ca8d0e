/** The auth slice: who is signed in, the `register` and `login` thunks with
    their fixed translation of backend errors into messages, and the auth
    reducer. */
module AuthSlice {
  import opened Common
  import opened Records

  /** The slice state. `currentUser` starts as an empty array, read as no
      user; `isAuthenticated` is seeded from local storage and `isLoading`
      starts as `null`. */
  datatype AuthState = AuthState(
    currentUser: Option<User>,
    isAuthenticated: Option<bool>,
    error: Option<string>,
    isLoading: Option<bool>)

  /** `initialState`, given the value stored under `authenticated`. */
  function Initial(stored: Option<bool>): (s: AuthState)
    ensures s.currentUser.None? && s.error.None? && s.isLoading.None?
    ensures s.isAuthenticated == stored
  {
    AuthState(None, stored, None, None)
  }

  /** The auth commands that report only success or a message. */
  datatype Command = Register | Login | Logout

  datatype AuthAction =
    | ResetAuthState
    | SetCurrentUserPending
    | SetCurrentUserFulfilled(user: User)
    | SetCurrentUserRejected(error: string)
    | CommandPending(command: Command)
    | CommandFulfilled(command: Command)
    | CommandRejected(command: Command, error: string)

  /** The auth reducer; `stored` is the seed `initialState` was built from. */
  function Reduce(stored: Option<bool>, s: AuthState, a: AuthAction): (r: AuthState)
    ensures a.ResetAuthState? ==> r == Initial(stored)
    ensures a.SetCurrentUserPending? || a.CommandPending? ==> r == s.(isLoading := Some(true))
    ensures a.SetCurrentUserFulfilled? ==>
      r.currentUser == Some(a.user) && r.isAuthenticated == Some(true) && r.error.None? && r.isLoading == Some(false)
    ensures a.CommandFulfilled? && a.command != Logout ==>
      r.currentUser == s.currentUser && r.isAuthenticated == s.isAuthenticated && r.error.None? && r.isLoading == Some(false)
    ensures a.CommandFulfilled? && a.command == Logout ==>
      r.currentUser == s.currentUser && r.isAuthenticated == Some(false) && r.error.None? && r.isLoading == Some(false)
    ensures a.SetCurrentUserRejected? || a.CommandRejected? ==>
      r.currentUser == s.currentUser && r.isAuthenticated == s.isAuthenticated && r.isLoading == Some(false)
    ensures a.SetCurrentUserRejected? ==> r.error == Some(a.error)
    ensures a.CommandRejected? ==> r.error == Some(a.error)
  {
    match a
    case ResetAuthState => Initial(stored)
    case SetCurrentUserPending => s.(isLoading := Some(true))
    case SetCurrentUserFulfilled(u) =>
      s.(isLoading := Some(false), currentUser := Some(u), isAuthenticated := Some(true), error := None)
    case SetCurrentUserRejected(e) => s.(isLoading := Some(false), error := Some(e))
    case CommandPending(_) => s.(isLoading := Some(true))
    case CommandFulfilled(c) =>
      if c == Logout then s.(isLoading := Some(false), isAuthenticated := Some(false), error := None)
      else s.(isLoading := Some(false), error := None)
    case CommandRejected(_, e) => s.(isLoading := Some(false), error := Some(e))
  }

  /** Apply actions in order. */
  function ReduceAll(stored: Option<bool>, s: AuthState, actions: seq<AuthAction>): AuthState
    decreases |actions|
  {
    if |actions| == 0 then s else ReduceAll(stored, Reduce(stored, s, actions[0]), actions[1..])
  }

  /** A settled login or registration: it ends loading and, whatever happened
      before it in the same round trip, never changes who is signed in; the
      signed-in user arrives separately through `setCurrentUser`. */
  lemma {:induction false} LoginNeverSignsIn(stored: Option<bool>, s: AuthState, c: Command, outcome: Outcome<()>)
    requires c != Logout
    ensures var a := if outcome.Fulfilled? then CommandFulfilled(c) else CommandRejected(c, outcome.reason);
      var r := ReduceAll(stored, s, [CommandPending(c), a]);
      && r.currentUser == s.currentUser
      && r.isAuthenticated == s.isAuthenticated
      && r.isLoading == Some(false)
      && (r.error.None? <==> outcome.Fulfilled?)
  {
    var a := if outcome.Fulfilled? then CommandFulfilled(c) else CommandRejected(c, outcome.reason);
    var s1 := Reduce(stored, s, CommandPending(c));
    assert ReduceAll(stored, s, [CommandPending(c), a]) == ReduceAll(stored, s1, [a]);
    assert ReduceAll(stored, s1, [a]) == ReduceAll(stored, Reduce(stored, s1, a), []);
  }

  /** Resetting forgets everything: any history followed by a reset ends in
      the initial state. */
  lemma {:induction false} ResetForgets(stored: Option<bool>, s: AuthState, actions: seq<AuthAction>)
    ensures ReduceAll(stored, s, actions + [ResetAuthState]) == Initial(stored)
    decreases |actions|
  {
    if |actions| == 0 {
      assert actions + [ResetAuthState] == [ResetAuthState];
    } else {
      assert (actions + [ResetAuthState])[1..] == actions[1..] + [ResetAuthState];
      ResetForgets(stored, Reduce(stored, s, actions[0]), actions[1..]);
    }
  }

  // ---------------------------------------------------------------------------
  // The register and login thunks

  /** What the sign-up form sends to `register`. */
  datatype NewUser = NewUser(
    name: string,
    username: string,
    email: string,
    password: string,
    bio: Option<string>,
    profilePicUrl: Option<string>,
    coverPicUrl: Option<string>,
    following: seq<string>,
    followers: seq<string>,
    createdAt: string)

  /** The remote calls `register` makes, in order. */
  datatype RemoteCall =
    | CountUsername(username: string)
    | CreateAccount(email: string, password: string)
    | SaveUser(uid: string, record: User)

  /** The calls made and how the thunk settled. */
  datatype RegisterRun = RegisterRun(calls: seq<RemoteCall>, result: Outcome<()>)

  const ShortUsername: string := "Username must be at least 3 characters"
  const UsernameTaken: string := "Username is taken"
  const SaveFailed: string := "Register unsuccessful!"
  const InvalidEmail: string := "Invalid email address"
  const WeakPassword: string := "Password must be at least 6 characters"
  const EmailInUse: string := "User already exists with this email"
  const InvalidCredentials: string := "Invalid credentials"
  const Unknown: string := "Something went wrong"

  const InvalidEmailCode: string := "Firebase: Error (auth/invalid-email)."
  const WeakPasswordCode: string := "Firebase: Password should be at least 6 characters (auth/weak-password)."
  const EmailInUseCode: string := "Firebase: Error (auth/email-already-in-use)."
  const UserNotFoundCode: string := "Firebase: Error (auth/user-not-found)."
  const WrongPasswordCode: string := "Firebase: Error (auth/wrong-password)."

  /** The message `register` shows for an account-creation failure. */
  function RegisterErrorMessage(backend: string): (m: string)
    ensures m in {InvalidEmail, WeakPassword, EmailInUse, Unknown}
    ensures backend == InvalidEmailCode ==> m == InvalidEmail
    ensures backend == WeakPasswordCode ==> m == WeakPassword
    ensures backend == EmailInUseCode ==> m == EmailInUse
    ensures m == Unknown <==> backend !in {InvalidEmailCode, WeakPasswordCode, EmailInUseCode}
  {
    if backend == InvalidEmailCode then InvalidEmail
    else if backend == WeakPasswordCode then WeakPassword
    else if backend == EmailInUseCode then EmailInUse
    else Unknown
  }

  /** The message `login` shows for a sign-in failure. */
  function LoginErrorMessage(backend: string): (m: string)
    ensures m in {InvalidEmail, InvalidCredentials, Unknown}
    ensures backend == InvalidEmailCode ==> m == InvalidEmail
    ensures m == InvalidCredentials <==> backend in {UserNotFoundCode, WrongPasswordCode}
    ensures m == Unknown <==> backend !in {InvalidEmailCode, UserNotFoundCode, WrongPasswordCode}
  {
    if backend == InvalidEmailCode then InvalidEmail
    else if backend == UserNotFoundCode || backend == WrongPasswordCode then InvalidCredentials
    else Unknown
  }

  /** The three register codes get three different messages, and only an
      invalid email reads the same at login. */
  lemma MessagesSeparate()
    ensures |{RegisterErrorMessage(InvalidEmailCode), RegisterErrorMessage(WeakPasswordCode), RegisterErrorMessage(EmailInUseCode)}| == 3
    ensures LoginErrorMessage(UserNotFoundCode) == LoginErrorMessage(WrongPasswordCode)
    ensures RegisterErrorMessage(InvalidEmailCode) == LoginErrorMessage(InvalidEmailCode)
  {
  }

  /** The document `register` stores: the form's record without its password,
      under the new account's uid. */
  function Stored(u: NewUser, uid: string): (r: User)
    ensures r.id == uid
    ensures r.name == u.name && r.username == u.username && r.email == u.email
    ensures r.bio == u.bio && r.profilePicUrl == u.profilePicUrl && r.coverPicUrl == u.coverPicUrl
    ensures r.following == u.following && r.followers == u.followers && r.createdAt == u.createdAt
  {
    User(uid, u.name, u.username, u.email, u.bio, u.profilePicUrl, u.coverPicUrl, u.following, u.followers, u.createdAt)
  }

  /** `register`, given how each remote call answers: the username count, the
      new account's uid, and the save. */
  function RegisterThunk(u: NewUser, count: Outcome<nat>, signUp: Outcome<string>, save: Outcome<()>): (r: RegisterRun)
    ensures JsLength(u.username) < 3 ==> r == RegisterRun([], Rejected(ShortUsername))
    ensures JsLength(u.username) >= 3 ==> |r.calls| >= 1 && r.calls[0] == CountUsername(u.username)
    ensures r.result.Fulfilled? <==>
      JsLength(u.username) >= 3 && count == Fulfilled(0) && signUp.Fulfilled? && save.Fulfilled?
    ensures JsLength(u.username) >= 3 && count.Fulfilled? && count.value > 0 ==> r.result == Rejected(UsernameTaken)
    ensures JsLength(u.username) >= 3 && count.Rejected? ==> r.result == Rejected(count.reason)
    ensures JsLength(u.username) >= 3 && count == Fulfilled(0) && signUp.Rejected? ==>
      r.result == Rejected(RegisterErrorMessage(signUp.reason))
    ensures JsLength(u.username) >= 3 && count == Fulfilled(0) && signUp.Fulfilled? ==>
      r.calls == [CountUsername(u.username), CreateAccount(u.email, u.password), SaveUser(signUp.value, Stored(u, signUp.value))]
      && (save.Rejected? ==> r.result == Rejected(SaveFailed))
    ensures forall i :: 0 <= i < |r.calls| && r.calls[i].SaveUser? ==> i == 2 && r.result != Rejected(UsernameTaken)
  {
    if JsLength(u.username) < 3 then RegisterRun([], Rejected(ShortUsername))
    else
      var asked := [CountUsername(u.username)];
      match count
      case Rejected(m) => RegisterRun(asked, Rejected(m))
      case Fulfilled(n) =>
        if n > 0 then RegisterRun(asked, Rejected(UsernameTaken))
        else
          var created := asked + [CreateAccount(u.email, u.password)];
          match signUp
          case Rejected(m) => RegisterRun(created, Rejected(RegisterErrorMessage(m)))
          case Fulfilled(uid) =>
            var saved := created + [SaveUser(uid, Stored(u, uid))];
            if save.Rejected? then RegisterRun(saved, Rejected(SaveFailed)) else RegisterRun(saved, Fulfilled(()))
  }

  /** `login`, given how the sign-in call answers. */
  function LoginThunk(signIn: Outcome<()>): (r: Outcome<()>)
    ensures r.Fulfilled? <==> signIn.Fulfilled?
    ensures r.Rejected? ==> r.reason == LoginErrorMessage(signIn.reason)
  {
    match signIn
    case Fulfilled(_) => Fulfilled(())
    case Rejected(m) => Rejected(LoginErrorMessage(m))
  }

  /** The action a settled thunk dispatches. */
  function Settled(c: Command, result: Outcome<()>): (a: AuthAction)
    ensures result.Fulfilled? ==> a == CommandFulfilled(c)
    ensures result.Rejected? ==> a == CommandRejected(c, result.reason)
  {
    if result.Fulfilled? then CommandFulfilled(c) else CommandRejected(c, result.reason)
  }

  /** A username the backend counts as taken never gets an account: the
      account is created and saved only after a zero count. */
  lemma TakenNeverRegisters(u: NewUser, n: nat, signUp: Outcome<string>, save: Outcome<()>)
    requires n > 0
    ensures var r := RegisterThunk(u, Fulfilled(n), signUp, save);
      r.result.Rejected? && forall i :: 0 <= i < |r.calls| ==> r.calls[i].CountUsername?
  {
  }

  /** After a registration, the auth error is exactly the message the thunk
      settled with, and the signed-in user is whatever it was. */
  lemma RegisterReachesState(stored: Option<bool>, s: AuthState, u: NewUser,
                             count: Outcome<nat>, signUp: Outcome<string>, save: Outcome<()>)
    ensures var run := RegisterThunk(u, count, signUp, save);
      var r := Reduce(stored, Reduce(stored, s, CommandPending(Register)), Settled(Register, run.result));
      && r.currentUser == s.currentUser
      && (run.result.Fulfilled? ==> r.error.None?)
      && (run.result.Rejected? ==> r.error == Some(run.result.reason))
      && (JsLength(u.username) < 3 ==> r.error == Some(ShortUsername))
  {
  }
}
