/** The authentication session of src/contexts/AuthContext.tsx: a pure reducer over
    the session state, and a provider whose operations dispatch to it and read or
    write the one stored-user entry of device storage. Storage is a field; a storage
    call that throws is a boolean parameter, so the source's catch paths are kept. */
module AuthContext {
  import opened Types
  import opened Seqs
  import Constants

  datatype AuthState = AuthState(user: Option<User>, isAuthenticated: bool, isLoading: bool, error: Option<string>)

  datatype AuthAction =
    | LoginStart
    | LoginSuccess(user: User)
    | LoginFailure(message: string)
    | Logout
    | ClearError
    | RestoreUser(restored: Option<User>)

  /** `initialState`: nobody signed in, still loading the stored session. */
  const InitialState := AuthState(None, false, true, None)

  const InvalidCredentials := "Invalid email or password"
  const LoginFailed := "Login failed. Please try again."
  const MockPassword := "password"

  /** The session's key invariant: authenticated exactly when a user is present. */
  predicate Consistent(s: AuthState) {
    s.isAuthenticated <==> s.user.Some?
  }

  /** `authReducer`. */
  function Reduce(s: AuthState, a: AuthAction): (r: AuthState)
    ensures a.LoginStart? ==> r == s.(isLoading := true, error := None)
    ensures a.LoginSuccess? ==> r.user == Some(a.user) && r.isAuthenticated && !r.isLoading && r.error.None?
    ensures a.LoginFailure? ==> r.user.None? && !r.isAuthenticated && !r.isLoading && r.error == Some(a.message)
    ensures a.Logout? ==> r == AuthState(None, false, false, None)
    ensures a.ClearError? ==> r == s.(error := None)
    ensures a.RestoreUser? ==>
      r.user == a.restored && (r.isAuthenticated <==> a.restored.Some?) && !r.isLoading && r.error == s.error
    ensures Consistent(s) ==> Consistent(r)
    ensures !(a.LoginStart? || a.ClearError?) ==> Consistent(r)
  {
    match a
    case LoginStart => s.(isLoading := true, error := None)
    case LoginSuccess(u) => s.(user := Some(u), isAuthenticated := true, isLoading := false, error := None)
    case LoginFailure(m) => s.(user := None, isAuthenticated := false, isLoading := false, error := Some(m))
    case Logout => s.(user := None, isAuthenticated := false, isLoading := false, error := None)
    case ClearError => s.(error := None)
    case RestoreUser(u) => s.(user := u, isAuthenticated := u.Some?, isLoading := false)
  }

  /** The state after dispatching `actions` in order. */
  function Run(s: AuthState, actions: seq<AuthAction>): AuthState
    decreases |actions|
  {
    if actions == [] then s else Run(Reduce(s, actions[0]), actions[1..])
  }

  /** Whatever actions are dispatched from a consistent state, the session stays
      consistent; in particular from `initialState`. */
  lemma {:induction false} RunKeepsConsistent(s: AuthState, actions: seq<AuthAction>)
    requires Consistent(s)
    ensures Consistent(Run(s, actions))
    decreases |actions|
  {
    if actions != [] {
      RunKeepsConsistent(Reduce(s, actions[0]), actions[1..]);
    }
  }

  lemma InitialStateConsistent(actions: seq<AuthAction>)
    ensures Consistent(InitialState)
    ensures Consistent(Run(InitialState, actions))
  {
    RunKeepsConsistent(InitialState, actions);
  }

  /** `MOCK_USERS.find(u => u.email === email)`. */
  function FindByEmail(email: string): (r: Option<User>)
    ensures r.None? <==> forall i :: 0 <= i < |Constants.MockUsers| ==> Constants.MockUsers[i].email != email
    ensures r.Some? ==> r.value in Constants.MockUsers && r.value.email == email
    ensures r.Some? ==> (exists k :: 0 <= k < |Constants.MockUsers| && Constants.MockUsers[k] == r.value
                           && forall j :: 0 <= j < k ==> Constants.MockUsers[j].email != email)
  {
    var f := Find(Constants.MockUsers, (u: User) => u.email == email);
    if f.Some? then
      var k := FirstIndex(Constants.MockUsers, (u: User) => u.email == email);
      assert Constants.MockUsers[k] == f.value;
      f
    else f
  }

  /** The credential check of `login`: the first directory user with exactly that
      e-mail, provided the password is the fixed mock password. */
  function Authenticate(email: string, password: string): (r: Option<User>)
    ensures r.Some? <==> (password == MockPassword
                          && exists i :: 0 <= i < |Constants.MockUsers| && Constants.MockUsers[i].email == email)
    ensures r.Some? ==> r == FindByEmail(email) && r.value.email == email
  {
    var u := FindByEmail(email);
    if u.Some? && password == MockPassword then u else None
  }

  /** The coordinator signs in with the mock password; a wrong password fails. */
  lemma LoginScenario()
    ensures Authenticate("ana@medical.com", "password").Some?
    ensures Authenticate("ana@medical.com", "password").value.id == "1"
    ensures Authenticate("ana@medical.com", "password").value.role == Coordinator
    ensures Authenticate("ana@medical.com", "wrong").None?
  {
    assert Constants.MockUsers[0].email == "ana@medical.com";
  }

  /** `useRole`: the signed-in user's role, or none. */
  function RoleOf(s: AuthState): (r: Option<UserRole>)
    ensures r.Some? <==> s.user.Some?
    ensures r.Some? ==> r.value == s.user.value.role
  {
    if s.user.Some? then Some(s.user.value.role) else None
  }

  /** The AuthProvider: the reducer state and the stored-user entry. */
  class AuthProvider {
    var state: AuthState
    /** The '@auth_user' entry of device storage. */
    var stored: Option<User>

    constructor (initiallyStored: Option<User>)
      ensures state == InitialState && stored == initiallyStored
    {
      state := InitialState;
      stored := initiallyStored;
    }

    method Dispatch(a: AuthAction)
      modifies this
      ensures state == Reduce(old(state), a) && stored == old(stored)
    {
      state := Reduce(state, a);
    }

    /** The mount effect: the stored user, if any, becomes the session without
        re-checking the password; a failed read restores nobody. */
    method RestoreStoredUser(readFails: bool)
      modifies this
      ensures stored == old(stored)
      ensures state == Reduce(old(state), RestoreUser(if readFails then None else old(stored)))
      ensures Consistent(state)
    {
      if readFails {
        Dispatch(RestoreUser(None));
      } else if stored.Some? {
        Dispatch(RestoreUser(stored));
      } else {
        Dispatch(RestoreUser(None));
      }
    }

    /** `login`: succeeds exactly when the credentials check out and the session
        could be stored; on success the stored and the current user are the same. */
    method Login(email: string, password: string, writeFails: bool) returns (ok: bool)
      modifies this
      ensures ok <==> Authenticate(email, password).Some? && !writeFails
      ensures ok ==> (stored == Authenticate(email, password) && state.user == stored
                      && state.isAuthenticated && !state.isLoading && state.error.None?)
      ensures !ok ==> (stored == old(stored) && state.user.None? && !state.isAuthenticated
                       && !state.isLoading)
      ensures !ok && Authenticate(email, password).None? ==> state.error == Some(InvalidCredentials)
      ensures !ok && Authenticate(email, password).Some? ==> state.error == Some(LoginFailed)
      ensures Consistent(state)
    {
      Dispatch(LoginStart);
      var user := FindByEmail(email);
      if user.Some? && password == MockPassword {
        if writeFails {
          Dispatch(LoginFailure(LoginFailed));
          return false;
        }
        stored := user;
        Dispatch(LoginSuccess(user.value));
        return true;
      } else {
        Dispatch(LoginFailure(InvalidCredentials));
        return false;
      }
    }

    /** `logout`: removes the stored user and signs out; when removal throws, the
        error is only logged and nothing changes. */
    method Logout(removeFails: bool)
      modifies this
      ensures removeFails ==> state == old(state) && stored == old(stored)
      ensures !removeFails ==> stored.None? && state == AuthState(None, false, false, None)
    {
      if !removeFails {
        stored := None;
        Dispatch(AuthAction.Logout);
      }
    }

    /** `forgotPassword`: a stub that reports success for every address. */
    method ForgotPassword(email: string) returns (ok: bool)
      ensures ok
    {
      ok := true;
    }

    method ClearError()
      modifies this
      ensures state == old(state).(error := None) && stored == old(stored)
    {
      Dispatch(AuthAction.ClearError);
    }

    function Role(): (r: Option<UserRole>)
      reads this
      ensures r.Some? <==> state.user.Some?
      ensures r.Some? ==> r.value == state.user.value.role
    {
      RoleOf(state)
    }
  }
}
