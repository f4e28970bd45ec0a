/** The front end's session state machine (`AuthProvider`): a flag
    `isAuthenticated` backed by the `sessionStorage` key `loginRealizado`,
    with `login` and `logout` transitions that each end in one navigation.
    Navigations and toasts are recorded as ghost logs. */
module AuthContext {

  const LoginKey := "loginRealizado"
  const HomePath := "/home"
  const LoginPath := "/login"

  datatype Toast = ToastSuccess(text: string) | ToastError(text: string) | ToastInfo(text: string)

  /** The provider's observable state: the flag, the tab's session storage,
      and the navigations and toasts made so far, oldest first. */
  datatype AuthState = AuthState(
    authenticated: bool,
    store: map<string, string>,
    navigations: seq<string>,
    toasts: seq<Toast>)

  /** `sessionStorage.getItem("loginRealizado") === "true"`. */
  predicate StoredLogin(store: map<string, string>)
  {
    LoginKey in store && store[LoginKey] == "true"
  }

  /** The one credential pair `login` accepts. */
  predicate Accepted(username: string, password: string)
  {
    username == "abc" && password == "bolinhas"
  }

  /** The state a freshly mounted provider derives from the storage. */
  function Initial(store: map<string, string>): AuthState
  {
    AuthState(StoredLogin(store), store, [], [])
  }

  function LoginStep(st: AuthState, username: string, password: string): AuthState
  {
    if Accepted(username, password) then
      AuthState(true, st.store[LoginKey := "true"], st.navigations + [HomePath],
                st.toasts + [ToastSuccess("Login realizado com sucesso!")])
    else
      st.(toasts := st.toasts + [ToastError("Usuário ou senha inválidos!")])
  }

  function LogoutStep(st: AuthState): AuthState
  {
    AuthState(false, st.store - {LoginKey}, st.navigations + [LoginPath],
              st.toasts + [ToastInfo("Logout realizado com sucesso!")])
  }

  /** The flag agrees with what a reload would read back from the storage. */
  predicate Consistent(st: AuthState)
  {
    st.authenticated == StoredLogin(st.store)
  }

  // ---------------------------------------------------------------------
  // Properties

  /** A fresh provider is authenticated iff the stored value is "true". */
  lemma InitialAuthenticatedIff(store: map<string, string>)
    ensures Initial(store).authenticated <==> LoginKey in store && store[LoginKey] == "true"
    ensures Consistent(Initial(store))
  {
  }

  /** `login` succeeds exactly for the pair ("abc", "bolinhas"): it then sets
      the flag, stores "true" and navigates once to /home; otherwise flag,
      storage and navigations stay as they were. */
  lemma LoginOutcome(st: AuthState, username: string, password: string)
    ensures var st' := LoginStep(st, username, password);
      && (Accepted(username, password) <==> st'.navigations == st.navigations + [HomePath])
      && (Accepted(username, password) ==>
            st'.authenticated && st'.store == st.store[LoginKey := "true"] && StoredLogin(st'.store))
      && (!Accepted(username, password) ==>
            st'.authenticated == st.authenticated && st'.store == st.store
            && st'.navigations == st.navigations)
      && |st'.toasts| == |st.toasts| + 1
  {
  }

  /** `logout` always clears the flag, removes the key and navigates once to
      /login; a second logout changes neither flag nor storage. */
  lemma LogoutOutcome(st: AuthState)
    ensures var st' := LogoutStep(st);
      && !st'.authenticated && LoginKey !in st'.store
      && st'.navigations == st.navigations + [LoginPath]
    ensures var st'' := LogoutStep(LogoutStep(st));
      st''.authenticated == LogoutStep(st).authenticated && st''.store == LogoutStep(st).store
  {
  }

  /** A successful login followed by logout restores a storage that did not
      hold the key; in general it only removes the key. */
  lemma LoginLogoutRoundTrip(st: AuthState, username: string, password: string)
    ensures LogoutStep(LoginStep(st, username, password)).store == st.store - {LoginKey}
    ensures LoginKey !in st.store ==> LogoutStep(LoginStep(st, "abc", "bolinhas")).store == st.store
  {
  }

  /** No key other than `loginRealizado` is ever written or removed. */
  lemma OnlyLoginKeyTouched(st: AuthState, username: string, password: string, k: string)
    requires k != LoginKey
    ensures (k in LoginStep(st, username, password).store <==> k in st.store)
    ensures (k in LogoutStep(st).store <==> k in st.store)
    ensures k in st.store ==>
      LoginStep(st, username, password).store[k] == st.store[k] && LogoutStep(st).store[k] == st.store[k]
  {
  }

  /** Both transitions keep the flag in step with the storage. */
  lemma TransitionsKeepConsistency(st: AuthState, username: string, password: string)
    requires Consistent(st)
    ensures Consistent(LoginStep(st, username, password))
    ensures Consistent(LogoutStep(st))
  {
  }

  // ---------------------------------------------------------------------
  // The provider object

  class AuthProvider {
    var isAuthenticated: bool
    /** The tab's `sessionStorage`. */
    var store: map<string, string>
    ghost var navigations: seq<string>
    ghost var toasts: seq<Toast>

    ghost function State(): AuthState
      reads this
    {
      AuthState(isAuthenticated, store, navigations, toasts)
    }

    ghost predicate Valid()
      reads this
    {
      Consistent(State())
    }

    /** Mounting the provider over the tab's current storage. */
    constructor (sessionStorage: map<string, string>)
      ensures State() == Initial(sessionStorage) && Valid()
    {
      isAuthenticated := LoginKey in sessionStorage && sessionStorage[LoginKey] == "true";
      store := sessionStorage;
      navigations := [];
      toasts := [];
    }

    method Login(username: string, password: string)
      modifies this
      ensures State() == LoginStep(old(State()), username, password)
      ensures old(Valid()) ==> Valid()
    {
      if username == "abc" && password == "bolinhas" {
        isAuthenticated := true;
        store := store[LoginKey := "true"];
        toasts := toasts + [ToastSuccess("Login realizado com sucesso!")];
        navigations := navigations + [HomePath];
      } else {
        toasts := toasts + [ToastError("Usuário ou senha inválidos!")];
      }
    }

    method Logout()
      modifies this
      ensures State() == LogoutStep(old(State()))
      ensures Valid()
    {
      isAuthenticated := false;
      store := store - {LoginKey};
      toasts := toasts + [ToastInfo("Logout realizado com sucesso!")];
      navigations := navigations + [LoginPath];
    }
  }
}
