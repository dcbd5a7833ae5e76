/**
 * The browser-side auth store: three fields updated in place by setters.
 * Persistence to local storage is outside the model; the rehydration
 * callback is kept.
 */
module AuthStore {
  import opened Wrappers

  datatype ClientRole = UserRole | AdminRole

  datatype ClientUser = ClientUser(id: string, email: string, name: string, role: ClientRole, isActive: bool)

  class AuthState {
    var user: Option<ClientUser>
    var isAuthenticated: bool
    var hydrated: bool

    /** The store's initial state. */
    constructor ()
      ensures user == None && !isAuthenticated && !hydrated
    {
      user := None;
      isAuthenticated := false;
      hydrated := false;
    }

    /** `set({ user })` */
    method SetUser(u: Option<ClientUser>)
      modifies this
      ensures user == u
      ensures isAuthenticated == old(isAuthenticated) && hydrated == old(hydrated)
    {
      user := u;
    }

    /** `set({ isAuthenticated })` */
    method SetIsAuthenticated(b: bool)
      modifies this
      ensures isAuthenticated == b
      ensures user == old(user) && hydrated == old(hydrated)
    {
      isAuthenticated := b;
    }

    /** `set({ user: null, isAuthenticated: false })`: hydration is kept. */
    method Logout()
      modifies this
      ensures user == None && !isAuthenticated
      ensures hydrated == old(hydrated)
    {
      user := None;
      isAuthenticated := false;
    }

    /** `set({ hydrated })` */
    method SetHydrated(b: bool)
      modifies this
      ensures hydrated == b
      ensures user == old(user) && isAuthenticated == old(isAuthenticated)
    {
      hydrated := b;
    }

    /**
     * The `onRehydrateStorage` callback, `state?.setHydrated(true)`: when
     * rehydration hands it the state, hydrated becomes true; otherwise
     * nothing changes.
     */
    method OnRehydrated(stateGiven: bool)
      modifies this
      ensures hydrated == (stateGiven || old(hydrated))
      ensures user == old(user) && isAuthenticated == old(isAuthenticated)
    {
      if stateGiven {
        SetHydrated(true);
      }
    }
  }

  /** Logging out twice leaves the store as logging out once does. */
  method LogoutIsIdempotent(s: AuthState)
    modifies s
    ensures s.user == None && !s.isAuthenticated && s.hydrated == old(s.hydrated)
  {
    s.Logout();
    ghost var u, a, h := s.user, s.isAuthenticated, s.hydrated;
    s.Logout();
    assert s.user == u && s.isAuthenticated == a && s.hydrated == h;
  }
}
