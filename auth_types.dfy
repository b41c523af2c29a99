/**
 * The authentication records shared by the auth data layer, the auth store
 * and the route guards: the signed-in user, the role, the layer's snapshot
 * and the store's reactive state.
 */
module AuthTypes {
  import opened Wrappers

  /** The roles the data layer can report; the guards only distinguish `user` and `admin`. */
  datatype Role = Receptionist | Dentist | Manager | Admin | User

  datatype AuthUser = AuthUser(id: string, email: string, name: Option<string>, verified: bool, created: string, updated: string)

  /** What `getSnapshot` returns. */
  datatype Snapshot = Snapshot(user: Option<AuthUser>, role: Option<Role>)

  /** The auth store's state. */
  datatype AuthState = AuthState(user: Option<AuthUser>, isAuthenticated: bool, isLoading: bool, error: Option<string>, role: Option<Role>)

  /** The store as first created: nobody signed in, nothing loading. */
  const SignedOut := AuthState(None, false, false, None, None)

  /**
   * `initializeAuth` reading a snapshot: the user and role are copied,
   * `isAuthenticated` tells whether there is a user, and loading and the
   * error are cleared.
   */
  function FromSnapshot(s: Snapshot): (r: AuthState)
    ensures r.isAuthenticated <==> s.user.Some?
    ensures r.user == s.user && r.role == s.role
    ensures !r.isLoading && r.error == None
  {
    AuthState(s.user, s.user.Some?, false, None, s.role)
  }

  /** An empty snapshot gives back the signed-out state. */
  lemma SignedOutSnapshot()
    ensures FromSnapshot(Snapshot(None, None)) == SignedOut
  {
  }
}
