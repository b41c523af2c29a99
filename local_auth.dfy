/**
 * The local (demo) auth data layer: a current user and role held in module
 * state, and a set of change listeners notified after every sign-in and
 * sign-out.  Passwords are accepted unread.  The clock that stamps
 * `created`/`updated` is the parameter `now`.
 */
module LocalAuth {
  import opened Wrappers
  import opened AuthTypes
  import ListenerSet

  const DemoUserId := "local_user"
  const DemoAdminId := "local_admin"
  const DemoUserName := "Demo User"
  const DemoAdminName := "Demo Admin"

  /** The user `login` signs in: fixed id and name, verified, created and updated now. */
  function DemoUser(email: string, now: string): (u: AuthUser)
    ensures u.id == DemoUserId && u.email == email && u.name == Some(DemoUserName) && u.verified
  {
    AuthUser(DemoUserId, email, Some(DemoUserName), true, now, now)
  }

  function DemoAdmin(email: string, now: string): (u: AuthUser)
    ensures u.id == DemoAdminId && u.email == email && u.name == Some(DemoAdminName) && u.verified
  {
    AuthUser(DemoAdminId, email, Some(DemoAdminName), true, now, now)
  }

  /** A `name` argument counts only when it is truthy (present and not empty). */
  predicate Truthy(name: Option<string>) {
    name.Some? && name.value != ""
  }

  /**
   * `register` as written: it signs in through `login`, whose listeners are
   * notified at once, and only then replaces the name.  The first snapshot
   * is what the listeners saw, the second what the layer holds afterwards.
   */
  function RegisterAsWritten(email: string, name: Option<string>, now: string): (r: (Snapshot, Snapshot))
    ensures r.0 == Snapshot(Some(DemoUser(email, now)), Some(User))
    ensures r.1.role == Some(User) && r.1.user.Some?
    ensures r.1.user.value == DemoUser(email, now).(name := if Truthy(name) then name else Some(DemoUserName))
  {
    var seen := Snapshot(Some(DemoUser(email, now)), Some(User));
    var user := DemoUser(email, now);
    (seen, Snapshot(Some(if Truthy(name) then user.(name := name) else user), Some(User)))
  }

  /**
   * With a name other than the demo name, the listeners of `register` are
   * told of a user whose name is not the one the layer ends up holding.
   */
  lemma RegisterNotifiesStaleName(email: string, name: string, now: string)
    requires name != "" && name != DemoUserName
    ensures var r := RegisterAsWritten(email, Some(name), now);
      r.0 != r.1 && r.0.user.value.name == Some(DemoUserName) && r.1.user.value.name == Some(name)
  {
  }

  /** `register` as evidently intended: the user signed in carries the given name, and that is what the listeners see. */
  function Registered(email: string, name: Option<string>, now: string): (s: Snapshot)
    ensures s.role == Some(User) && s.user.Some?
    ensures s.user.value.id == DemoUserId && s.user.value.email == email
    ensures Truthy(name) ==> s.user.value.name == name
    ensures !Truthy(name) ==> s.user.value.name == Some(DemoUserName)
  {
    var user := DemoUser(email, now);
    Snapshot(Some(if Truthy(name) then user.(name := name) else user), Some(User))
  }

  /** The intended registration ends where the written one does; only what the listeners see differs. */
  lemma RegisteredMatchesFinalState(email: string, name: Option<string>, now: string)
    ensures Registered(email, name, now) == RegisterAsWritten(email, name, now).1
    ensures !Truthy(name) ==> RegisterAsWritten(email, name, now).0 == Registered(email, name, now)
  {
  }

  class LocalAuthLayer {
    var currentUser: Option<AuthUser>
    var currentRole: Option<Role>
    /** The subscribed callbacks, a `Set` in insertion order. */
    var listeners: seq<nat>
    /** Every listener call so far, with the snapshot it could read. */
    var calls: seq<(nat, Snapshot)>

    predicate Valid()
      reads this
    {
      ListenerSet.Distinct(listeners)
    }

    constructor()
      ensures Valid() && currentUser == None && currentRole == None && listeners == [] && calls == []
    {
      currentUser := None;
      currentRole := None;
      listeners := [];
      calls := [];
    }

    /** `getSnapshot`. */
    function GetSnapshot(): (s: Snapshot)
      reads this
      ensures s.user == currentUser && s.role == currentRole
    {
      Snapshot(currentUser, currentRole)
    }

    /** Signs in the demo user with role `user`, whatever the password, and notifies every listener. */
    method Login(email: string, password: string, now: string)
      requires Valid()
      modifies this
      ensures Valid() && listeners == old(listeners)
      ensures currentUser == Some(DemoUser(email, now)) && currentRole == Some(User)
      ensures calls == old(calls) + ListenerSet.Notify(listeners, GetSnapshot())
    {
      currentUser := Some(DemoUser(email, now));
      currentRole := Some(User);
      calls := calls + ListenerSet.Notify(listeners, GetSnapshot());
    }

    /** Signs in the demo admin with role `admin` and notifies every listener. */
    method LoginAsAdmin(email: string, password: string, now: string)
      requires Valid()
      modifies this
      ensures Valid() && listeners == old(listeners)
      ensures currentUser == Some(DemoAdmin(email, now)) && currentRole == Some(Admin)
      ensures calls == old(calls) + ListenerSet.Notify(listeners, GetSnapshot())
    {
      currentUser := Some(DemoAdmin(email, now));
      currentRole := Some(Admin);
      calls := calls + ListenerSet.Notify(listeners, GetSnapshot());
    }

    /**
     * Signs in through `Login`, then puts a truthy name on the user without
     * notifying again: the listeners saw the demo name.
     */
    method Register(email: string, password: string, name: Option<string>, now: string)
      requires Valid()
      modifies this
      ensures Valid() && listeners == old(listeners)
      ensures var r := RegisterAsWritten(email, name, now);
        GetSnapshot() == r.1 && calls == old(calls) + ListenerSet.Notify(listeners, r.0)
    {
      Login(email, password, now);
      if Truthy(name) {
        currentUser := Some(currentUser.value.(name := name));
      }
    }

    /**
     * `register` as evidently intended: the name is set before the listeners
     * are notified, so what they are told is what the layer holds.
     */
    method RegisterThenNotify(email: string, password: string, name: Option<string>, now: string)
      requires Valid()
      modifies this
      ensures Valid() && listeners == old(listeners)
      ensures GetSnapshot() == Registered(email, name, now)
      ensures calls == old(calls) + ListenerSet.Notify(listeners, GetSnapshot())
    {
      var s := Registered(email, name, now);
      currentUser := s.user;
      currentRole := s.role;
      calls := calls + ListenerSet.Notify(listeners, GetSnapshot());
    }

    /** Signs out: no user, no role, and every listener notified. */
    method Logout()
      requires Valid()
      modifies this
      ensures Valid() && listeners == old(listeners)
      ensures currentUser == None && currentRole == None
      ensures calls == old(calls) + ListenerSet.Notify(listeners, Snapshot(None, None))
    {
      currentUser := None;
      currentRole := None;
      calls := calls + ListenerSet.Notify(listeners, GetSnapshot());
    }

    /** `subscribe`: adds the callback to the set. */
    method Subscribe(listener: nat)
      requires Valid()
      modifies this
      ensures Valid() && listeners == ListenerSet.Add(old(listeners), listener)
      ensures currentUser == old(currentUser) && currentRole == old(currentRole) && calls == old(calls)
    {
      listeners := ListenerSet.Add(listeners, listener);
    }

    /** The function `subscribe` returns: removes that callback only. */
    method Unsubscribe(listener: nat)
      requires Valid()
      modifies this
      ensures Valid() && listeners == ListenerSet.Remove(old(listeners), listener)
      ensures currentUser == old(currentUser) && currentRole == old(currentRole) && calls == old(calls)
    {
      ListenerSet.RemoveDistinct(listeners, listener);
      listeners := ListenerSet.Remove(listeners, listener);
    }
  }
}
