/**
 * The session store and auth service of the admin console: the signed-in
 * user, the bearer token and the `loading` flag, mirrored write-through into
 * two keys of the browser's local storage ('token' and 'user'); login,
 * logout, the startup hydrate-and-refresh, the permission check and the
 * propagation of an edited role into the active session.
 *
 * Each transition is a function on a `Session` value; `AuthProvider` is the
 * stateful object whose methods perform the same steps field by field.
 */
module Auth {
  import opened Js
  import opened Http

  /** A role as the backend sends it; any property may be missing. `mongoId` is the `_id` property. */
  datatype Role = Role(
    id: Option<string>,
    mongoId: Option<string>,
    name: Option<string>,
    key: Option<string>,
    permissions: Option<seq<string>>)

  /** The signed-in identity; `role` may be missing. */
  datatype User = User(id: Option<string>, name: Option<string>, email: Option<string>, role: Option<Role>)

  /** What `JSON.parse` makes of the 'user' entry: a user, or a parse failure. */
  datatype StoredUser = Valid(user: User) | Corrupt

  /** The two local-storage keys; `None` is a key that is not set. */
  datatype Storage = Storage(token: Option<string>, user: Option<StoredUser>)

  /** The provider's state fields together with local storage. */
  datatype Session = Session(user: Option<User>, token: Option<string>, loading: bool, storage: Storage)

  /** The body of a 2xx reply to `POST /auth/login`. */
  datatype LoginReply = LoginReply(token: string, user: User)

  // ---------------------------------------------------------------------------
  // Access guard

  /** `user?.role?.permissions`. */
  function PermissionList(user: Option<User>): Option<seq<string>> {
    if user.Some? && user.value.role.Some? then user.value.role.value.permissions else None
  }

  /** `hasPermission(perm)`: a falsy key is ungated; otherwise exact membership, failing closed. */
  function HasPermission(user: Option<User>, perm: Option<string>): bool {
    if !Truthy(perm) then true
    else match PermissionList(user)
      case None => false
      case Some(granted) => Includes(granted, perm.value)
  }

  /** A missing or empty permission key is allowed whatever the session holds. */
  lemma UngatedAlwaysAllowed(user: Option<User>, perm: Option<string>)
    requires !Truthy(perm)
    ensures HasPermission(user, perm)
  {
  }

  /** Without a user, a role or a permission list every real key is refused. */
  lemma FailsClosed(user: Option<User>, perm: Option<string>)
    requires user.None? || user.value.role.None? || user.value.role.value.permissions.None?
    ensures HasPermission(user, perm) <==> !Truthy(perm)
  {
  }

  /** Otherwise the check is exact membership in the role's list: no prefix or wildcard match. */
  lemma ExactMembership(user: Option<User>, perm: string)
    requires perm != "" && PermissionList(user).Some?
    ensures HasPermission(user, Some(perm)) <==> perm in PermissionList(user).value
  {
  }

  // ---------------------------------------------------------------------------
  // Session transitions

  /** The provider's state before its mount effect: nothing loaded, `loading` true. */
  function Initial(storage: Storage): Session {
    Session(None, None, true, storage)
  }

  /** Whether the mount effect issues `GET /auth/me`: only when a truthy token is stored. */
  predicate FetchesMe(s: Session) {
    Truthy(s.storage.token)
  }

  /** The synchronous part of the mount effect: read both keys, load what parses. */
  function Hydrated(s: Session): Session {
    var stored := s.storage;
    var token := if Truthy(stored.token) then stored.token else s.token;
    var user := if stored.user.Some? && stored.user.value.Valid? then Some(stored.user.value.user) else s.user;
    Session(user, token, if FetchesMe(s) then s.loading else false, stored)
  }

  /** `/auth/me` has settled. There is no check that the token is still the one the request used. */
  function Refreshed(s: Session, reply: Response<User>): Session {
    match reply
    case Ok(freshUser) => Session(Some(freshUser), s.token, false, s.storage.(user := Some(Valid(freshUser))))
    case Failed(_) => s.(loading := false)
  }

  /** After `login`: a failed request throws before any state is set. */
  function AfterLogin(s: Session, reply: Response<LoginReply>): Session {
    match reply
    case Ok(r) => Session(Some(r.user), Some(r.token), s.loading, Storage(Some(r.token), Some(Valid(r.user))))
    case Failed(_) => s
  }

  /** What `login` returns, or the error it throws. */
  function LoginResult(reply: Response<LoginReply>): Response<User> {
    match reply
    case Ok(r) => Ok(r.user)
    case Failed(m) => Failed(m)
  }

  /** After `logout`. */
  function AfterLogout(s: Session): Session {
    Session(None, None, s.loading, Storage(None, None))
  }

  /** `String(role.id || role._id)`, the session role's id as compared. */
  function SessionRoleId(role: Role): string {
    ToStr(Or(role.id, role.mongoId))
  }

  /** `String(updated._id || updated.id)`: note the reversed preference. */
  function UpdatedRoleId(updated: Role): string {
    ToStr(Or(updated.mongoId, updated.id))
  }

  /** `updateUserRole` acts only when there is a user with a role whose normalised id matches. */
  predicate RoleMatches(user: Option<User>, updated: Role) {
    user.Some? && user.value.role.Some? && SessionRoleId(user.value.role.value) == UpdatedRoleId(updated)
  }

  /** `{...base, ...updated, id: updatedRoleId}`. */
  function MergedRole(base: Role, updated: Role): Role {
    Role(
      Some(UpdatedRoleId(updated)),
      Coalesce(updated.mongoId, base.mongoId),
      Coalesce(updated.name, base.name),
      Coalesce(updated.key, base.key),
      Coalesce(updated.permissions, base.permissions))
  }

  /** After `updateUserRole(updated)`. */
  function WithRoleUpdate(s: Session, updated: Role): Session {
    if RoleMatches(s.user, updated) then
      var u := s.user.value.(role := Some(MergedRole(s.user.value.role.value, updated)));
      s.(user := Some(u), storage := s.storage.(user := Some(Valid(u))))
    else s
  }

  /** The request interceptor's header: `Bearer <token>` when the 'token' key holds a truthy value. */
  function AuthorizationHeader(storage: Storage): (r: Option<string>)
    ensures BearerToken(r) == (if Truthy(storage.token) then storage.token else None)
  {
    if Truthy(storage.token) then Some("Bearer " + storage.token.value) else None
  }

  /** The token a receiver reads from an `Authorization` header of the Bearer scheme, if any. */
  function BearerToken(header: Option<string>): Option<string> {
    if header.Some? && |header.value| > 7 && header.value[..7] == "Bearer " then Some(header.value[7..])
    else None
  }

  /** Every request of a session in sync carries the token the session holds, when it is truthy, and none otherwise. */
  lemma HeaderTracksSession(s: Session)
    requires InSync(s) && (s.token.Some? || !Truthy(s.storage.token))
    ensures BearerToken(AuthorizationHeader(s.storage)) == (if Truthy(s.token) then s.token else None)
  {
  }

  // ---------------------------------------------------------------------------
  // Properties of the transitions

  /** Write-through: whatever is in memory is also what storage holds. */
  predicate InSync(s: Session) {
    && (s.token.Some? ==> s.storage.token == s.token)
    && (s.user.Some? ==> s.storage.user == Some(Valid(s.user.value)))
  }

  /** Every transition keeps memory and storage in sync. */
  lemma TransitionsKeepInSync(s: Session, me: Response<User>, login: Response<LoginReply>, updated: Role)
    requires InSync(s)
    ensures InSync(Initial(s.storage))
    ensures InSync(Hydrated(s))
    ensures InSync(Refreshed(s, me))
    ensures InSync(AfterLogin(s, login))
    ensures InSync(AfterLogout(s))
    ensures InSync(WithRoleUpdate(s, updated))
  {
  }

  /** No stored token: loading ends at once, no `/auth/me`, yet a parseable stored user is loaded. */
  lemma StartupWithoutToken(storage: Storage)
    requires !Truthy(storage.token)
    ensures !FetchesMe(Initial(storage))
    ensures var s := Hydrated(Initial(storage));
      && !s.loading && s.token == None
      && s.user == (if storage.user.Some? && storage.user.value.Valid? then Some(storage.user.value.user) else None)
  {
  }

  /** A stored user that fails to parse leaves `user` null. */
  lemma StartupCorruptUser(storage: Storage)
    requires storage.user == Some(Corrupt)
    ensures Hydrated(Initial(storage)).user == None
  {
  }

  /** With a stored token: the token is loaded and `loading` stays true until `/auth/me` settles. */
  lemma StartupWithToken(storage: Storage, reply: Response<User>)
    requires Truthy(storage.token)
    ensures FetchesMe(Initial(storage))
    ensures Hydrated(Initial(storage)).token == storage.token
    ensures Hydrated(Initial(storage)).loading
    ensures !Refreshed(Hydrated(Initial(storage)), reply).loading
  {
  }

  /** A successful refresh replaces and persists the user; a failed one keeps the cached user. */
  lemma RefreshOutcome(s: Session, reply: Response<User>)
    ensures Refreshed(s, reply).token == s.token && Refreshed(s, reply).storage.token == s.storage.token
    ensures reply.Ok? ==>
      Refreshed(s, reply).user == Some(reply.data) && Refreshed(s, reply).storage.user == Some(Valid(reply.data))
    ensures reply.Failed? ==> Refreshed(s, reply).user == s.user && Refreshed(s, reply).storage == s.storage
  {
  }

  /** A successful login holds exactly the reply's token and user, in memory and in storage. */
  lemma LoginSuccess(s: Session, r: LoginReply)
    ensures AfterLogin(s, Ok(r)).token == Some(r.token) && AfterLogin(s, Ok(r)).user == Some(r.user)
    ensures AfterLogin(s, Ok(r)).storage == Storage(Some(r.token), Some(Valid(r.user)))
    ensures AfterLogin(s, Ok(r)).loading == s.loading
    ensures LoginResult(Ok(r)) == Ok(r.user)
  {
  }

  /** A failed login changes nothing and rethrows the failure. */
  lemma LoginFailure(s: Session, message: Option<string>)
    ensures AfterLogin(s, Failed(message)) == s
    ensures LoginResult(Failed(message)) == Failed(message)
  {
  }

  /** Logout clears token and user in memory and storage and leaves `loading` alone. */
  lemma LogoutClears(s: Session)
    ensures AfterLogout(s).token == None && AfterLogout(s).user == None
    ensures AfterLogout(s).storage == Storage(None, None)
    ensures AfterLogout(s).loading == s.loading
    ensures AuthorizationHeader(AfterLogout(s).storage) == None
  {
  }

  /** Restarting after a login with a non-empty token restores that token and user. */
  lemma RestartRestoresLogin(s: Session, r: LoginReply)
    requires r.token != ""
    ensures var restarted := Hydrated(Initial(AfterLogin(s, Ok(r)).storage));
      restarted.token == Some(r.token) && restarted.user == Some(r.user) && restarted.loading
    ensures AuthorizationHeader(AfterLogin(s, Ok(r)).storage) == Some("Bearer " + r.token)
  {
  }

  /** An empty token is stored but not restored: the session comes back without a token. */
  lemma RestartDropsEmptyToken(s: Session, u: User)
    ensures var restarted := Hydrated(Initial(AfterLogin(s, Ok(LoginReply("", u))).storage));
      restarted.token == None && restarted.user == Some(u) && !restarted.loading
  {
  }

  /** Restarting after a logout yields an anonymous, settled session. */
  lemma RestartAfterLogout(s: Session)
    ensures Hydrated(Initial(AfterLogout(s).storage)) == Session(None, None, false, Storage(None, None))
  {
  }

  /** A refresh that settles after logout still writes its user: the code has no staleness guard. */
  lemma LateRefreshAfterLogout(s: Session, freshUser: User)
    ensures Refreshed(AfterLogout(s), Ok(freshUser)).user == Some(freshUser)
    ensures Refreshed(AfterLogout(s), Ok(freshUser)).token == None
    ensures Refreshed(AfterLogout(s), Ok(freshUser)).storage == Storage(None, Some(Valid(freshUser)))
  {
  }

  /** After login, a non-empty key is granted exactly when the reply's role lists it. */
  lemma PermissionsAfterLogin(s: Session, r: LoginReply, perm: string)
    requires perm != "" && r.user.role.Some? && r.user.role.value.permissions.Some?
    ensures HasPermission(AfterLogin(s, Ok(r)).user, Some(perm)) <==> perm in r.user.role.value.permissions.value
  {
  }

  /** A refresh that grants a new permission makes it effective at once. */
  lemma RefreshGrantsNewPermission()
    ensures var cachedRole := Role(None, None, None, None, Some(["user.browse"]));
      var freshRole := Role(None, None, None, None, Some(["user.browse", "role.browse"]));
      var cached := User(Some("1"), None, None, Some(cachedRole));
      var freshUser := User(Some("1"), None, None, Some(freshRole));
      var s := Hydrated(Initial(Storage(Some("abc"), Some(Valid(cached)))));
      !HasPermission(s.user, Some("role.browse"))
      && HasPermission(Refreshed(s, Ok(freshUser)).user, Some("role.browse"))
  {
  }

  /** No user, no role, or a different role id: the update changes nothing. */
  lemma RoleUpdateMismatch(s: Session, updated: Role)
    requires s.user.None? || s.user.value.role.None? || SessionRoleId(s.user.value.role.value) != UpdatedRoleId(updated)
    ensures WithRoleUpdate(s, updated) == s
  {
  }

  /** On a match only `user.role` changes, to the overlay, and storage 'user' is rewritten. */
  lemma RoleUpdateMatch(s: Session, updated: Role)
    requires RoleMatches(s.user, updated)
    ensures var after := WithRoleUpdate(s, updated);
      && after.token == s.token && after.loading == s.loading && after.storage.token == s.storage.token
      && after.user.Some?
      && after.user.value.id == s.user.value.id
      && after.user.value.name == s.user.value.name
      && after.user.value.email == s.user.value.email
      && after.user.value.role == Some(MergedRole(s.user.value.role.value, updated))
      && after.storage.user == Some(Valid(after.user.value))
  {
  }

  /** The overlay: updated fields win, absent ones keep the old value, `id` is the normalised string. */
  lemma MergedRoleOverlay(base: Role, updated: Role)
    ensures MergedRole(base, updated).id == Some(UpdatedRoleId(updated))
    ensures updated.name.Some? ==> MergedRole(base, updated).name == updated.name
    ensures updated.name.None? ==> MergedRole(base, updated).name == base.name
    ensures updated.key.Some? ==> MergedRole(base, updated).key == updated.key
    ensures updated.key.None? ==> MergedRole(base, updated).key == base.key
    ensures updated.permissions.Some? ==> MergedRole(base, updated).permissions == updated.permissions
    ensures updated.permissions.None? ==> MergedRole(base, updated).permissions == base.permissions
    ensures updated.mongoId.Some? ==> MergedRole(base, updated).mongoId == updated.mongoId
    ensures updated.mongoId.None? ==> MergedRole(base, updated).mongoId == base.mongoId
  {
  }

  /** Propagating an edit of the session's own role makes its permission list exactly the edited one. */
  lemma RoleUpdateGrants(s: Session, updated: Role, perm: string)
    requires RoleMatches(s.user, updated) && updated.permissions.Some? && perm != ""
    ensures PermissionList(WithRoleUpdate(s, updated).user) == updated.permissions
    ensures HasPermission(WithRoleUpdate(s, updated).user, Some(perm)) <==> perm in updated.permissions.value
  {
  }

  /** Two roles that both lack `id` and `_id` normalise to "undefined" and are taken as the same role. */
  lemma MissingIdsMatch(u: User, base: Role, updated: Role)
    requires u.role == Some(base)
    requires !Truthy(base.id) && base.mongoId.None? && !Truthy(updated.mongoId) && updated.id.None?
    ensures RoleMatches(Some(u), updated)
    ensures WithRoleUpdate(Session(Some(u), None, false, Storage(None, None)), updated).user.value.role.value.id
      == Some("undefined")
  {
  }

  // ---------------------------------------------------------------------------
  // The provider object

  /** The `AuthProvider` component's state: three state fields and the two storage keys. */
  class AuthProvider {
    var user: Option<User>
    var token: Option<string>
    var loading: bool
    var storage: Storage

    /** The whole state as a value. */
    function State(): Session
      reads this
    {
      Session(user, token, loading, storage)
    }

    /** Memory and storage agree (kept by every method below). */
    predicate Synced()
      reads this
    {
      InSync(State())
    }

    /** `useState(null)`, `useState(null)`, `useState(true)` over whatever storage already holds. */
    constructor (storage: Storage)
      ensures State() == Initial(storage) && Synced()
    {
      user := None;
      token := None;
      loading := true;
      this.storage := storage;
    }

    /** The mount effect up to the refresh call; `fetchingMe` says whether `/auth/me` was requested. */
    method Mount() returns (fetchingMe: bool)
      requires Synced()
      modifies this
      ensures Synced()
      ensures State() == Hydrated(old(State()))
      ensures fetchingMe == FetchesMe(old(State()))
    {
      var storedToken := storage.token;
      var storedUser := storage.user;
      if Truthy(storedToken) {
        token := storedToken;
      }
      if storedUser.Some? {
        match storedUser.value
        case Valid(u) => user := Some(u);
        case Corrupt =>
      }
      if !Truthy(storedToken) {
        loading := false;
        return false;
      }
      return true;
    }

    /** `fetchMe` settles with `reply`, whenever that is. */
    method FetchMeSettled(reply: Response<User>)
      requires Synced()
      modifies this
      ensures Synced()
      ensures State() == Refreshed(old(State()), reply)
    {
      match reply {
        case Ok(freshUser) =>
          user := Some(freshUser);
          storage := storage.(user := Some(Valid(freshUser)));
        case Failed(_) =>
      }
      loading := false;
    }

    /** `login(email, password)`, with the backend's reply to the credentials supplied. */
    method Login(reply: Response<LoginReply>) returns (result: Response<User>)
      requires Synced()
      modifies this
      ensures Synced()
      ensures State() == AfterLogin(old(State()), reply)
      ensures result == LoginResult(reply)
    {
      if reply.Failed? {
        return Failed(reply.message);
      }
      var data := reply.data;
      token := Some(data.token);
      user := Some(data.user);
      storage := storage.(token := Some(data.token));
      storage := storage.(user := Some(Valid(data.user)));
      return Ok(data.user);
    }

    /** `logout()`. */
    method Logout()
      requires Synced()
      modifies this
      ensures Synced()
      ensures State() == AfterLogout(old(State()))
    {
      token := None;
      user := None;
      storage := storage.(token := None);
      storage := storage.(user := None);
    }

    /** `updateUserRole(updated)`. */
    method UpdateUserRole(updated: Role)
      requires Synced()
      modifies this
      ensures Synced()
      ensures State() == WithRoleUpdate(old(State()), updated)
    {
      if user.None? || user.value.role.None? {
        return;
      }
      var prev := user.value;
      var prevRoleId := ToStr(Or(prev.role.value.id, prev.role.value.mongoId));
      var updatedRoleId := ToStr(Or(updated.mongoId, updated.id));
      if prevRoleId != updatedRoleId {
        return;
      }
      var newUser := prev.(role := Some(MergedRole(prev.role.value, updated)));
      storage := storage.(user := Some(Valid(newUser)));
      user := Some(newUser);
    }
  }
}
