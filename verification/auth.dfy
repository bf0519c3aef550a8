/**
 * `AuthService`: one session slot holding the current user, a hard-coded
 * table of mock users to log in against, and (in a browser only) a copy of
 * the current user under the `auth_user` storage key that is restored when
 * the service is constructed.
 */
module Auth {
  import opened Wrappers
  import Seqs

  datatype Role = Admin | Customer

  datatype User = User(email: string, password: string, role: Role, name: Option<string>)

  /**
   * What the `auth_user` storage key holds, as `JSON.parse` sees it: a user,
   * text that yields no user (the empty string or `null`), or text it rejects.
   */
  datatype StoredRaw = UserJson(user: User) | NoUserJson | Unparseable

  /**
   * The service's state. `stored` is the `auth_user` key; outside a browser
   * the service never reads or writes it.
   */
  datatype Session = Session(isBrowser: bool, current: Option<User>, stored: Option<StoredRaw>)

  /** The hard-coded user table, in the order `find` scans it. */
  const MockUsers: seq<User> := [
    User("kamlesh@example.com", "password", Admin, Some("Kamlesh")),
    User("logesh@example.com", "password", Admin, Some("Logesh")),
    User("hari@example.com", "password", Customer, Some("Hari")),
    User("sejal@example.com", "password", Customer, Some("Sejal")),
    User("sruthi@example.com", "password", Customer, Some("Sruthi")),
    User("shree@example.com", "password", Customer, Some("Shree"))
  ]

  predicate Matches(u: User, email: string, password: string) {
    u.email == email && u.password == password
  }

  function MatchesCredentials(email: string, password: string): User -> bool {
    u => Matches(u, email, password)
  }

  /** `u` is the first entry of `users` whose email and password both match. */
  ghost predicate IsFirstMatch(users: seq<User>, email: string, password: string, u: User) {
    exists i :: 0 <= i < |users| && users[i] == u && Matches(u, email, password)
      && forall j :: 0 <= j < i ==> !Matches(users[j], email, password)
  }

  /** `persistUser`: writes the user to storage, in a browser only. */
  function Persist(s: Session, u: User): (r: Session)
    ensures r.isBrowser == s.isBrowser && r.current == s.current
    ensures r.stored == if s.isBrowser then Some(UserJson(u)) else s.stored
  {
    if s.isBrowser then s.(stored := Some(UserJson(u))) else s
  }

  /** `clearStoredUser`: removes the storage key, in a browser only. */
  function ClearStored(s: Session): (r: Session)
    ensures r.isBrowser == s.isBrowser && r.current == s.current
    ensures r.stored == if s.isBrowser then None else s.stored
  {
    if s.isBrowser then s.(stored := None) else s
  }

  /**
   * `readStoredUser`: the stored user, if any; text that `JSON.parse` rejects
   * is removed from storage and reads as no user.
   */
  function ReadStoredUser(s: Session): (r: (Session, Option<User>))
    ensures r.1.Some? <==> s.isBrowser && s.stored.Some? && s.stored.value.UserJson?
    ensures r.1.Some? ==> r.1 == Some(s.stored.value.user)
    ensures r.0.current == s.current && r.0.isBrowser == s.isBrowser
    ensures r.0.stored == if s.isBrowser && s.stored == Some(Unparseable) then None else s.stored
  {
    if !s.isBrowser then (s, None)
    else
      match s.stored
      case None => (s, None)
      case Some(UserJson(u)) => (s, Some(u))
      case Some(NoUserJson) => (s, None)
      case Some(Unparseable) => (ClearStored(s), None)
  }

  /** The constructor: starts logged out and, in a browser, restores a stored user. */
  function Init(isBrowser: bool, stored: Option<StoredRaw>): (r: Session)
    ensures !isBrowser ==> r.current.None? && r.stored == stored
    ensures isBrowser && stored.Some? && stored.value.UserJson? ==> r.current == Some(stored.value.user)
    ensures r.current.Some? ==> isBrowser && stored == Some(UserJson(r.current.value))
  {
    var blank := Session(isBrowser, None, stored);
    var (s, u) := ReadStoredUser(blank);
    if u.Some? then s.(current := u) else s
  }

  /**
   * `login`: the first mock user with that email and password becomes the
   * current user (and is persisted); with no match nothing changes.
   */
  function Login(s: Session, email: string, password: string): (r: (Session, Option<User>))
    ensures r.1.Some? ==> IsFirstMatch(MockUsers, email, password, r.1.value)
    ensures r.1.Some? ==> r.0 == Persist(s, r.1.value).(current := r.1)
    ensures r.1.None? <==> forall u :: u in MockUsers ==> !Matches(u, email, password)
    ensures r.1.None? ==> r.0 == s
  {
    match Seqs.FindIndex(MatchesCredentials(email, password), MockUsers)
    case Some(i) =>
      var u := MockUsers[i];
      (Persist(s, u).(current := Some(u)), Some(u))
    case None => (s, None)
  }

  /** `logout`: no current user and no stored user; safe to repeat. */
  function Logout(s: Session): (r: Session)
    ensures r.current.None? && r.isBrowser == s.isBrowser
    ensures r.stored == if s.isBrowser then None else s.stored
  {
    ClearStored(s).(current := None)
  }

  function GetCurrentUser(s: Session): Option<User> {
    s.current
  }

  function IsLoggedIn(s: Session): bool {
    s.current.Some?
  }

  /** `hasRole`: a user is present and its role is one of `roles`. */
  function HasRole(s: Session, roles: seq<Role>): (r: bool)
    ensures r ==> IsLoggedIn(s)
    ensures |roles| == 0 ==> !r
  {
    s.current.Some? && s.current.value.role in roles
  }

  /** The fields `updateProfile` may change; `None` is a key the patch leaves out. */
  datatype ProfilePatch = ProfilePatch(name: Option<string>, email: Option<string>)

  /**
   * `updateProfile`: a no-op when logged out; otherwise only name and email
   * change, as the patch says, and the updated user is persisted.
   */
  function UpdateProfile(s: Session, patch: ProfilePatch): (r: Session)
    ensures s.current.None? ==> r == s
    ensures s.current.Some? ==> r.current.Some?
    ensures s.current.Some? ==> (
      && r.current.value.role == s.current.value.role
      && r.current.value.password == s.current.value.password
      && r.current.value.name == (if patch.name.Some? then patch.name else s.current.value.name)
      && r.current.value.email == patch.email.GetOr(s.current.value.email)
      && r == Persist(s, r.current.value).(current := r.current))
  {
    match s.current
    case None => s
    case Some(u) =>
      var updated := u.(name := if patch.name.Some? then patch.name else u.name,
                        email := patch.email.GetOr(u.email));
      Persist(s, updated).(current := Some(updated))
  }

  /** `setUser`: a user becomes current and is persisted; `null` logs out. */
  function SetUser(s: Session, user: Option<User>): (r: Session)
    ensures GetCurrentUser(r) == user
    ensures user.None? ==> r == Logout(s)
    ensures user.Some? ==> r.stored == Persist(s, user.value).stored
  {
    match user
    case Some(u) => Persist(s, u).(current := Some(u))
    case None => Logout(s)
  }

  /** Logging out twice leaves the same state as logging out once. */
  lemma LogoutIdempotent(s: Session)
    ensures Logout(Logout(s)) == Logout(s)
  {
  }

  /** `hasRole` over every role is exactly `isLoggedIn`. */
  lemma HasEveryRoleIsLoggedIn(s: Session)
    ensures HasRole(s, [Admin, Customer]) <==> IsLoggedIn(s)
  {
    if s.current.Some? {
      assert s.current.value.role == Admin || s.current.value.role == Customer;
    }
  }

  /** Outside a browser no operation touches storage. */
  lemma ServerNeverPersists(s: Session, email: string, password: string, patch: ProfilePatch, user: Option<User>)
    requires !s.isBrowser
    ensures Login(s, email, password).0.stored == s.stored
    ensures Logout(s).stored == s.stored
    ensures UpdateProfile(s, patch).stored == s.stored
    ensures SetUser(s, user).stored == s.stored
  {
  }

  /**
   * A successful login in a browser survives a reload: constructing the
   * service over the storage the login left behind restores the same user.
   */
  lemma LoginSurvivesReload(s: Session, email: string, password: string)
    requires s.isBrowser
    ensures var (after, u) := Login(s, email, password);
      u.Some? ==> Init(true, after.stored).current == u
  {
  }

  /** After logout a reload finds nobody, in a browser or not. */
  lemma LogoutSurvivesReload(s: Session)
    ensures Init(s.isBrowser, Logout(s).stored).current.None?
  {
  }
}
