/**
 * The mock authentication session: the `user` and `loading` cells of the
 * provider and the one browser-storage entry it reads and writes.
 *
 * The pure functions `MountStep`, `LoginStep` and `LogoutStep` say what each
 * handler does to the whole state; the class `AuthProvider` performs the same
 * handlers step by step and is proved against them.
 */
module Auth {
  import opened Wrappers
  import opened Types

  /** The storage key the session lives under. */
  const StorageKey: string := "eco-platform-user"

  /**
   * The text held by a storage entry: either the JSON text written for a user
   * (read back as that same user), or some other text.
   */
  datatype StoredText = UserJson(user: User) | OtherText(raw: string)

  /** The two ways a handler can throw. */
  datatype AuthError = InvalidCredentials | UnparsableSession

  datatype AuthState = AuthState(user: Option<User>, loading: bool, storage: map<string, StoredText>)

  /** The state after a handler, and the error it threw, if any. */
  datatype Step = Step(state: AuthState, error: Option<AuthError>)

  /** The demonstration accounts the login looks users up in. */
  const MockUsers: seq<User> := [
    User("1", "Rahul Sharma", "rahul@student.edu", "student", None, Some(2450),
         Some([Badge("1", "Eco Warrior", "Completed 10 challenges", "\U{1F331}", "2025-01-15"),
               Badge("2", "Quiz Master", "Scored 100% on 5 quizzes", "\U{1F9E0}", "2025-01-20")]),
         None, None),
    User("2", "XYZ Public School", "admin@xyz.edu", "school", None, None, None, Some("school-1"), None),
    User("3", "EcoFuture NGO", "contact@ecofuture.org", "ngo", None, None, None, None, Some("ngo-1"))
  ]

  /** The lookup test of `login`: same email and same role; the password plays no part. */
  predicate IsMatch(u: User, email: string, role: string) {
    u.email == email && u.role == role
  }

  /** The first user of `users` matching (email, role), as `Array.find` returns it. */
  function FindUser(users: seq<User>, email: string, role: string): (r: Option<User>)
    ensures r.Some? ==> r.value in users && IsMatch(r.value, email, role)
    ensures r.Some? ==> exists i :: FirstMatchAt(users, email, role, i) && users[i] == r.value
    ensures r.None? <==> forall u :: u in users ==> !IsMatch(u, email, role)
    decreases |users|
  {
    if users == [] then None
    else if IsMatch(users[0], email, role) then
      assert FirstMatchAt(users, email, role, 0);
      Some(users[0])
    else
      assert forall u :: u in users ==> u == users[0] || u in users[1..];
      var r := FindUser(users[1..], email, role);
      assert r.Some? ==> exists i :: FirstMatchAt(users[1..], email, role, i) && users[1..][i] == r.value;
      assert forall i :: FirstMatchAt(users[1..], email, role, i) ==> FirstMatchAt(users, email, role, i + 1);
      r
  }

  /** Position `i` holds a matching user and no earlier position does. */
  predicate FirstMatchAt(users: seq<User>, email: string, role: string, i: int) {
    && 0 <= i < |users|
    && IsMatch(users[i], email, role)
    && forall j :: 0 <= j < i ==> !IsMatch(users[j], email, role)
  }

  /** The state before the mount effect has run: no user, still loading. */
  function InitialState(storage: map<string, StoredText>): (s: AuthState)
    ensures s.user.None? && s.loading && s.storage == storage
  {
    AuthState(None, true, storage)
  }

  /**
   * The mount effect. A stored user is restored; an absent entry or the empty
   * text (both falsy) leave the user as it was; any other text is taken as
   * text `JSON.parse` rejects, which throws before `loading` is cleared.
   */
  function MountStep(s: AuthState): (r: Step)
    ensures r.state.storage == s.storage
    ensures r.error.None? ==> !r.state.loading
    ensures r.error.Some? ==> r.error == Some(UnparsableSession) && r.state == s
    ensures r.state.user != s.user ==>
              r.state.user.Some? && StorageKey in s.storage && s.storage[StorageKey] == UserJson(r.state.user.value)
  {
    if StorageKey in s.storage then
      match s.storage[StorageKey]
      case UserJson(u) => Step(s.(user := Some(u), loading := false), None)
      case OtherText(raw) =>
        if raw == "" then Step(s.(loading := false), None)
        else Step(s, Some(UnparsableSession))
    else Step(s.(loading := false), None)
  }

  /**
   * `login(email, password, role)`: `loading` is set first; a found user is
   * stored in the cell and under `StorageKey` and `loading` is cleared; a miss
   * throws before `loading` is cleared.
   */
  function LoginStep(s: AuthState, email: string, password: string, role: string): (r: Step)
    ensures r.error.None? ==>
              && r.state.user.Some? && r.state.user.value in MockUsers
              && IsMatch(r.state.user.value, email, role) && !r.state.loading
              && r.state.storage == s.storage[StorageKey := UserJson(r.state.user.value)]
    ensures r.error.Some? ==>
              && r.error == Some(InvalidCredentials) && r.state.loading
              && r.state.user == s.user && r.state.storage == s.storage
  {
    var found := FindUser(MockUsers, email, role);
    if found.Some? then
      Step(AuthState(found, false, s.storage[StorageKey := UserJson(found.value)]), None)
    else
      Step(s.(loading := true), Some(InvalidCredentials))
  }

  /** `logout()`: clear the user cell and remove the storage entry. */
  function LogoutStep(s: AuthState): (t: AuthState)
    ensures t.user.None? && StorageKey !in t.storage && t.loading == s.loading
    ensures forall k :: k != StorageKey && k in s.storage ==> k in t.storage && t.storage[k] == s.storage[k]
    ensures forall k :: k in t.storage ==> k in s.storage
  {
    s.(user := None, storage := s.storage - {StorageKey})
  }

  /** A login succeeds exactly when some mock user has that email and that role. */
  lemma LoginSucceedsIff(s: AuthState, email: string, password: string, role: string)
    ensures LoginStep(s, email, password, role).error.None?
            <==> exists u :: u in MockUsers && IsMatch(u, email, role)
  {
  }

  /** The password is never consulted. */
  lemma LoginIgnoresPassword(s: AuthState, email: string, p1: string, p2: string, role: string)
    ensures LoginStep(s, email, p1, role) == LoginStep(s, email, p2, role)
  {
  }

  /** A successful login: the found user is in the cell and in storage, loading is over, nothing else in storage moves. */
  lemma LoginSuccess(s: AuthState, email: string, password: string, role: string)
    requires LoginStep(s, email, password, role).error.None?
    ensures var t := LoginStep(s, email, password, role).state;
      && t.user.Some?
      && t.user.value in MockUsers && IsMatch(t.user.value, email, role)
      && StorageKey in t.storage && t.storage[StorageKey] == UserJson(t.user.value)
      && !t.loading
      && (forall k :: k != StorageKey ==> (k in t.storage <==> k in s.storage))
      && (forall k :: k != StorageKey && k in s.storage ==> t.storage[k] == s.storage[k])
  {
  }

  /** A failed login throws and leaves user and storage as they were, with `loading` left set. */
  lemma LoginFailure(s: AuthState, email: string, password: string, role: string)
    requires forall u :: u in MockUsers ==> !IsMatch(u, email, role)
    ensures var r := LoginStep(s, email, password, role);
      r.error == Some(InvalidCredentials) && r.state.user == s.user
      && r.state.storage == s.storage && r.state.loading
  {
  }

  /** Logout clears the user and the entry, and touches no other entry. */
  lemma LogoutClears(s: AuthState)
    ensures var t := LogoutStep(s);
      t.user.None? && StorageKey !in t.storage && t.loading == s.loading
      && (forall k :: k != StorageKey ==> (k in t.storage <==> k in s.storage))
      && (forall k :: k != StorageKey && k in s.storage ==> t.storage[k] == s.storage[k])
  {
  }

  /** Logging out twice is logging out once. */
  lemma LogoutIdempotent(s: AuthState)
    ensures LogoutStep(LogoutStep(s)) == LogoutStep(s)
  {
  }

  /** On mount a stored user becomes the user and loading ends. */
  lemma MountRestores(storage: map<string, StoredText>, u: User)
    requires StorageKey in storage && storage[StorageKey] == UserJson(u)
    ensures MountStep(InitialState(storage)) == Step(AuthState(Some(u), false, storage), None)
  {
  }

  /** On mount without a usable entry the user stays absent and loading ends. */
  lemma MountWithoutSession(storage: map<string, StoredText>)
    requires StorageKey !in storage || storage[StorageKey] == OtherText("")
    ensures MountStep(InitialState(storage)) == Step(AuthState(None, false, storage), None)
  {
  }

  /** Round trip: after a successful login, a fresh mount over the same storage restores that user. */
  lemma LoginThenMountRestores(s: AuthState, email: string, password: string, role: string)
    requires LoginStep(s, email, password, role).error.None?
    ensures var t := LoginStep(s, email, password, role).state;
      MountStep(InitialState(t.storage)) == Step(AuthState(t.user, false, t.storage), None)
  {
    var t := LoginStep(s, email, password, role).state;
    MountRestores(t.storage, t.user.value);
  }

  /** The mock users have pairwise distinct emails. */
  lemma MockEmailsDistinct()
    ensures forall i, j :: 0 <= i < j < |MockUsers| ==> MockUsers[i].email != MockUsers[j].email
  {
  }

  /** Hence the (email, role) lookup matches at most one mock user. */
  lemma AtMostOneMatch(email: string, role: string, u: User, v: User)
    requires u in MockUsers && v in MockUsers
    requires IsMatch(u, email, role) && IsMatch(v, email, role)
    ensures u == v
  {
    MockEmailsDistinct();
  }

  /**
   * Of the three demonstration accounts offered on the login form, the
   * student and school emails match no mock user, whatever the role; only
   * the NGO one signs in.
   */
  lemma DemoEmailsMatchNoUser(role: string)
    ensures FindUser(MockUsers, "emma@student.edu", role).None?
    ensures FindUser(MockUsers, "admin@greenfield.edu", role).None?
    ensures FindUser(MockUsers, "contact@ecofuture.org", "ngo") == Some(MockUsers[2])
  {
  }

  /** The provider's cells and the storage it reads and writes. */
  class AuthProvider {
    var user: Option<User>
    var loading: bool
    var storage: map<string, StoredText>

    function State(): AuthState
      reads this
    {
      AuthState(user, loading, storage)
    }

    constructor (initialStorage: map<string, StoredText>)
      ensures State() == InitialState(initialStorage)
    {
      user := None;
      loading := true;
      storage := initialStorage;
    }

    /** The mount effect. */
    method Mount() returns (error: Option<AuthError>)
      modifies this
      ensures Step(State(), error) == MountStep(old(State()))
    {
      error := None;
      if StorageKey in storage {
        var stored := storage[StorageKey];
        if stored.UserJson? {
          user := Some(stored.user);
        } else if stored.raw != "" {
          return Some(UnparsableSession);
        }
      }
      loading := false;
    }

    /** `login(email, password, role)`. */
    method Login(email: string, password: string, role: string) returns (error: Option<AuthError>)
      modifies this
      ensures Step(State(), error) == LoginStep(old(State()), email, password, role)
    {
      loading := true;
      var found := FindUser(MockUsers, email, role);
      if found.Some? {
        user := found;
        storage := storage[StorageKey := UserJson(found.value)];
      } else {
        return Some(InvalidCredentials);
      }
      loading := false;
      error := None;
    }

    /** `logout()`. */
    method Logout()
      modifies this
      ensures State() == LogoutStep(old(State()))
    {
      user := None;
      storage := storage - {StorageKey};
    }
  }
}
