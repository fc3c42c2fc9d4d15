/**
 * The mock authentication provider: a signed-in user (or none), a loading
 * flag, and the device's key-value storage, where the user record is kept
 * under the key "user" and the session list under "sessions".
 */
module AuthContext {
  import opened Wrappers
  import ThemeContext

  /**
   * The `preferences` object as it is at run time. Its type declares every
   * field, but `updateUser` copies whatever object the update carries, so a
   * field may be missing (`None`).
   */
  datatype Preferences = Preferences(
    defaultWorkDuration: Option<int>,
    defaultBreakDuration: Option<int>,
    preferredReciter: Option<string>,
    theme: Option<ThemeContext.Theme>)

  datatype User = User(
    id: string,
    email: string,
    name: string,
    avatar: Option<string>,
    preferences: Preferences)

  /**
   * A `Partial<User>`: `None` is a key absent from the update object; for the
   * optional `avatar`, `Some(None)` is the key present with `undefined`. A
   * present `preferences` is the object the caller passed, with as many or as
   * few of its fields as it has.
   */
  datatype UserPatch = UserPatch(
    id: Option<string>,
    email: Option<string>,
    name: Option<string>,
    avatar: Option<Option<string>>,
    preferences: Option<Preferences>)

  /** The preferences every new account starts with. */
  const DefaultPreferences := Preferences(Some(25), Some(5), Some("mishary"), Some(ThemeContext.Light))

  const UserKey := "user"
  const SessionsKey := "sessions"

  /**
   * A stored string. `UserJson(u)` is `JSON.stringify(u)`; `Other(text)` is
   * any text that does not parse back into a user record.
   */
  datatype Entry = UserJson(user: User) | Other(text: string)

  /**
   * How the storage calls of one operation turn out: all succeed, or the
   * `k`-th one (counting from 0) throws. The rest of the operation's `try`
   * block then does not run; a `finally` block, which clears `isLoading`,
   * still does.
   */
  datatype StorageBehaviour = Reliable | FailsOnCall(k: nat) {
    predicate Succeeds(call: nat) {
      Reliable? || call < k
    }
  }

  /** `email.split('@')[0]`: the text before the first '@', or all of it when there is none. */
  function LocalPart(email: string): (r: string)
    ensures '@' !in r
    ensures r <= email
    ensures |r| < |email| ==> email[|r|] == '@'
    ensures |r| == |email| <==> '@' !in email
  {
    if email == [] then []
    else if email[0] == '@' then []
    else [email[0]] + LocalPart(email[1..])
  }

  /** Splitting an address at its first '@' gives back the part before it. */
  lemma {:induction false} LocalPartOfAddress(local: string, domain: string)
    requires '@' !in local
    ensures LocalPart(local + "@" + domain) == local
  {
    if local != [] {
      assert (local + "@" + domain)[1..] == local[1..] + "@" + domain;
      LocalPartOfAddress(local[1..], domain);
    } else {
      assert local + "@" + domain == "@" + domain;
    }
  }

  /** The mock check `login` applies: a non-empty email and a password of at least six characters. */
  predicate LoginAccepts(email: string, password: string) {
    |email| > 0 && |password| >= 6
  }

  /** The mock check `register` applies: the login check and a non-empty name. */
  predicate RegisterAccepts(email: string, password: string, name: string) {
    LoginAccepts(email, password) && |name| > 0
  }

  /** The record `login` and `register` create. */
  function NewUser(id: string, email: string, name: string): User {
    User(id, email, name, None, DefaultPreferences)
  }

  /** `{ ...user, ...updates }`: a shallow merge of the top-level fields. */
  function MergeUser(u: User, p: UserPatch): User {
    User(
      p.id.GetOr(u.id),
      p.email.GetOr(u.email),
      p.name.GetOr(u.name),
      p.avatar.GetOr(u.avatar),
      p.preferences.GetOr(u.preferences))
  }

  /**
   * Top-level fields absent from the update are kept and present ones are
   * replaced wholesale; in particular a `preferences` in the update replaces
   * every preference, including those it leaves at their old values.
   */
  lemma MergeUserIsShallow(u: User, p: UserPatch)
    ensures var r := MergeUser(u, p);
      && (r.id == if p.id.Some? then p.id.value else u.id)
      && (r.email == if p.email.Some? then p.email.value else u.email)
      && (r.name == if p.name.Some? then p.name.value else u.name)
      && (r.avatar == if p.avatar.Some? then p.avatar.value else u.avatar)
      && (r.preferences == if p.preferences.Some? then p.preferences.value else u.preferences)
  {
  }

  /**
   * The merge does not reach inside `preferences`: an update carrying a
   * preferences object makes that object the new preferences, whatever the
   * old ones held, and keeps every other field. So an update carrying only
   * the theme drops the work duration, break duration and reciter.
   */
  lemma PartialPreferencesDropSiblings(u: User, prefs: Preferences)
    ensures var r := MergeUser(u, UserPatch(None, None, None, None, Some(prefs)));
      && r.preferences == prefs
      && r.(preferences := u.preferences) == u
  {
  }

  /** One update standing for `p` followed by `q`: a key present in `q` overrides `p`'s. */
  function ThenUser(p: UserPatch, q: UserPatch): UserPatch {
    UserPatch(
      q.id.OrElse(p.id),
      q.email.OrElse(p.email),
      q.name.OrElse(p.name),
      q.avatar.OrElse(p.avatar),
      q.preferences.OrElse(p.preferences))
  }

  /** Two successive merges are one merge with the combined update, in which the later keys win. */
  lemma MergeUserComposes(u: User, p: UserPatch, q: UserPatch)
    ensures MergeUser(MergeUser(u, p), q) == MergeUser(u, ThenUser(p, q))
  {
  }

  /** The provider's state: `user`, `isLoading` and the storage it writes. */
  class AuthProvider {
    var user: Option<User>
    var isLoading: bool
    var storage: map<string, Entry>

    /** `isAuthenticated: !!user`. */
    function IsAuthenticated(): bool
      reads this
    {
      user.Some?
    }

    /** Storage and memory agree: a signed-in user is the record stored under "user". */
    ghost predicate StorageMirrorsUser()
      reads this
    {
      user.Some? ==> UserKey in storage && storage[UserKey] == UserJson(user.value)
    }

    /** The provider mounts with nobody signed in and `isLoading` set, over what storage holds. */
    constructor(persisted: map<string, Entry>)
      ensures user == None && isLoading && storage == persisted
      ensures StorageMirrorsUser() && !IsAuthenticated()
    {
      user := None;
      isLoading := true;
      storage := persisted;
    }

    /**
     * `checkAuthState()`, run on mount: a user record found under "user" is
     * signed in; a missing or unreadable one, or a failing read, leaves the
     * state as it was. Loading ends in every case.
     */
    method CheckAuthState(io: StorageBehaviour)
      modifies this
      ensures !isLoading && storage == old(storage)
      ensures user == if io.Succeeds(0) && UserKey in storage && storage[UserKey].UserJson?
                      then Some(storage[UserKey].user) else old(user)
      ensures old(StorageMirrorsUser()) ==> StorageMirrorsUser()
    {
      if io.Succeeds(0) && UserKey in storage {
        var stored := storage[UserKey];
        match stored
        case UserJson(u) => user := Some(u);
        case Other(_) =>
      }
      isLoading := false;
    }

    /**
     * `login(email, password)` with `id` standing for `Date.now().toString()`.
     * It succeeds exactly when the mock check passes and the storage write
     * does not throw; the new user is then signed in and stored, with the
     * email's local part as name and the default preferences. On failure the
     * user and the storage are unchanged. Loading has ended either way.
     */
    method Login(email: string, password: string, id: string, io: StorageBehaviour) returns (ok: bool)
      modifies this
      ensures !isLoading
      ensures ok <==> LoginAccepts(email, password) && io.Succeeds(0)
      ensures ok ==> user == Some(NewUser(id, email, LocalPart(email)))
      ensures ok ==> storage == old(storage)[UserKey := UserJson(NewUser(id, email, LocalPart(email)))]
      ensures ok ==> IsAuthenticated() && StorageMirrorsUser()
      ensures !ok ==> user == old(user) && storage == old(storage)
      ensures old(StorageMirrorsUser()) ==> StorageMirrorsUser()
    {
      isLoading := true;
      ok := false;
      if LoginAccepts(email, password) {
        var userData := NewUser(id, email, LocalPart(email));
        if io.Succeeds(0) {
          storage := storage[UserKey := UserJson(userData)];
          user := Some(userData);
          ok := true;
        }
      }
      isLoading := false;
    }

    /**
     * `register(email, password, name)`: as `login`, with the extra demand of
     * a non-empty name, which is stored as given.
     */
    method Register(email: string, password: string, name: string, id: string, io: StorageBehaviour)
      returns (ok: bool)
      modifies this
      ensures !isLoading
      ensures ok <==> RegisterAccepts(email, password, name) && io.Succeeds(0)
      ensures ok ==> user == Some(NewUser(id, email, name))
      ensures ok ==> storage == old(storage)[UserKey := UserJson(NewUser(id, email, name))]
      ensures ok ==> IsAuthenticated() && StorageMirrorsUser()
      ensures !ok ==> user == old(user) && storage == old(storage)
      ensures old(StorageMirrorsUser()) ==> StorageMirrorsUser()
    {
      isLoading := true;
      ok := false;
      if RegisterAccepts(email, password, name) {
        var userData := NewUser(id, email, name);
        if io.Succeeds(0) {
          storage := storage[UserKey := UserJson(userData)];
          user := Some(userData);
          ok := true;
        }
      }
      isLoading := false;
    }

    /**
     * `logout()`: removes "user", then "sessions", then signs out. A throwing
     * removal stops it there, so a failure on the second call leaves "user"
     * removed and the user still signed in.
     */
    method Logout(io: StorageBehaviour)
      modifies this
      ensures isLoading == old(isLoading)
      ensures io.Succeeds(1) ==> storage == old(storage) - {UserKey, SessionsKey} && user == None
      ensures io.Succeeds(1) ==> !IsAuthenticated() && StorageMirrorsUser()
      ensures io.Succeeds(0) && !io.Succeeds(1) ==> storage == old(storage) - {UserKey} && user == old(user)
      ensures !io.Succeeds(0) ==> storage == old(storage) && user == old(user)
    {
      if io.Succeeds(0) {
        storage := storage - {UserKey};
        if io.Succeeds(1) {
          storage := storage - {SessionsKey};
          user := None;
        }
      }
    }

    /**
     * `updateUser(updates)`: nothing happens when nobody is signed in;
     * otherwise the merged record is stored and becomes the user, unless the
     * storage write throws, which leaves everything as it was.
     */
    method UpdateUser(updates: UserPatch, io: StorageBehaviour)
      modifies this
      ensures isLoading == old(isLoading)
      ensures old(user).None? ==> user == old(user) && storage == old(storage)
      ensures old(user).Some? && io.Succeeds(0) ==>
        && user == Some(MergeUser(old(user).value, updates))
        && storage == old(storage)[UserKey := UserJson(MergeUser(old(user).value, updates))]
        && StorageMirrorsUser()
      ensures old(user).Some? && !io.Succeeds(0) ==> user == old(user) && storage == old(storage)
      ensures old(StorageMirrorsUser()) ==> StorageMirrorsUser()
    {
      if user.Some? {
        var updatedUser := MergeUser(user.value, updates);
        if io.Succeeds(0) {
          storage := storage[UserKey := UserJson(updatedUser)];
          user := Some(updatedUser);
        }
      }
    }
  }

  /**
   * Signing out and then starting the app again: the reloaded provider finds
   * no user record and no session list in storage, so nobody is signed in.
   */
  method ReloadAfterLogout(p: AuthProvider) returns (reloaded: AuthProvider)
    modifies p
    ensures !p.IsAuthenticated()
    ensures UserKey !in reloaded.storage && SessionsKey !in reloaded.storage
    ensures !reloaded.IsAuthenticated() && !reloaded.isLoading
  {
    p.Logout(Reliable);
    reloaded := new AuthProvider(p.storage);
    reloaded.CheckAuthState(Reliable);
  }
}
