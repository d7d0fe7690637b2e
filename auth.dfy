/**
 * The session container (`AuthProvider`): one state record
 * `{user, isAuthenticated, isLoading, error}` plus the persisted `'user'`
 * slot of local storage. Each operation is one atomic step; the navigation
 * it requests is returned as a path.
 */
module Auth {
  import opened Wrappers
  import opened Types
  import Text

  const CheckAuthError: string := "認証に失敗しました"
  const LoginError: string := "メールアドレスまたはパスワードが正しくありません"
  const RegisterError: string := "登録に失敗しました"
  const UpdateError: string := "ユーザー情報の更新に失敗しました"

  /** The id every mock login and registration hands out. */
  const MockUserId: string := "123"

  /**
   * What `localStorage.getItem('user')` yields: nothing (or the empty
   * string, which the source treats the same), a serialised user, or text
   * that `JSON.parse` rejects.
   */
  datatype Slot = Empty | Holds(user: User) | Corrupt

  /** The mock role rule: `company` exactly when the email mentions "company". */
  function RoleFromEmail(email: string): (r: UserType)
    ensures r == Company <==> Text.Contains(email, "company")
    ensures r == Student <==> !Text.Contains(email, "company")
  {
    if Text.Contains(email, "company") then Company else Student
  }

  /** The user record `login` builds from an email address at time `now`. */
  function LoginUser(email: string, now: Timestamp): (u: User)
    ensures u.email == email && u.id == MockUserId
    ensures |u.name| <= |email| && u.name == email[..|u.name|] && '@' !in u.name
    ensures |u.name| < |email| ==> email[|u.name|] == '@'
    ensures '@' !in email ==> u.name == email
    ensures u.userType == Company <==> Text.Contains(email, "company")
    ensures u.userType != Admin
    ensures u.createdAt == now && u.updatedAt == now
  {
    User(MockUserId, email, Text.PrefixBefore(email, '@'), RoleFromEmail(email), now, now)
  }

  /** The user record `register` builds. */
  function RegisteredUser(email: string, name: string, userType: UserType, now: Timestamp): User {
    User(MockUserId, email, name, userType, now, now)
  }

  /** Where `login` sends a user of each role. */
  function LoginTarget(t: UserType): Option<string> {
    match t
    case Student => Some("/学生/ダッシュボード")
    case Company => Some("/企業/ダッシュボード")
    case Admin => None
  }

  /** Where `register` sends a user of each role. */
  function RegisterTarget(t: UserType): Option<string> {
    match t
    case Student => Some("/学生/プロフィール")
    case Company => Some("/企業/プロフィール")
    case Admin => None
  }

  /** `Partial<User>`: the fields an update supplies. */
  datatype UserPatch = UserPatch(
    id: Option<string>,
    email: Option<string>,
    name: Option<string>,
    userType: Option<UserType>,
    createdAt: Option<Timestamp>,
    updatedAt: Option<Timestamp>)

  /** `{...base, ...patch, updatedAt: now}`. */
  function Merge(base: User, patch: UserPatch, now: Timestamp): User {
    User(
      patch.id.GetOr(base.id),
      patch.email.GetOr(base.email),
      patch.name.GetOr(base.name),
      patch.userType.GetOr(base.userType),
      patch.createdAt.GetOr(base.createdAt),
      now)
  }

  /** Applying `p` and then `q` is applying `q` over `p`, with the later time. */
  function Overlay(p: UserPatch, q: UserPatch): UserPatch {
    UserPatch(
      if q.id.Some? then q.id else p.id,
      if q.email.Some? then q.email else p.email,
      if q.name.Some? then q.name else p.name,
      if q.userType.Some? then q.userType else p.userType,
      if q.createdAt.Some? then q.createdAt else p.createdAt,
      if q.updatedAt.Some? then q.updatedAt else p.updatedAt)
  }

  /**
   * The merge overrides exactly the supplied fields and always replaces
   * `updatedAt`, whatever the patch says about it.
   */
  lemma MergeFields(base: User, patch: UserPatch, now: Timestamp)
    ensures var u := Merge(base, patch, now);
      && u.updatedAt == now
      && (patch.id.Some? ==> u.id == patch.id.value) && (patch.id.None? ==> u.id == base.id)
      && (patch.email.Some? ==> u.email == patch.email.value) && (patch.email.None? ==> u.email == base.email)
      && (patch.name.Some? ==> u.name == patch.name.value) && (patch.name.None? ==> u.name == base.name)
      && (patch.userType.Some? ==> u.userType == patch.userType.value)
      && (patch.userType.None? ==> u.userType == base.userType)
      && (patch.createdAt.Some? ==> u.createdAt == patch.createdAt.value)
      && (patch.createdAt.None? ==> u.createdAt == base.createdAt)
  {
  }

  /** Two successive updates equal one update with the overlaid fields. */
  lemma MergeTwice(base: User, p: UserPatch, q: UserPatch, t1: Timestamp, t2: Timestamp)
    ensures Merge(Merge(base, p, t1), q, t2) == Merge(base, Overlay(p, q), t2)
  {
  }

  /**
   * The base a merge starts from. With no user the source spreads `null`,
   * which contributes no fields; the model fills those fields from a blank
   * record.
   */
  function BaseOf(user: Option<User>): User {
    user.GetOr(User("", "", "", Student, 0, 0))
  }

  class AuthProvider {
    var user: Option<User>
    var isAuthenticated: bool
    var isLoading: bool
    var error: Option<string>
    /** The `'user'` entry of local storage. */
    var stored: Slot

    /** Session invariant: authenticated exactly when a user is present. */
    predicate Consistent()
      reads this
    {
      isAuthenticated <==> user.Some?
    }

    /** The initial state: anonymous, loading, no error; storage is whatever the browser holds. */
    constructor (slot: Slot)
      ensures user == None && !isAuthenticated && isLoading && error == None
      ensures stored == slot
      ensures Consistent()
    {
      user, isAuthenticated, isLoading, error := None, false, true, None;
      stored := slot;
    }

    /** The start-up effect: rebuild the session from storage. */
    method CheckAuth()
      modifies this
      ensures stored == old(stored)
      ensures old(stored).Holds? ==>
        user == Some(old(stored).user) && isAuthenticated && !isLoading && error == None
      ensures old(stored).Empty? ==>
        user == old(user) && isAuthenticated == old(isAuthenticated) && !isLoading && error == old(error)
      ensures old(stored).Corrupt? ==>
        user == None && !isAuthenticated && !isLoading && error == Some(CheckAuthError)
      ensures old(Consistent()) ==> Consistent()
    {
      match stored
      case Holds(u) =>
        user, isAuthenticated, isLoading, error := Some(u), true, false, None;
      case Empty =>
        isLoading := false;
      case Corrupt =>
        user, isAuthenticated, isLoading, error := None, false, false, Some(CheckAuthError);
    }

    /**
     * `login(email, password)`. The password is not looked at. `writeFails`
     * stands for `localStorage.setItem` throwing, the one failure the `try`
     * can catch; the catch restores the record as it was before the call,
     * with loading off and the login error.
     */
    method Login(email: string, password: string, now: Timestamp, writeFails: bool)
      returns (nav: Option<string>)
      modifies this
      ensures !writeFails ==>
        && user == Some(LoginUser(email, now))
        && stored == Holds(LoginUser(email, now))
        && isAuthenticated && !isLoading && error == None
        && nav == LoginTarget(LoginUser(email, now).userType)
      ensures writeFails ==>
        && user == old(user) && isAuthenticated == old(isAuthenticated)
        && !isLoading && error == Some(LoginError)
        && stored == old(stored) && nav == None
      ensures old(Consistent()) ==> Consistent()
    {
      nav := None;
      if writeFails {
        isLoading, error := false, Some(LoginError);
        return;
      }
      var mockUser := LoginUser(email, now);
      stored := Holds(mockUser);
      user, isAuthenticated, isLoading, error := Some(mockUser), true, false, None;
      nav := LoginTarget(mockUser.userType);
    }

    /** `register(email, password, name, userType)`; failure as for `Login`. */
    method Register(email: string, password: string, name: string, userType: UserType,
                    now: Timestamp, writeFails: bool)
      returns (nav: Option<string>)
      modifies this
      ensures !writeFails ==>
        && user == Some(RegisteredUser(email, name, userType, now))
        && stored == Holds(RegisteredUser(email, name, userType, now))
        && isAuthenticated && !isLoading && error == None
        && nav == RegisterTarget(userType)
      ensures writeFails ==>
        && user == old(user) && isAuthenticated == old(isAuthenticated)
        && !isLoading && error == Some(RegisterError)
        && stored == old(stored) && nav == None
      ensures old(Consistent()) ==> Consistent()
    {
      nav := None;
      if writeFails {
        isLoading, error := false, Some(RegisterError);
        return;
      }
      var mockUser := RegisteredUser(email, name, userType, now);
      stored := Holds(mockUser);
      user, isAuthenticated, isLoading, error := Some(mockUser), true, false, None;
      nav := RegisterTarget(userType);
    }

    /** `logout()`, from any state. */
    method Logout() returns (nav: string)
      modifies this
      ensures stored == Empty
      ensures user == None && !isAuthenticated && !isLoading && error == None
      ensures nav == "/"
      ensures Consistent()
    {
      stored := Empty;
      user, isAuthenticated, isLoading, error := None, false, false, None;
      nav := "/";
    }

    /**
     * `updateUser(fields)` as written: there is no check that a user is
     * present, and neither `isAuthenticated` nor `error` is touched.
     */
    method UpdateUser(patch: UserPatch, now: Timestamp, writeFails: bool)
      modifies this
      ensures isAuthenticated == old(isAuthenticated) && !isLoading
      ensures !writeFails ==>
        && user == Some(Merge(BaseOf(old(user)), patch, now))
        && stored == Holds(Merge(BaseOf(old(user)), patch, now))
        && error == old(error)
      ensures writeFails ==>
        user == old(user) && stored == old(stored) && error == Some(UpdateError)
      ensures old(user).Some? && old(Consistent()) ==> Consistent()
    {
      if writeFails {
        isLoading, error := false, Some(UpdateError);
        return;
      }
      var updated := Merge(BaseOf(user), patch, now);
      stored := Holds(updated);
      user, isLoading := Some(updated), false;
    }

    /**
     * `updateUser` with a guard that rejects an update when no user is
     * present: without a user it fails with the update error and changes
     * nothing else.
     */
    method UpdateUserChecked(patch: UserPatch, now: Timestamp, writeFails: bool)
      modifies this
      ensures isAuthenticated == old(isAuthenticated) && !isLoading
      ensures old(user).None? ==>
        user == None && stored == old(stored) && error == Some(UpdateError)
      ensures old(user).Some? && !writeFails ==>
        && user == Some(Merge(old(user).value, patch, now))
        && stored == Holds(Merge(old(user).value, patch, now))
        && error == old(error)
      ensures old(user).Some? && writeFails ==>
        user == old(user) && stored == old(stored) && error == Some(UpdateError)
      ensures old(Consistent()) ==> Consistent()
    {
      if user.None? || writeFails {
        isLoading, error := false, Some(UpdateError);
        return;
      }
      var updated := Merge(user.value, patch, now);
      stored := Holds(updated);
      user, isLoading := Some(updated), false;
    }
  }

  /**
   * A login persists the user so that a new container started over the same
   * storage (a page reload) restores the identical, authenticated session.
   */
  method LoginThenReload(email: string, password: string, now: Timestamp, initial: Slot)
    returns (loggedIn: Option<User>, restored: Option<User>, restoredAuth: bool, nav: Option<string>)
    ensures loggedIn == Some(LoginUser(email, now))
    ensures restored == loggedIn && restoredAuth
    ensures nav == if Text.Contains(email, "company") then Some("/企業/ダッシュボード")
                   else Some("/学生/ダッシュボード")
  {
    var session := new AuthProvider(initial);
    session.CheckAuth();
    nav := session.Login(email, password, now, false);
    loggedIn := session.user;
    var reloaded := new AuthProvider(session.stored);
    reloaded.CheckAuth();
    restored, restoredAuth := reloaded.user, reloaded.isAuthenticated;
  }

  /** The same round trip for a registration. */
  method RegisterThenReload(email: string, password: string, name: string, userType: UserType,
                            now: Timestamp, initial: Slot)
    returns (registered: Option<User>, restored: Option<User>, restoredAuth: bool)
    ensures registered == Some(User(MockUserId, email, name, userType, now, now))
    ensures restored == registered && restoredAuth
  {
    var session := new AuthProvider(initial);
    session.CheckAuth();
    var _ := session.Register(email, password, name, userType, now, false);
    registered := session.user;
    var reloaded := new AuthProvider(session.stored);
    reloaded.CheckAuth();
    restored, restoredAuth := reloaded.user, reloaded.isAuthenticated;
  }

  /** After a logout a reload starts anonymous: the stored user is gone. */
  method LogoutThenReload(initial: Slot) returns (restored: Option<User>, restoredAuth: bool, restoredError: Option<string>)
    ensures restored == None && !restoredAuth && restoredError == None
  {
    var session := new AuthProvider(initial);
    session.CheckAuth();
    var _ := session.Logout();
    var reloaded := new AuthProvider(session.stored);
    reloaded.CheckAuth();
    restored, restoredAuth, restoredError := reloaded.user, reloaded.isAuthenticated, reloaded.error;
  }

  /** Corrupt storage ends start-up anonymous, not loading, with the generic error. */
  method StartWithCorruptStorage() returns (user: Option<User>, isAuthenticated: bool, isLoading: bool, error: Option<string>)
    ensures user == None && !isAuthenticated && !isLoading && error == Some(CheckAuthError)
  {
    var session := new AuthProvider(Corrupt);
    session.CheckAuth();
    user, isAuthenticated, isLoading, error := session.user, session.isAuthenticated, session.isLoading, session.error;
  }

  /**
   * As written, updating while anonymous installs a user although the
   * session stays unauthenticated, breaking the session invariant.
   */
  method UpdateWhileAnonymous(patch: UserPatch, now: Timestamp)
    returns (user: Option<User>, isAuthenticated: bool, error: Option<string>)
    ensures user.Some? && !isAuthenticated && error == None
    ensures user.value.updatedAt == now
  {
    var session := new AuthProvider(Empty);
    session.CheckAuth();
    session.UpdateUser(patch, now, false);
    user, isAuthenticated, error := session.user, session.isAuthenticated, session.error;
  }

  /** With the guard, the same call leaves the session anonymous and reports the error. */
  method UpdateWhileAnonymousChecked(patch: UserPatch, now: Timestamp)
    returns (user: Option<User>, isAuthenticated: bool, error: Option<string>)
    ensures user == None && !isAuthenticated && error == Some(UpdateError)
  {
    var session := new AuthProvider(Empty);
    session.CheckAuth();
    session.UpdateUserChecked(patch, now, false);
    user, isAuthenticated, error := session.user, session.isAuthenticated, session.error;
  }
}
