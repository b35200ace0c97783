/**
 * The role checks of the `useAuth` composable. The session holds the
 * current user (or none); every check is computed from it. A user's role
 * counts only when it is present and not empty (`rol || null`).
 */
module Auth {
  import opened Common

  /** The stored user record; only its role matters to the checks. */
  datatype User = User(id: int, username: string, rol: Option<string>)

  const Admin: string := "admin"
  const StandardUser: string := "user"
  const LimitedUser: string := "limited_user"
  const Reader: string := "reader"

  /** The four roles the application defines. */
  const Roles: seq<string> := [Admin, StandardUser, LimitedUser, Reader]

  /** `!!currentUser`: a user is loaded. */
  function IsAuthenticated(user: Option<User>): (b: bool)
    ensures b <==> user != None
  {
    user.Some?
  }

  /** `currentUser?.rol || null`: no role without a user, and an empty role is no role. */
  function UserRole(user: Option<User>): (r: Option<string>)
    ensures r.Some? ==> IsAuthenticated(user) && r.value != "" && user.value.rol == r
    ensures r.None? <==> user.None? || user.value.rol.None? || user.value.rol == Some("")
  {
    match user
    case None => None
    case Some(u) => if u.rol.Some? && u.rol.value != "" then u.rol else None
  }

  /** `userRole === role` (a role of `null` is "no role"). */
  function HasRole(user: Option<User>, role: Option<string>): bool
  {
    UserRole(user) == role
  }

  /** No role, no access; otherwise the role must be listed. */
  function HasAnyRole(user: Option<User>, roles: seq<string>): (b: bool)
    ensures b ==> IsAuthenticated(user)
    ensures b <==> exists i :: 0 <= i < |roles| && HasRole(user, Some(roles[i]))
  {
    match UserRole(user)
    case None => false
    case Some(r) => r in roles
  }

  function IsAdmin(user: Option<User>): bool
  {
    HasRole(user, Some(Admin))
  }

  function IsUser(user: Option<User>): bool
  {
    HasAnyRole(user, [Admin, StandardUser])
  }

  function CanRead(user: Option<User>): bool
  {
    HasAnyRole(user, Roles)
  }

  /** The role hierarchy: an administrator is a standard user, and a standard user can read. */
  lemma RoleChain(user: Option<User>)
    ensures IsAdmin(user) ==> IsUser(user)
    ensures IsUser(user) ==> CanRead(user)
    ensures CanRead(user) ==> IsAuthenticated(user)
  {
    if IsAdmin(user) {
      assert HasRole(user, Some([Admin, StandardUser][0]));
    }
  }

  /** Reading is allowed exactly for the four defined roles. */
  lemma CanReadExactly(user: Option<User>)
    ensures CanRead(user) <==> UserRole(user) in {Some(Admin), Some(StandardUser), Some(LimitedUser), Some(Reader)}
  {
  }

  /** A standard user is exactly an administrator or a user. */
  lemma IsUserExactly(user: Option<User>)
    ensures IsUser(user) <==> UserRole(user) == Some(Admin) || UserRole(user) == Some(StandardUser)
  {
  }

  /** An empty list of roles admits nobody. */
  lemma NoRolesNoAccess(user: Option<User>)
    ensures !HasAnyRole(user, [])
  {
  }

  /**
   * Without a user, or with an empty role, every check fails except asking
   * whether the role is `null`.
   */
  lemma NoRoleChecks(user: Option<User>, role: string, roles: seq<string>)
    requires UserRole(user).None?
    ensures !HasRole(user, Some(role)) && HasRole(user, None)
    ensures !HasAnyRole(user, roles) && !IsAdmin(user) && !IsUser(user) && !CanRead(user)
  {
  }

  /** The signed-in user of the page: the `currentUser` reference. */
  class Session {
    var currentUser: Option<User>

    constructor ()
      ensures currentUser == None
    {
      currentUser := None;
    }

    /**
     * `loadUser`: the text stored under `user` in local storage, else in
     * session storage (an empty text counts as missing), decoded by
     * `decode` (JSON parsing, outside this model; a failure clears the
     * user). With nothing stored the current user stays as it is.
     */
    method LoadUser(local: Option<string>, session: Option<string>, decode: string -> Result<Option<User>>)
      modifies this
      ensures var stored := if local.Some? && local.value != "" then local else session;
        if stored.None? || stored.value == "" then currentUser == old(currentUser)
        else currentUser == (match decode(stored.value) case Success(u) => u case Failure(_) => None)
    {
      var user := local;
      if user.None? || user.value == "" {
        user := session;
      }
      if user.Some? && user.value != "" {
        match decode(user.value)
        case Success(u) => currentUser := u;
        case Failure(_) => currentUser := None;
      }
    }

    /** `logout`: the user is cleared, so every check fails afterwards. */
    method Logout()
      modifies this
      ensures currentUser == None
      ensures !IsAuthenticated(currentUser) && !CanRead(currentUser)
    {
      currentUser := None;
    }
  }
}
