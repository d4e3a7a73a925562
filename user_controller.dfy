/**
 * backend/controllers/userController.js: the admin's user list, the role
 * change with its whitelist and the delete with its self-protection guard.
 * The users collection is kept in creation order.
 */
module UserController {
  import opened Wrappers
  import opened Ids
  import opened Paging
  import opened Collections

  datatype User = User(id: Id, name: string, email: string, role: string, createdAt: nat)

  datatype UserError = InvalidRole | UserNotFound | CannotDeleteSelf

  /** `['user', 'admin'].includes(role)` */
  predicate AllowedRole(role: string) {
    role == "user" || role == "admin"
  }

  /** `User.findById`: the position of the user with that id. */
  function FindUser(users: seq<User>, id: Id): (r: Option<nat>)
    ensures r.Some? ==> r.value < |users| && users[r.value].id == id
                        && forall k :: 0 <= k < r.value ==> users[k].id != id
    ensures r.None? <==> forall k :: 0 <= k < |users| ==> users[k].id != id
  {
    if users == [] then None
    else if users[0].id == id then Some(0)
    else match FindUser(users[1..], id)
      case None => None
      case Some(k) => Some(k + 1)
  }

  class UserDb {
    var users: seq<User>

    constructor (users: seq<User>)
      ensures this.users == users
    {
      this.users := users;
    }

    /**
     * `updateUserRole`: a role outside the whitelist is 400 before any lookup,
     * an unknown id is 404, and otherwise only that user's role changes.
     */
    method UpdateUserRole(id: Id, role: string) returns (r: Result<User, UserError>)
      modifies this
      ensures !AllowedRole(role) ==> r == Err(InvalidRole) && users == old(users)
      ensures AllowedRole(role) && FindUser(old(users), id).None? ==> r == Err(UserNotFound) && users == old(users)
      ensures AllowedRole(role) && FindUser(old(users), id).Some? ==>
        var i := FindUser(old(users), id).value;
        && users == old(users)[i := old(users)[i].(role := role)]
        && r == Ok(users[i])
    {
      if !AllowedRole(role) {
        return Err(InvalidRole);
      }
      var found := FindUser(users, id);
      if found.None? {
        return Err(UserNotFound);
      }
      var user := users[found.value];
      user := user.(role := role);
      users := users[found.value := user];
      r := Ok(user);
    }

    /**
     * `deleteUser`: an unknown id is 404; the caller's own account is 400 and
     * stays; any other user is removed, the rest keeping their order.
     */
    method DeleteUser(id: Id, caller: Id) returns (r: Result<User, UserError>)
      modifies this
      ensures FindUser(old(users), id).None? ==> r == Err(UserNotFound) && users == old(users)
      ensures FindUser(old(users), id).Some? && id == caller ==> r == Err(CannotDeleteSelf) && users == old(users)
      ensures FindUser(old(users), id).Some? && id != caller ==>
        var i := FindUser(old(users), id).value;
        && users == old(users)[..i] + old(users)[i + 1..]
        && r == Ok(old(users)[i])
    {
      var found := FindUser(users, id);
      if found.None? {
        return Err(UserNotFound);
      }
      var user := users[found.value];
      if user.id == caller {
        return Err(CannotDeleteSelf);
      }
      users := users[..found.value] + users[found.value + 1..];
      r := Ok(user);
    }
  }

  /** The query string of `GET /api/users`; `""` is an absent role. */
  datatype UserQuery = UserQuery(page: Option<nat>, limit: Option<nat>, role: string)

  datatype UserPage = UserPage(users: seq<User>, currentPage: nat, totalPages: nat, totalUsers: nat)

  function RoleMatches(role: string, u: User): bool {
    role == "" || u.role == role
  }

  /** The users of the requested role (all when none is given), newest first. */
  function ByRole(users: seq<User>, role: string): seq<User> {
    Reverse(Collections.Filter(users, u => RoleMatches(role, u)))
  }

  /** `getUsers`: page 1 and limit 10 by default; the exact role when one is given; newest first. */
  function GetUsers(users: seq<User>, q: UserQuery): UserPage
    requires q.page.GetOr(1) >= 1 && q.limit.GetOr(10) >= 1
  {
    var page := q.page.GetOr(1);
    var limit := q.limit.GetOr(10);
    var matching := ByRole(users, q.role);
    UserPage(Window(matching, Skip(page, limit), limit), page, TotalPages(|matching|, limit), |matching|)
  }

  /** The role selection counts the users of the role and holds only stored users of it. */
  lemma ByRoleSpec(users: seq<User>, role: string)
    ensures |ByRole(users, role)| == Count(users, u => RoleMatches(role, u))
    ensures role == "" ==> |ByRole(users, role)| == |users|
    ensures forall k :: 0 <= k < |ByRole(users, role)| ==>
              ByRole(users, role)[k] in users && RoleMatches(role, ByRole(users, role)[k])
  {
    var p := u => RoleMatches(role, u);
    ReverseFilterSpec(users, p);
    if role == "" {
      FilterAll(users, p);
    }
  }

  /**
   * The user list: at most `limit` users, each a stored user of the requested
   * role; the count is of all users of that role, and without a role of all users.
   */
  lemma GetUsersSpec(users: seq<User>, q: UserQuery)
    requires q.page.GetOr(1) >= 1 && q.limit.GetOr(10) >= 1
    ensures
      var r := GetUsers(users, q);
      && |r.users| <= q.limit.GetOr(10)
      && r.currentPage == q.page.GetOr(1)
      && r.totalUsers == Count(users, u => RoleMatches(q.role, u))
      && r.totalPages == TotalPages(r.totalUsers, q.limit.GetOr(10))
      && (q.role == "" ==> r.totalUsers == |users|)
      && forall k :: 0 <= k < |r.users| ==> r.users[k] in users && (q.role != "" ==> r.users[k].role == q.role)
  {
    ByRoleSpec(users, q.role);
    var matching := ByRole(users, q.role);
    var r := GetUsers(users, q);
    forall k | 0 <= k < |r.users|
      ensures r.users[k] in users && RoleMatches(q.role, r.users[k])
    {
      assert r.users[k] == matching[Skip(q.page.GetOr(1), q.limit.GetOr(10)) + k];
    }
  }

  /** The defaults: a bare request lists the ten newest users. */
  lemma DefaultPage(users: seq<User>)
    ensures GetUsers(users, UserQuery(None, None, "")).users == Window(Reverse(users), 0, 10)
  {
    FilterAll(users, u => RoleMatches("", u));
  }
}
