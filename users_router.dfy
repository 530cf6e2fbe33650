/** The user-management router. Every handler runs after `get_current_user`
    has resolved the caller, and checks the caller's role (and, for reading
    and updating one user, the caller's own id) before it touches the users
    table. What the user data layer returns is a parameter. */
module UsersRouter {
  import opened Wrappers
  import opened Js
  import opened Http
  import opened UserRouter

  /** The roles with administrative rights. */
  const ADMIN_ROLES: seq<string> := ["admin", "root"]

  /** The 403 of every refused caller. */
  const FORBIDDEN: HttpException := HttpException(403, "权限不足")

  /** The 404 of a user that is not there. */
  const USER_NOT_FOUND: HttpException := HttpException(404, "用户不存在")

  /** `current_user.role in ["admin", "root"]`. */
  predicate IsAdmin(current: User) {
    current.role in ADMIN_ROLES
  }

  /** Administrators may act on any user; everyone else only on themself. */
  predicate MayActOn(current: User, userId: int) {
    IsAdmin(current) || current.id == userId
  }

  /** `read_users`: `listed` is the page `get_users` returns. */
  function ReadUsers(current: User, listed: seq<User>): (r: Reply<seq<User>>)
    ensures r.Ok? <==> current.role == "admin" || current.role == "root"
    ensures r.Ok? ==> r.value == listed
    ensures r.Raise? ==> r.exception == FORBIDDEN
  {
    if !IsAdmin(current) then Raise(FORBIDDEN) else Ok(listed)
  }

  /** `create_new_user`: `created` is the row `create_user` inserts. */
  function CreateNewUser(current: User, created: User): (r: Reply<User>)
    ensures r.Ok? <==> current.role == "admin" || current.role == "root"
    ensures r.Ok? ==> r.value == created
    ensures r.Raise? ==> r.exception == FORBIDDEN
  {
    if !IsAdmin(current) then Raise(FORBIDDEN) else Ok(created)
  }

  /** `read_user`: `found` is what `get_user` returns for `userId`. */
  function ReadUser(current: User, userId: int, found: Option<User>): (r: Reply<User>)
    ensures !MayActOn(current, userId) ==> r == Raise(FORBIDDEN)
    ensures MayActOn(current, userId) && found.None? ==> r == Raise(USER_NOT_FOUND)
    ensures r.Ok? <==> MayActOn(current, userId) && found.Some?
    ensures r.Ok? ==> r.value == found.value
  {
    if !IsAdmin(current) && current.id != userId then Raise(FORBIDDEN)
    else if found.None? then Raise(USER_NOT_FOUND)
    else Ok(found.value)
  }

  /** `update_user_info`: `updated` is what `update_user` returns for
      `userId` (`None` when there is no such user). */
  function UpdateUserInfo(current: User, userId: int, updated: Option<User>): (r: Reply<User>)
    ensures !MayActOn(current, userId) ==> r == Raise(FORBIDDEN)
    ensures MayActOn(current, userId) && updated.None? ==> r == Raise(USER_NOT_FOUND)
    ensures r.Ok? <==> MayActOn(current, userId) && updated.Some?
    ensures r.Ok? ==> r.value == updated.value
  {
    if !IsAdmin(current) && current.id != userId then Raise(FORBIDDEN)
    else if updated.None? then Raise(USER_NOT_FOUND)
    else Ok(updated.value)
  }

  /** `delete_user_by_id`: `success` is what `delete_user` returns. */
  function DeleteUserById(current: User, userId: int, success: bool): (r: Reply<Value>)
    ensures !IsAdmin(current) ==> r == Raise(FORBIDDEN)
    ensures IsAdmin(current) && !success ==> r == Raise(USER_NOT_FOUND)
    ensures r.Ok? <==> IsAdmin(current) && success
    ensures r.Ok? ==> r.value == Obj(map["message" := Str("用户删除成功")])
  {
    if !IsAdmin(current) then Raise(FORBIDDEN)
    else if !success then Raise(USER_NOT_FOUND)
    else Ok(Obj(map["message" := Str("用户删除成功")]))
  }

  /** The role check comes first: a refused caller gets 403 whatever the
      data layer would have answered, so 404 only ever reaches an authorised
      caller. Deleting is for administrators even on one's own id. */
  lemma PermissionPrecedesLookup(current: User, userId: int, a: Option<User>, b: Option<User>, s: bool, t: bool)
    ensures !MayActOn(current, userId) ==> ReadUser(current, userId, a) == ReadUser(current, userId, b)
    ensures !MayActOn(current, userId) ==> UpdateUserInfo(current, userId, a) == UpdateUserInfo(current, userId, b)
    ensures !IsAdmin(current) ==> DeleteUserById(current, userId, s) == DeleteUserById(current, userId, t)
    ensures RaisedWith(ReadUser(current, userId, a), 404) ==> MayActOn(current, userId)
    ensures RaisedWith(UpdateUserInfo(current, userId, a), 404) ==> MayActOn(current, userId)
    ensures RaisedWith(DeleteUserById(current, userId, s), 404) ==> IsAdmin(current)
    ensures !IsAdmin(current) && current.id == userId ==> RaisedWith(DeleteUserById(current, userId, s), 403)
  {
  }

  /** A non-administrator may read and update exactly their own record. */
  lemma SelfServiceOnly(current: User, userId: int, found: User)
    requires !IsAdmin(current)
    ensures ReadUser(current, userId, Some(found)).Ok? <==> userId == current.id
    ensures UpdateUserInfo(current, userId, Some(found)).Ok? <==> userId == current.id
  {
  }
}
