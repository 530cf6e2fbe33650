/** The authentication router: resolving the caller from a token, login,
    registration, the profile read and update, and logout. The users table is
    a sequence of rows; the password check, the token signature and the
    row update of the user data layer are parameters. */
module UserRouter {
  import opened Wrappers
  import opened Js
  import opened Http
  import opened Response

  /** A row of the users table. The nullable profile columns (`full_name`,
      `avatar`, ... , `certification`) are held by column name; one that is
      not set reads as `null`. `createdAt` is the ISO text of `created_at`. */
  datatype User = User(id: int, username: string, email: string, isActive: bool, role: string,
                       createdAt: Option<string>, columns: map<string, Value>)

  /** A registration request: the keys the duplicate checks read. */
  datatype Registration = Registration(username: string, email: string)

  /** A profile column of a row. */
  function Column(u: User, name: string): Value {
    if name in u.columns then u.columns[name] else Null
  }

  /** `get_user_by_username`: the first row with that username. */
  function ByUsername(users: seq<User>, name: string): (found: Option<User>)
    ensures found.None? <==> forall u :: u in users ==> u.username != name
    ensures found.Some? ==> found.value in users && found.value.username == name
    // No earlier row holds it.
    ensures found.Some? ==> exists j :: 0 <= j < |users| && users[j] == found.value &&
                                        forall k :: 0 <= k < j ==> users[k].username != name
  {
    if users == [] then None
    else if users[0].username == name then Some(users[0])
    else ByUsername(users[1..], name)
  }

  /** `get_user_by_email`: the first row with that email. */
  function ByEmail(users: seq<User>, email: string): (found: Option<User>)
    ensures found.None? <==> forall u :: u in users ==> u.email != email
    ensures found.Some? ==> found.value in users && found.value.email == email
    // No earlier row holds it.
    ensures found.Some? ==> exists j :: 0 <= j < |users| && users[j] == found.value &&
                                        forall k :: 0 <= k < j ==> users[k].email != email
  {
    if users == [] then None
    else if users[0].email == email then Some(users[0])
    else ByEmail(users[1..], email)
  }

  /** Usernames are unique in the table. */
  predicate UniqueUsernames(users: seq<User>) {
    forall i, j :: 0 <= i < |users| && 0 <= j < |users| && users[i].username == users[j].username ==> i == j
  }

  /** The 401 raised for every unusable credential. */
  const CREDENTIALS_ERROR: HttpException := HttpException(401, "无效的认证凭据")

  /** `get_current_user`: `payload` is what `verify_token` yields for the
      bearer token (`None` when it is invalid). A `sub` that is missing or
      `null` is refused, as is one naming no user; a `sub` that is not a
      string names no user, usernames being strings. */
  function GetCurrentUser(payload: Option<map<string, Value>>, users: seq<User>): (r: Reply<User>)
    ensures r.Ok? <==> payload.Some? && "sub" in payload.value && payload.value["sub"].Str? &&
                       exists u :: u in users && u.username == payload.value["sub"].s
    ensures r.Ok? ==> r.value in users && Str(r.value.username) == payload.value["sub"]
    ensures r.Raise? ==> r.exception == CREDENTIALS_ERROR
  {
    if payload.None? then Raise(CREDENTIALS_ERROR)
    else
      var sub := if "sub" in payload.value then payload.value["sub"] else Null;
      if sub.Null? || !sub.Str? then Raise(CREDENTIALS_ERROR)
      else match ByUsername(users, sub.s)
        case None => Raise(CREDENTIALS_ERROR)
        case Some(u) => Ok(u)
  }

  /** The claims a login token is signed over. */
  function IssuedClaims(u: User): map<string, Value> {
    map["sub" := Str(u.username)]
  }

  /** A token issued at login resolves back to the same user, as long as it
      still verifies and usernames are unique. */
  lemma IssuedTokenIdentifiesUser(u: User, users: seq<User>)
    requires u in users && UniqueUsernames(users)
    ensures GetCurrentUser(Some(IssuedClaims(u)), users) == Ok(u)
  {
    var r := GetCurrentUser(Some(IssuedClaims(u)), users);
    assert r.Ok?;
    var i :| 0 <= i < |users| && users[i] == r.value;
    var j :| 0 <= j < |users| && users[j] == u;
    assert users[i].username == users[j].username;
  }

  /** `user.full_name or user.username`. */
  function DisplayName(u: User): (name: Value)
    ensures Truthy(Column(u, "full_name")) ==> name == Column(u, "full_name")
    ensures !Truthy(Column(u, "full_name")) ==> name == Str(u.username)
  {
    Or(Column(u, "full_name"), Str(u.username))
  }

  /** The keys of the user payload. */
  const INFO_KEYS: set<string> :=
    {"name", "avatar", "job", "organization", "location", "email", "introduction", "personalWebsite",
     "jobName", "organizationName", "locationName", "phone", "registrationDate", "accountId",
     "certification", "role"}

  /** The column a profile key of the payload is read from. */
  function ColumnOf(key: string): string {
    if key == "personalWebsite" then "personal_website"
    else if key == "jobName" then "job_name"
    else if key == "organizationName" then "organization_name"
    else if key == "locationName" then "location_name"
    else key
  }

  /** The value of one key of the user payload. */
  function InfoValue(u: User, key: string): Value {
    if key == "name" then DisplayName(u)
    else if key == "email" then Str(u.email)
    else if key == "registrationDate" then (if u.createdAt.Some? then Str(u.createdAt.value) else Null)
    else if key == "accountId" then Num(u.id)
    else if key == "role" then Str(u.role)
    else Column(u, ColumnOf(key))
  }

  /** The user payload of login, `/info` and `/profile`. */
  function UserInfoJson(u: User): (info: Value)
    ensures info.Obj? && info.fields.Keys == INFO_KEYS
  {
    Obj(map key | key in INFO_KEYS :: InfoValue(u, key))
  }

  /** The identity fields of the payload: the display name, the email, the
      id, the role and the creation time. */
  lemma UserInfoIdentity(u: User)
    ensures var info := UserInfoJson(u);
            && Get(info, "name") == DisplayName(u) && Get(info, "email") == Str(u.email)
            && Get(info, "accountId") == Num(u.id) && Get(info, "role") == Str(u.role)
            && Get(info, "registrationDate") == (if u.createdAt.Some? then Str(u.createdAt.value) else Null)
  {
  }

  /** The profile fields of the payload, each read from its column. */
  lemma UserInfoColumns(u: User)
    ensures var info := UserInfoJson(u);
            && Get(info, "avatar") == Column(u, "avatar") && Get(info, "job") == Column(u, "job")
            && Get(info, "organization") == Column(u, "organization") && Get(info, "location") == Column(u, "location")
            && Get(info, "introduction") == Column(u, "introduction")
            && Get(info, "personalWebsite") == Column(u, "personal_website")
            && Get(info, "jobName") == Column(u, "job_name")
            && Get(info, "organizationName") == Column(u, "organization_name")
            && Get(info, "locationName") == Column(u, "location_name")
            && Get(info, "phone") == Column(u, "phone") && Get(info, "certification") == Column(u, "certification")
  {
  }

  /** The login success body. */
  function LoginBody(u: User, accessToken: string): (body: Value)
    ensures FromDict(body) == Some(ResponseModel(SUCCESS, "登录成功",
              Obj(map["token" := Str(accessToken), "userInfo" := UserInfoJson(u)])))
  {
    SuccessResponse(Obj(map["token" := Str(accessToken), "userInfo" := UserInfoJson(u)]), "登录成功")
  }

  /** `login_for_access_token`: `auth` is what `authenticate_user` yields for
      the submitted credentials, and `accessToken` the token signed over
      `IssuedClaims` of that user. Bad credentials are refused before an
      inactive account is. */
  function LoginForAccessToken(auth: Option<User>, accessToken: string): (r: Reply<Value>)
    ensures auth.None? ==> r == Raise(HttpException(401, "用户名或密码错误"))
    ensures auth.Some? && !auth.value.isActive ==> r == Raise(HttpException(400, "用户已被禁用"))
    ensures r.Ok? <==> auth.Some? && auth.value.isActive
    ensures r.Ok? ==> r.value == LoginBody(auth.value, accessToken)
    ensures r.Ok? ==> Get(Get(Get(r.value, "data"), "userInfo"), "role") == Str(auth.value.role)
    ensures r.Ok? ==> Get(Get(r.value, "data"), "token") == Str(accessToken)
  {
    if auth.None? then Raise(HttpException(401, "用户名或密码错误"))
    else if !auth.value.isActive then Raise(HttpException(400, "用户已被禁用"))
    else
      UserInfoIdentity(auth.value);
      Ok(LoginBody(auth.value, accessToken))
  }

  /** `register`: a taken username is refused before the email is looked
      at; `created` is the row `create_user` inserts. */
  function Register(req: Registration, users: seq<User>, created: User): (r: Reply<User>)
    ensures (exists u :: u in users && u.username == req.username) ==>
              r == Raise(HttpException(400, "用户名已存在"))
    ensures (forall u :: u in users ==> u.username != req.username) &&
            (exists u :: u in users && u.email == req.email) ==>
              r == Raise(HttpException(400, "邮箱已存在"))
    ensures r.Ok? <==> forall u :: u in users ==> u.username != req.username && u.email != req.email
    ensures r.Ok? ==> r.value == created
  {
    if ByUsername(users, req.username).Some? then Raise(HttpException(400, "用户名已存在"))
    else if ByEmail(users, req.email).Some? then Raise(HttpException(400, "邮箱已存在"))
    else Ok(created)
  }

  /** `/info`: the current user's payload in a success envelope. */
  function GetUserInfo(current: User): (body: Value)
    ensures FromDict(body) == Some(ResponseModel(SUCCESS, "获取成功", UserInfoJson(current)))
  {
    SuccessResponse(UserInfoJson(current), "获取成功")
  }

  /** `/logout`: a plain message, not an envelope. */
  function LogoutReply(): (body: Value)
    ensures Get(body, "code") == Undefined && Get(body, "message") == Str("登出成功")
    ensures FromDict(body).None?
  {
    Obj(map["message" := Str("登出成功")])
  }

  /** `/logout` as evidently meant: the message in a success envelope. */
  function LogoutEnvelope(): (body: Value)
    ensures FromDict(body) == Some(ResponseModel(SUCCESS, "登出成功", Null))
  {
    SuccessResponse(Null, "登出成功")
  }

  /** The profile keys `/profile` accepts and the columns they are written to. */
  const FIELD_MAPPING: seq<(string, string)> :=
    [("name", "full_name"), ("avatar", "avatar"), ("job", "job"), ("organization", "organization"),
     ("location", "location"), ("introduction", "introduction"), ("personalWebsite", "personal_website"),
     ("jobName", "job_name"), ("organizationName", "organization_name"), ("locationName", "location_name"),
     ("phone", "phone"), ("certification", "certification")]

  /** The columns `/profile` can write. */
  const UPDATABLE_COLUMNS: set<string> :=
    {"full_name", "avatar", "job", "organization", "location", "introduction", "personal_website",
     "job_name", "organization_name", "location_name", "phone", "certification"}

  /** The update built from the first pairs of a mapping, in their order. */
  function MappedInto(pairs: seq<(string, string)>, profile: map<string, Value>): map<string, Value> {
    if pairs == [] then map[]
    else
      var prev := MappedInto(pairs[..|pairs| - 1], profile);
      var pair := pairs[|pairs| - 1];
      if pair.0 in profile then prev[pair.1 := profile[pair.0]] else prev
  }

  /** The columns of a mapping are pairwise distinct. */
  predicate DistinctColumns(pairs: seq<(string, string)>) {
    forall j, k :: 0 <= j < k < |pairs| ==> pairs[j].1 != pairs[k].1
  }

  /** The update holds exactly the columns of the pairs whose key is present,
      each with that key's value. */
  lemma {:induction false} MappedIntoSpec(pairs: seq<(string, string)>, profile: map<string, Value>)
    requires DistinctColumns(pairs)
    ensures forall c :: c in MappedInto(pairs, profile) <==>
                        exists j :: 0 <= j < |pairs| && pairs[j].1 == c && pairs[j].0 in profile
    ensures forall j :: 0 <= j < |pairs| && pairs[j].0 in profile ==>
                        pairs[j].1 in MappedInto(pairs, profile) &&
                        MappedInto(pairs, profile)[pairs[j].1] == profile[pairs[j].0]
    decreases |pairs|
  {
    if pairs != [] {
      var init := pairs[..|pairs| - 1];
      assert DistinctColumns(init) by {
        forall j, k | 0 <= j < k < |init| ensures init[j].1 != init[k].1 {
          assert init[j] == pairs[j] && init[k] == pairs[k];
        }
      }
      MappedIntoSpec(init, profile);
      forall c ensures c in MappedInto(pairs, profile) <==>
                       exists j :: 0 <= j < |pairs| && pairs[j].1 == c && pairs[j].0 in profile
      {
        if c in MappedInto(init, profile) {
          var j :| 0 <= j < |init| && init[j].1 == c && init[j].0 in profile;
          assert pairs[j] == init[j];
        }
        if exists j :: 0 <= j < |pairs| && pairs[j].1 == c && pairs[j].0 in profile {
          var j :| 0 <= j < |pairs| && pairs[j].1 == c && pairs[j].0 in profile;
          if j < |init| {
            assert init[j] == pairs[j];
          }
        }
      }
      forall j | 0 <= j < |pairs| && pairs[j].0 in profile
        ensures pairs[j].1 in MappedInto(pairs, profile) &&
                MappedInto(pairs, profile)[pairs[j].1] == profile[pairs[j].0]
      {
        if j < |init| {
          assert init[j] == pairs[j];
          assert pairs[j].1 != pairs[|pairs| - 1].1;
        }
      }
    }
  }

  lemma MappedIntoPrefix(pairs: seq<(string, string)>, profile: map<string, Value>, i: nat)
    requires i < |pairs|
    ensures MappedInto(pairs[..i + 1], profile) ==
              if pairs[i].0 in profile then MappedInto(pairs[..i], profile)[pairs[i].1 := profile[pairs[i].0]]
              else MappedInto(pairs[..i], profile)
  {
    assert pairs[..i + 1][..i] == pairs[..i];
  }

  /** Building `update_data`: each mapped key present in the input writes its
      value under the column's name. */
  method BuildUpdateData(profileData: map<string, Value>) returns (updateData: map<string, Value>)
    ensures updateData == MappedInto(FIELD_MAPPING, profileData)
  {
    updateData := map[];
    for i := 0 to |FIELD_MAPPING|
      invariant updateData == MappedInto(FIELD_MAPPING[..i], profileData)
    {
      MappedIntoPrefix(FIELD_MAPPING, profileData, i);
      var (frontendField, backendField) := FIELD_MAPPING[i];
      if frontendField in profileData {
        updateData := updateData[backendField := profileData[frontendField]];
      }
    }
    assert FIELD_MAPPING[..|FIELD_MAPPING|] == FIELD_MAPPING;
  }

  /** The mapping writes twelve distinct columns, all of them updatable. */
  lemma FieldMappingColumns()
    ensures DistinctColumns(FIELD_MAPPING)
    ensures forall j :: 0 <= j < |FIELD_MAPPING| ==> FIELD_MAPPING[j].1 in UPDATABLE_COLUMNS
  {
  }

  /** Every key the mapping writes is a payload key read from the same
      column, except `name`, which is read through the display name. */
  lemma FieldMappingReadBack()
    ensures forall j :: 0 <= j < |FIELD_MAPPING| ==>
              && FIELD_MAPPING[j].0 in INFO_KEYS
              && FIELD_MAPPING[j].0 !in {"email", "registrationDate", "accountId", "role"}
              && (FIELD_MAPPING[j].0 == "name" ==> FIELD_MAPPING[j].1 == "full_name")
              && (FIELD_MAPPING[j].0 != "name" ==> ColumnOf(FIELD_MAPPING[j].0) == FIELD_MAPPING[j].1)
  {
  }

  /** The profile update copies only the twelve mapped keys, renamed, and
      never writes the email, the role, the active flag or the username. */
  lemma ProfileUpdateColumns(profileData: map<string, Value>)
    ensures forall c :: c in MappedInto(FIELD_MAPPING, profileData) <==>
              exists j :: 0 <= j < |FIELD_MAPPING| && FIELD_MAPPING[j].1 == c && FIELD_MAPPING[j].0 in profileData
    ensures forall j :: 0 <= j < |FIELD_MAPPING| && FIELD_MAPPING[j].0 in profileData ==>
              FIELD_MAPPING[j].1 in MappedInto(FIELD_MAPPING, profileData) &&
              MappedInto(FIELD_MAPPING, profileData)[FIELD_MAPPING[j].1] == profileData[FIELD_MAPPING[j].0]
    ensures MappedInto(FIELD_MAPPING, profileData).Keys <= UPDATABLE_COLUMNS
    ensures "email" !in MappedInto(FIELD_MAPPING, profileData) && "role" !in MappedInto(FIELD_MAPPING, profileData)
    ensures "is_active" !in MappedInto(FIELD_MAPPING, profileData) && "username" !in MappedInto(FIELD_MAPPING, profileData)
  {
    FieldMappingColumns();
    MappedIntoSpec(FIELD_MAPPING, profileData);
    assert "email" !in UPDATABLE_COLUMNS && "role" !in UPDATABLE_COLUMNS;
    assert "is_active" !in UPDATABLE_COLUMNS && "username" !in UPDATABLE_COLUMNS;
  }

  /** What `/profile` writes, the payload reads back: once the built update
      is applied to a row, every mapped key of the input other than `name`
      reads back as given, and `name` does whenever it is truthy. */
  lemma ProfileRoundTrip(u: User, profileData: map<string, Value>, j: int)
    requires 0 <= j < |FIELD_MAPPING| && FIELD_MAPPING[j].0 in profileData
    ensures var stored := u.(columns := u.columns + MappedInto(FIELD_MAPPING, profileData));
            var key := FIELD_MAPPING[j].0;
            (key != "name" || Truthy(profileData[key])) ==> Get(UserInfoJson(stored), key) == profileData[key]
  {
    ProfileUpdateColumns(profileData);
    FieldMappingReadBack();
    var stored := u.(columns := u.columns + MappedInto(FIELD_MAPPING, profileData));
    var key := FIELD_MAPPING[j].0;
    assert Column(stored, FIELD_MAPPING[j].1) == profileData[key];
    assert Get(UserInfoJson(stored), key) == InfoValue(stored, key);
  }

  /** What the server answers for an exception no handler catches. */
  const UNHANDLED_ERROR: HttpException := HttpException(500, "Internal Server Error")

  /** `update_user_profile` as written: the success reply is built with
      `JSONResponse`, a name the module never imports, so once the row has
      been updated the handler raises and the caller gets the generic 500. */
  method UpdateUserProfileAsWritten(current: User, profileData: map<string, Value>, updated: Option<User>)
    returns (updateData: map<string, Value>, reply: Reply<Value>)
    ensures updateData == MappedInto(FIELD_MAPPING, profileData)
    ensures updated.None? ==> reply == Raise(HttpException(500, "更新用户信息失败"))
    ensures updated.Some? ==> reply == Raise(UNHANDLED_ERROR)
    ensures reply.Raise? && reply.exception.status == 500
  {
    updateData := BuildUpdateData(profileData);
    if updated.None? {
      reply := Raise(HttpException(500, "更新用户信息失败"));
    } else {
      reply := Raise(UNHANDLED_ERROR);
    }
  }

  /** `update_user_profile` with the success reply built as the other
      handlers build it: `updated` is the row `update_user` returns for
      the caller's id and the built update (`None` when it fails). */
  method UpdateUserProfile(current: User, profileData: map<string, Value>, updated: Option<User>)
    returns (updateData: map<string, Value>, reply: Reply<Value>)
    ensures updateData == MappedInto(FIELD_MAPPING, profileData)
    ensures updated.None? ==> reply == Raise(HttpException(500, "更新用户信息失败"))
    ensures updated.Some? ==>
              reply.Ok? && FromDict(reply.value) == Some(ResponseModel(SUCCESS, "更新成功", UserInfoJson(updated.value)))
  {
    updateData := BuildUpdateData(profileData);
    if updated.None? {
      reply := Raise(HttpException(500, "更新用户信息失败"));
    } else {
      reply := Ok(SuccessResponse(UserInfoJson(updated.value), "更新成功"));
    }
  }
}
