# Session and permission model of the YG admin application

This project models the authorisation and session logic on both sides of
the YG admin application and proves properties of that model.

The frontend side covers:

- the route permission evaluator (`accessRouter`, and the breadth-first
  `findFirstPermissionRoute`);
- the navigation guard;
- the two HTTP gateways (the global axios interceptors and the `request`
  instance), each with a request transform and response and error
  classifiers;
- the user session store;
- the aggregation of route modules.

The backend side covers:

- the `{code, msg, data}` envelope constructors;
- the authentication router: the current-user check chain, login,
  registration, the user payload, the profile update and logout;
- the role and ownership rules of the user-management router;
- the company-state table and its router.

A final module, `Contract`, connects the two sides. It proves what each kind
of backend body does to the frontend once it arrives: it resolves or
rejects, and it may drop the credential or show the forced-logout dialog.

## How things are represented

- There is one module per source file. Three helper modules sit beside them:
  - `Wrappers`: `Option` and `Result`;
  - `Js`: JavaScript values, truthiness, `||` and `String.includes`;
  - `Gateway`: the pieces both gateways share.
- The request configuration, the session store and the company table are
  classes. Their methods change the fields the source changes. The loops of
  the source are `while` or `for` loops with invariants:
  `findFirstPermissionRoute`, the menu existence check, `formatModules`, the
  `update_data` build and the partial company update.
- Side effects are a list of `Effect` values in the order they happen:
  `Message.error`, `Modal.error`, the credential helpers and
  `window.location`.
- A raised exception is `Http.Raise(HttpException(status, detail))`.
- What the code calls but does not show becomes a parameter:
  - the result of every remote call;
  - `authenticate_user`;
  - the decoded `verify_token` payload;
  - the rows `crud/user.py` returns;
  - a database exception, written as `failure: Option<string>`.
- Numbers are unbounded integers. No source value depends on a machine word
  width.

## Deliberate modelling choices

Each choice below keeps what the code does, even where a simpler reading of
its intent suggests otherwise.

- **Login.** The login response already carries the user payload, yet the
  store's `login` re-fetches the profile with `info()` after `setInfo`
  (frontend/src/store/modules/user/index.ts:81). The model applies the
  `info()` result last.
- **Roles.** Roles are not a closed enumeration: the code compares plain
  strings, and the initial role is `''`. The model keeps strings.
- **First reachable route.** The search does not test a role list for the
  wildcard or the role as members. The code runs
  `roles.find(el => el.includes('*') || el.includes(role))`. That is a
  substring test on each entry, and the entry found must also be truthy. The
  model keeps both details, so the role `''` matches any list whose first
  entry is non-empty (`Permission.InitialRoleContrast`).
- **`setInfo`.** The role is not applied by a separate step: the code calls
  `$patch(partial)`, and so does the model.

## Model

| member | source | states |
|---|---|---|
| Js.TextOr | frontend/src/api/interceptor.ts:57 | the `\|\|` default of a message: the message when it is a non-empty string, the fallback when it is falsy |
| Js.Or | frontend/src/api/interceptor.ts:80 | the `\|\|` operator gives `a` when `a` is truthy and `b` otherwise |
| Js.IncludesIff | frontend/src/hooks/permission.ts:24 | `includes` holds exactly when the substring occurs at some position |
| Permission.AccessRouter | frontend/src/hooks/permission.ts:9-14 | allowed when auth is not required, when no role list is declared, or when the list holds `'*'`; otherwise allowed iff the list holds the role exactly |
| Permission.FindEntry | frontend/src/hooks/permission.ts:23-25 | `None` iff no entry contains `'*'` or the role as a substring; otherwise the first entry that does |
| Permission.Step | frontend/src/hooks/permission.ts:21-30 | taking the head off and appending its children shrinks the queue by exactly one route |
| Permission.StepNodes | frontend/src/hooks/permission.ts:21-30 | a search step loses no route and invents none |
| Permission.FirstMatchComplete | frontend/src/hooks/permission.ts:20-32 | the search finds nothing iff no route anywhere in the forest matches; a route it finds is a matching route of the forest |
| Permission.FirstMatchPrefersSiblings | frontend/src/hooks/permission.ts:21-30 | when a top-level route matches, the result is the earliest such route, whatever matches below it |
| Permission.FirstMatchSkipsLevel | frontend/src/hooks/permission.ts:21-30 | when no route of a level matches, the search goes on with the queued routes followed by that level's children in declaration order |
| Permission.NextLevel | frontend/src/hooks/permission.ts:21-30 | with no top-level match, the result is the search over the children: breadth-first order |
| Permission.FindFirstPermissionRoute | frontend/src/hooks/permission.ts:18-33 | the loop over a copied queue returns `{name}` of the breadth-first first match, or `null`; the role defaults to `'admin'` |
| Permission.InitialRoleContrast | frontend/src/hooks/permission.ts:9-26 | the initial role `''` fails `accessRouter` on a restricted route, yet passes the search's substring test |
| Guard.MenuExists | frontend/src/router/guard/permission.ts:30-42 | the queue walk over menus and their nested children sets `exist` iff some route in the forest has the target's name |
| Guard.BeforeEach | frontend/src/router/guard/permission.ts:10-57 | the permission is checked once and first, then a fetch only for an empty cache and a non-whitelisted target, then exactly one `next`, then the progress bar ends; in server-menu mode it proceeds iff the target exists and is permitted, else goes to NOT_FOUND; in static mode it proceeds iff permitted, else goes to the first reachable route or NOT_FOUND |
| Guard.LoginOpenToInitialRole | frontend/src/router/index.ts:19-24 | the login route (`requiresAuth: false`) is open to the initial role `''` |
| Guard.DeniedUserRedirectedToCompanyList | frontend/src/router/guard/permission.ts:48-53 | a `user` (and the role `''`) refused an admin-only route is sent to `CompanyList` |
| Routes.FormatModules | frontend/src/router/routes/index.ts:15-25 | the result is the accumulator followed by each module's contribution in key order |
| Routes.AppRoutes | frontend/src/router/routes/index.ts:27-32 | both route lists start from an empty accumulator |
| Routes.ContributionsLength | frontend/src/router/routes/index.ts:16-23 | the length is the sum over the modules of 0 without a `default`, 1 for a single route and the array's length for an array |
| Routes.ContributionsMembership | frontend/src/router/routes/index.ts:16-23 | a route is aggregated iff some module contributes it |
| Gateway.Bearer | frontend/src/api/interceptor.ts:29 | the header value is `"Bearer "` followed by the token |
| Gateway.OnTransportError | frontend/src/api/interceptor.ts:86-116 | every transport error rejects with the original error; a 401 gives the login notice, forgets the credential and redirects; 403, 404, 500 and every other status only notify, with '权限不足', the not-found text, the server-error text, or the body's `message` or '请求失败'; a request with no response gives the network notice, one never sent gives the configuration notice |
| Interceptor.OnRequest | frontend/src/api/interceptor.ts:18-37 | a truthy token sets `Authorization`, creating the headers when they are missing; otherwise the configuration is unchanged |
| Interceptor.OnResponse | frontend/src/api/interceptor.ts:39-85 | a falsy or non-object body gives the format error; a body without a code is passed through; 20000 resolves to `data` or to the whole envelope; any other code rejects with `msg` or `'Error'`, and its effects are exactly that notice, followed by the dialog iff the code forces logout and the URL is not `/api/user/info`; the dialog appears iff the code forces logout and the URL is not `/api/user/info` |
| Interceptor.OnResponseError | frontend/src/api/interceptor.ts:86-116 | the shared classification; a 401 notifies, clears the token through the auth helper and redirects; every other status only notifies with its own text |
| Request.OnRequest | frontend/src/utils/request.ts:19-32 | a truthy stored `token` sets `Authorization`; otherwise the headers are unchanged |
| Request.OnResponse | frontend/src/utils/request.ts:35-59 | 20000 resolves to `data.data` with no effect; any other code rejects with `msg` or `'请求失败'`; the forced-logout codes notify, remove the token and redirect from any URL; every other code only notifies with `msg` or `'请求失败'` |
| Request.OnResponseError | frontend/src/utils/request.ts:60-90 | the shared classification; a 401 notifies, removes the stored token and redirects; 403, 404, 500 and every other status only notify with their own text; no dialog |
| Request.GatewaysAgree | frontend/src/utils/request.ts:35-90 | a success envelope with a truthy payload resolves the same in both gateways, and transport errors are classified alike |
| Request.GatewaysDiffer | frontend/src/utils/request.ts:40-58 | the gateways differ on a falsy payload, on a body without a code, and on forced-logout codes from `/api/user/info` |
| UserStore.PatchOf | frontend/src/store/modules/user/index.ts:68-72 | a decoded object sets exactly the profile fields it names, with their values, and the role iff it carries a string `role` |
| UserStore.InitialState | frontend/src/store/modules/user/index.ts:14-31 | every profile field reads `undefined`, the role is `''`, and exactly the fifteen declared keys are present: `companyState` is not among them |
| UserStore.Reset | frontend/src/store/modules/user/index.ts:63-65 | `$reset` assigns the factory's keys back: every field other than `companyState` reads `undefined`, the role is `''`, and `companyState` keeps its value |
| UserStore.ResetKeepsCompanyState | frontend/src/store/modules/user/index.ts:14-31 | as written: a `companyState` set by `setInfo` is still there after a reset |
| UserStore.CorrectedReset | frontend/src/store/modules/user/types.ts:31-49 | corrected: over a factory that declares every key of the state type, a reset leaves every field `undefined` and the role `''` |
| UserStore.CorrectedResetForgets | frontend/src/store/modules/user/types.ts:31-49 | corrected: any two states reset to the same state, the declared factory's, so nothing of a session survives |
| UserStore.PatchedFields | frontend/src/store/modules/user/index.ts:58-60 | a patch changes exactly the fields it carries; the role changes only when the patch has one |
| UserStore.LaterPatchWins | frontend/src/store/modules/user/index.ts:76-81 | of two patches the later wins on every field, the role included |
| UserStore.PatchedIdempotent | frontend/src/store/modules/user/index.ts:58-60 | applying a patch twice is applying it once |
| UserStore.SwitchedRoleProperties | frontend/src/store/modules/user/index.ts:51-56 | `'user'` becomes `'admin'` and every other role becomes `'user'`; switching twice restores exactly `'user'` and `'admin'` |
| UserStore.LoginRoleOpensItsRoutes | frontend/src/store/modules/user/index.ts:75-87 | after login the role is the fetched role, and every route listing that role is open |
| UserStore.UserStore.constructor | frontend/src/store/modules/user/index.ts:13-31 | a fresh store holds the initial state next to the surviving credential, listener and menu |
| UserStore.UserStore.UserInfo | frontend/src/store/modules/user/index.ts:40-42 | the getter's copy equals the state field by field |
| UserStore.UserStore.SwitchRoles | frontend/src/store/modules/user/index.ts:51-56 | only the role changes, and the new role is returned |
| UserStore.UserStore.SetInfo | frontend/src/store/modules/user/index.ts:58-60 | the state becomes the patched state |
| UserStore.UserStore.ResetInfo | frontend/src/store/modules/user/index.ts:63-65 | the state becomes `Reset` of the old state, so a patched `companyState` survives |
| UserStore.UserStore.Info | frontend/src/store/modules/user/index.ts:68-72 | a fetched profile is applied; a rejection propagates and leaves the state alone |
| UserStore.UserStore.Login | frontend/src/store/modules/user/index.ts:75-87 | on success the token is `res.token` and both patches are applied in order; a failure at either call clears the token and rethrows the same error, keeping what was already applied |
| UserStore.UserStore.LogoutCallBack | frontend/src/store/modules/user/index.ts:88-94 | the state is `Reset` of the old state (keeping `companyState`), no token, no route listener, empty server menu |
| UserStore.UserStore.Logout | frontend/src/store/modules/user/index.ts:96-102 | the teardown (`Reset` of the old state, no token, no listener, no menu) happens whatever the remote call did, and its result still reaches the caller |
| Response.NewResponseModel | backend/core/response.py:14-17 | each given argument is kept, and each one left out takes its own default: 20000, "成功" or `None` |
| Response.ToDict | backend/core/response.py:19-25 | exactly the keys code, msg and data, holding the fields |
| Response.EnvelopeRoundTrip | backend/core/response.py:19-25 | reading an envelope back gives the model again, and a body reads back as a model iff it is that model's dict |
| Response.SuccessResponse | backend/core/response.py:37-39 | always code 20000, with the given message and data |
| Response.ErrorResponse | backend/core/response.py:42-44 | the given code, message and data, unchanged |
| Response.ValidationErrorResponse | backend/core/response.py:47-49 | code 40000, default message "参数验证失败" |
| Response.UnauthorizedErrorResponse | backend/core/response.py:52-54 | code 50008, default message "未授权访问" |
| Response.TokenExpiredErrorResponse | backend/core/response.py:57-59 | code 50014, default message "令牌已过期" |
| Response.ErrorCodesAgree | backend/core/response.py:47-69 | each helper carries the code `ERROR_CODES` names for it, and the codes are pairwise distinct |
| UserRouter.ByUsername | backend/routers/user.py:31 | `None` iff no row has the username; otherwise a row with it, and no earlier row has it |
| UserRouter.ByEmail | backend/routers/user.py:106 | `None` iff no row has the email; otherwise a row with it, and no earlier row has it |
| UserRouter.GetCurrentUser | backend/routers/user.py:18-34 | the user is returned iff the payload exists, `sub` is a string and a row has that username; every other case is the same 401 |
| UserRouter.IssuedTokenIdentifiesUser | backend/routers/user.py:56-58 | a token signed over `sub = username` resolves back to the same user when usernames are unique |
| UserRouter.DisplayName | backend/routers/user.py:64 | `full_name` when it is truthy, the username otherwise |
| UserRouter.UserInfoJson | backend/routers/user.py:133-150 | the user payload has exactly the sixteen keys |
| UserRouter.UserInfoIdentity | backend/routers/user.py:133-150 | the payload's name, email, account id, role and registration date come from the row |
| UserRouter.UserInfoColumns | backend/routers/user.py:133-150 | each of the eleven profile keys is read from its column |
| UserRouter.LoginBody | backend/routers/user.py:61-88 | an envelope with code 20000, "登录成功", the token and the user payload |
| UserRouter.LoginForAccessToken | backend/routers/user.py:37-92 | bad credentials give 401 before an inactive account gives 400; success iff active, carrying the token and the stored role |
| UserRouter.Register | backend/routers/user.py:95-112 | a taken username gives 400 before the email is checked; a taken email gives 400; created iff both are free |
| UserRouter.GetUserInfo | backend/routers/user.py:129-161 | the current user's payload in a success envelope |
| UserRouter.LogoutReply | backend/routers/user.py:121-126 | a bare `{message}` without a code, which is not an envelope |
| UserRouter.LogoutEnvelope | backend/routers/user.py:121-126 | the corrected reply: the message in a success envelope |
| UserRouter.MappedIntoSpec | backend/routers/user.py:192-194 | with distinct columns, the update holds exactly the columns whose key is present, each holding that key's value |
| UserRouter.BuildUpdateData | backend/routers/user.py:174-194 | the loop builds the update the mapping defines |
| UserRouter.FieldMappingColumns | backend/routers/user.py:177-190 | twelve distinct columns, all of them updatable |
| UserRouter.FieldMappingReadBack | backend/routers/user.py:177-223 | each mapped key is a payload key read from the same column, except `name`; none is email, registrationDate, accountId or role |
| UserRouter.ProfileUpdateColumns | backend/routers/user.py:177-194 | only the mapped keys are copied, renamed; absent keys are not written; email, role, is_active and username never are |
| UserRouter.ProfileRoundTrip | backend/routers/user.py:192-223 | after the update, each mapped key reads back as given in the payload (`name` when it is truthy) |
| UserRouter.UpdateUserProfileAsWritten | backend/routers/user.py:164-231 | as written: a failed update gives 500 "更新用户信息失败", and a successful one also ends in a 500, because `JSONResponse` is not imported |
| UserRouter.UpdateUserProfile | backend/routers/user.py:164-229 | corrected: a failed update gives 500; otherwise an "更新成功" envelope with the updated user's payload |
| UsersRouter.ReadUsers | backend/routers/users.py:13-27 | the listing iff the role is admin or root, otherwise 403 |
| UsersRouter.CreateNewUser | backend/routers/users.py:30-42 | the created user iff the role is admin or root, otherwise 403 |
| UsersRouter.ReadUser | backend/routers/users.py:45-61 | 403 unless admin, root or self; then 404 for a missing user; the user otherwise |
| UsersRouter.UpdateUserInfo | backend/routers/users.py:64-81 | the same self-or-admin rule, then 404, then the updated user |
| UsersRouter.DeleteUserById | backend/routers/users.py:84-99 | 403 unless admin or root; then 404 when nothing is deleted; the success message otherwise |
| UsersRouter.PermissionPrecedesLookup | backend/routers/users.py:53-98 | a refused caller's reply does not depend on the lookup; a 404 implies the caller was authorised; a non-admin deleting themself gets 403 |
| UsersRouter.SelfServiceOnly | backend/routers/users.py:53-80 | a non-administrator may read and update exactly their own record |
| CompanyCrud.CompanyTable.GetById | backend/crud/company.py:7-9 | the record with that id, `None` iff there is none |
| CompanyCrud.CompanyTable.GetByName | backend/crud/company.py:12-14 | the record with that name and the lowest id; `None` iff no record has the name |
| CompanyCrud.CompanyTable.GetByUser | backend/crud/company.py:17-19 | exactly the records of that owner |
| CompanyCrud.CompanyTable.Create | backend/crud/company.py:22-40 | a new record under a fresh id with the request's name, owner and columns; nothing else changes |
| CompanyCrud.CompanyTable.Update | backend/crud/company.py:43-52 | an absent id gives `None` and no change; otherwise only the set columns of that record change, and the updated record is returned |
| CompanyCrud.CompanyTable.Delete | backend/crud/company.py:55-62 | true iff the id existed; afterwards it is absent and the other records remain |
| CompanyCrud.WithoutAbsent | backend/crud/company.py:55-62 | deleting an id that is not stored leaves the primary-key order as it is |
| CompanyCrud.UpdateKeepsIdentity | backend/crud/company.py:47-49 | an update never changes the id, name or owner, and leaves unset columns as they were |
| CompanyRouter.ColumnNamed | backend/schemas/company.py:23-32 | a key that names a column names it by that column's own name |
| CompanyRouter.ColumnNameRoundTrip | backend/schemas/company.py:23-32 | column names and keys are inverse |
| CompanyRouter.CompanyJson | backend/schemas/company.py:35-39 | a record's JSON form has exactly the twelve keys |
| CompanyRouter.CompanyJsonFields | backend/schemas/company.py:35-39 | the JSON form keeps the id, name, owner and every column |
| CompanyRouter.Dumps | backend/core/response.py:29-33 | `json.dumps` fails exactly for a record or a non-empty list of records |
| CompanyRouter.SuccessEnvelopeAsWritten | backend/routers/company.py:120-122 | as written: a serialisable payload gives the success envelope, anything else the 50000 envelope |
| CompanyRouter.AsWrittenRecordsReportFailure | backend/routers/company.py:113-162 | as written, every success path carrying a record reports 50000; the owner listing does so iff it is non-empty |
| CompanyRouter.Encode | backend/schemas/company.py:35-39 | corrected: records are sent in their JSON form, a list element by element |
| CompanyRouter.SuccessEnvelope | backend/routers/company.py:120 | corrected: code 20000 with the encoded payload |
| CompanyRouter.GetCompanyState | backend/routers/company.py:31-40 | the record iff the id is stored, otherwise 404 "公司状态不存在" |
| CompanyRouter.GetCompanyStateByCompanyName | backend/routers/company.py:43-52 | a record with that name iff one exists, otherwise 404 |
| CompanyRouter.CreateNewCompanyState | backend/routers/company.py:62-76 | a taken name gives 400 and stores nothing; otherwise the new record is stored |
| CompanyRouter.UpdateExistingCompanyState | backend/routers/company.py:79-92 | 404 and no change for an unknown id; otherwise the partial update |
| CompanyRouter.DeleteExistingCompanyState | backend/routers/company.py:95-103 | 404 when nothing is deleted, otherwise the success message; the id is gone afterwards |
| CompanyRouter.CreateWithResponseAsWritten | backend/routers/company.py:107-122 | as written: a new name is stored, and yet the reply is 50000 |
| CompanyRouter.CreateWithResponse | backend/routers/company.py:107-122 | corrected: 50000 on a database failure with no change, 40001 for a taken name, otherwise 20000 with the stored record |
| CompanyRouter.UpdateWithResponseAsWritten | backend/routers/company.py:125-139 | as written: 50000 on failure and 40400 for an unknown id with no change; for a stored id the columns are overwritten, and yet the reply is 50000 |
| CompanyRouter.UpdateWithResponse | backend/routers/company.py:125-139 | corrected: 50000 on failure, 40400 for an unknown id, otherwise the columns are overwritten and the reply is 20000 with the updated record |
| CompanyRouter.GetCompanyStateInfoAsWritten | backend/routers/company.py:142-152 | as written: 50000 on failure, 40400 for an unknown id, and 50000 for every stored id |
| CompanyRouter.GetCompanyStateInfo | backend/routers/company.py:142-152 | corrected: 50000 on failure, 40400 for an unknown id, otherwise 20000 with the record |
| CompanyRouter.GetUserCompanyStatesAsWritten | backend/routers/company.py:155-162 | as written: 50000 on failure and for every owner with a record; 20000 with an empty list only for an owner with none |
| CompanyRouter.GetUserCompanyStates | backend/routers/company.py:155-162 | corrected: 50000 on failure, otherwise 20000 with exactly the owner's records |
| Contract.SuccessEnvelopeResolves | frontend/src/utils/request.ts:40-42 | a backend success envelope resolves quietly to its data in `request`, and to its data or the envelope in the global interceptor |
| Contract.ErrorEnvelopeRejects | frontend/src/utils/request.ts:45-58 | any other backend envelope rejects with its message or the default after one notice; the token goes iff the code forces logout; the dialog appears iff the code forces logout and the URL is not the info URL |
| Contract.CodeTablesAgree | backend/core/response.py:63-69 | `ERROR_CODES`'s success is the gateways' success code, and its three session codes are exactly the forced-logout codes |
| Contract.SessionHelpersForceLogout | backend/core/response.py:52-59 | the unauthorised and expired helpers log the client out; the validation helper does not |
| Contract.FieldKeysCovered | frontend/src/store/modules/user/index.ts:14-30 | every session field except `companyState` has a key in the backend's payload |
| Contract.PayloadFillsSession | backend/routers/user.py:133-150 | the payload, applied by the store, sets every field except `companyState`, the display name and the stored role |
| Contract.LoginFlow | frontend/src/store/modules/user/index.ts:75-87 | the login body resolves to the token and payload, `/info` resolves to the current payload, and the final role is the current user's |
| Contract.LogoutReplyRejected | backend/routers/user.py:121-126 | as written, every logout is rejected by `request` with the notice "请求失败" |
| Contract.LogoutEnvelopeResolves | backend/routers/user.py:121-126 | corrected: logout resolves quietly |
| Contract.Delivered | backend/main.py:54-59 | a raised exception arrives with its status and a body holding only `detail` |
| Contract.RaisedExceptionNotices | frontend/src/utils/request.ts:60-90 | a raised exception shows its status's notice; a 400's `detail` is never shown, because the frontend reads `message` |
| Contract.ProfileUpdateAtClient | backend/routers/user.py:225-231 | the as-written profile reply reaches the user as "服务器内部错误"; the corrected one resolves to the updated payload |

## Left out

- `Message.error`, `Modal.error`, `window.location`, NProgress and the
  progress bar are recorded as `Effect` or `GuardEvent` values. The dialog's
  `onOk` (log out, then reload) is not modelled.
- `getToken`, `setToken`, `clearToken` and `removeRouteListener` are not
  shown. The store keeps the token and the listener as fields, and the
  gateways take the token or the storage as a parameter.
- Axios itself, the base URLs and timeouts, and the request interceptors'
  error handlers (which only pass the error on) are left out.
- Every `await` is a sequential step. No interleaving is modelled.
- Arrays are values (`seq`), so the property that `findFirstPermissionRoute`
  does not modify the caller's array holds by construction. The in-place
  `push` of `formatModules` into a caller's accumulator is not modelled as
  aliasing.
- Route names are strings. An unnamed route is not modelled, and the glob
  import is a list of modules in key order.
- `UserStore.PatchOf`: a non-string `role` is ignored. Pinia's `$patch`
  would deep-merge nested objects and add unknown keys; the model replaces
  the known fields only.
- `UserStore.UserStore.Login`: the form's credentials are not modelled. The
  two call results are parameters.
- Messages are strings in the model. A non-string `msg` is shown as
  the fallback text (`Js.TextOr`).
- `Response.SuccessResponse` and `Response.ErrorResponse` take every
  argument: the defaults `msg="成功"` and `data=None` of
  backend/core/response.py are not modelled, since every call site passes
  both.
- `CompanyRouter.UpdateWithResponse`: states the corrected 20000 reply; the
  as-written reply (the change committed, then 50000) is
  `CompanyRouter.UpdateWithResponseAsWritten` (Findings).
- `CompanyRouter.GetCompanyStateInfo`: states the corrected 20000 reply; the
  as-written 50000 for every stored id is
  `CompanyRouter.GetCompanyStateInfoAsWritten` (Findings).
- `CompanyRouter.GetUserCompanyStates`: states the corrected 20000 reply; the
  as-written 50000 for any non-empty listing is
  `CompanyRouter.GetUserCompanyStatesAsWritten` (Findings).
- The JSON text (`json.dumps` separators, `ensure_ascii`) and the HTTP
  response object are not modelled. A body is its decoded value.
- `backend/core/security.py` is replaced: `verify_token` is a payload
  parameter, `create_access_token` a token parameter, and bcrypt is the
  `authenticate_user` result.
- `CompanyCrud`: backend/models/user.py defines no `CompanyState`, so the
  import at backend/crud/company.py:2 fails as the source stands, and with
  it backend/routers/company.py, backend/routers/__init__.py and
  backend/main.py. The model assumes an ORM class `CompanyState` with the
  columns of backend/schemas/company.py. The company rows under
  "## Findings" describe the replies given that class.
- `UserRouter.User`: `role` and `is_active` are held as a string and a
  boolean. The columns are nullable with insert defaults only
  (backend/models/user.py:18-19); a stored `NULL` is not modelled.
- `crud/user.py` is not part of this model. Its lookups, inserts, updates
  and deletes are parameters, and `ByUsername`/`ByEmail` stand for its two
  lookups over a sequence of rows.
- `UserRouter.GetCurrentUser`: a request with no bearer token is refused
  by `OAuth2PasswordBearer` (backend/routers/user.py:15, 18) with 401
  "Not authenticated" before the function runs. The model has no input for
  that case; the nearest, an invalid token (`payload == None`), gives the
  function's own 401. The frontend reacts to both alike, since it ignores
  the body of a 401.
- `UserRouter.GetCurrentUser`: a `sub` that is not a string names no user.
- `GET /me` only returns `current_user`, which `GetCurrentUser` already
  models.
- The company listing `GET /` (backend/routers/company.py:20-28) and the
  `skip`/`limit` pagination of the user listing are left out. The listing
  uses `CompanyState` without importing it, and pagination is database
  paging.
- `GET /user/{user_id}` (backend/routers/company.py:55-59) returns
  `GetByUser` unchanged and has no row of its own.
- The timestamps `created_at` and `updated_at` are not modelled, except that
  a user's `created_at` is its ISO text.
- `.first()` and `.all()` are taken to scan in primary-key order. The
  company table keeps its ids in increasing order for that.
- The envelope endpoints catch database exceptions. The model assumes such
  an exception happens before any change and leaves the table unchanged.
- Commit and refresh are not modelled.
- `Contract.Delivered`: an exception no handler catches is answered with a
  plain-text 500. The model gives it the same shape as a raised
  `HTTPException`; the frontend's notice for a 500 does not read the body.
- The `/api/company` prefix is mounted under `/api` and `/company`. URLs are
  not modelled.
- `frontend/src/utils/request.ts:40` dereferences `data.code` without a
  shape check, so a `null` body would crash. The model treats every body as
  a value without crashing.

## Findings

| source | as written | input that shows it | evidently intended | confidence | as-written member | corrected member |
|---|---|---|---|---|---|---|
| backend/routers/company.py:113-122 | given a `CompanyState` ORM class (see "## Left out"), `success_response(new_company_state, …)` hands the ORM record to `json.dumps`, which raises; the `except` answers 50000 after the record has been committed | `/create` with a name not yet stored | 20000 with the new record | not executed | CompanyRouter.CreateWithResponseAsWritten | CompanyRouter.CreateWithResponse |
| backend/routers/company.py:131-139 | given a `CompanyState` ORM class (see "## Left out"), `/update` hands the updated record to `json.dumps`, which raises after the change is committed; the client is told 50000 | `/update/{id}` for a stored id | 20000 with the updated record | not executed | CompanyRouter.UpdateWithResponseAsWritten | CompanyRouter.UpdateWithResponse |
| backend/routers/company.py:142-152 | given a `CompanyState` ORM class (see "## Left out"), `/info` hands the record to `json.dumps`, so every stored id is answered with 50000 | `/info/{id}` for a stored id | 20000 with the record in JSON form | not executed | CompanyRouter.GetCompanyStateInfoAsWritten | CompanyRouter.GetCompanyStateInfo |
| backend/routers/company.py:155-162 | given a `CompanyState` ORM class (see "## Left out"), `/user-info` hands the list of records to `json.dumps`, so only an owner with no records gets a success | `/user-info/{user_id}` for an owner with one record | 20000 with the records in JSON form | not executed | CompanyRouter.GetUserCompanyStatesAsWritten | CompanyRouter.GetUserCompanyStates |
| backend/routers/user.py:121-126 | `/logout` returns `{"message": …}` without a code, so the `request` gateway shows "请求失败" and rejects every logout | any logout | a success envelope that resolves | not executed | Contract.LogoutReplyRejected | Contract.LogoutEnvelopeResolves |
| frontend/src/store/modules/user/index.ts:14-31 | the state factory leaves out `companyState`, which the state type declares, and `$reset` assigns only the factory's keys back, so `resetInfo` and logout keep the previous user's company state | `setInfo({companyState: X})`, then `logout()` | every field `undefined` after a reset | not executed | UserStore.ResetKeepsCompanyState | UserStore.CorrectedReset |
| backend/routers/user.py:231 | `JSONResponse` is only imported inside two other handlers, so a successful profile update raises `NameError` after the row is written, and the client gets a 500 | `/profile` with any body, for an existing user | the "更新成功" envelope with the payload | not executed | UserRouter.UpdateUserProfileAsWritten | UserRouter.UpdateUserProfile |
