/** The contract between the backend's envelopes and the frontend's
    gateways and session store: what each kind of body does once it reaches
    the client. */
module Contract {
  import opened Wrappers
  import opened Js
  import opened Gateway
  import Http
  import Response
  import UserRouter
  import UserStore
  import Interceptor
  import Request

  /** An envelope's fields, read back. */
  lemma EnvelopeFields(body: Value, m: Response.ResponseModel)
    requires Response.FromDict(body) == Some(m)
    ensures Get(body, "code") == Num(m.code) && Get(body, "msg") == Str(m.msg) && Get(body, "data") == m.data
    ensures Truthy(body) && IsObjectType(body)
  {
    Response.EnvelopeRoundTrip(m, body);
  }

  /** A success envelope resolves to its data through the request gateway,
      and to its data (or the whole envelope when the data is falsy) through
      the global interceptor, with no side effect in either. */
  lemma SuccessEnvelopeResolves(data: Value, msg: string, url: string)
    ensures Request.OnResponse(Response.SuccessResponse(data, msg)) == Handled(Resolve(data), [])
    ensures Interceptor.OnResponse(url, Response.SuccessResponse(data, msg)) ==
              Handled(Resolve(Or(data, Response.SuccessResponse(data, msg))), [])
  {
    EnvelopeFields(Response.SuccessResponse(data, msg), Response.ResponseModel(Response.SUCCESS, msg, data));
  }

  /** Any other envelope rejects with its message (or the gateway's default)
      after one notice; the request gateway drops the credential exactly for
      the forced-logout codes, and the interceptor asks to log out exactly for
      those codes from endpoints other than the "who am I" one. */
  lemma ErrorEnvelopeRejects(code: int, msg: string, data: Value, url: string)
    requires code != Response.SUCCESS
    ensures var h := Request.OnResponse(Response.ErrorResponse(code, msg, data));
            && h.outcome == Reject(Failed(if msg != "" then msg else REQUEST_FAILED))
            && NoticeCount(h.effects) == 1
            && (RemoveStoredItem(TOKEN_KEY) in h.effects <==> code in FORCED_LOGOUT_CODES)
    ensures var h := Interceptor.OnResponse(url, Response.ErrorResponse(code, msg, data));
            && h.outcome == Reject(Failed(if msg != "" then msg else "Error"))
            && NoticeCount(h.effects) == 1
            && (ForcedLogoutDialog in h.effects <==> code in FORCED_LOGOUT_CODES && url != Interceptor.USER_INFO_URL)
  {
    EnvelopeFields(Response.ErrorResponse(code, msg, data), Response.ResponseModel(code, msg, data));
  }

  /** The backend's code table and the frontend agree: success is the
      gateways' success code, and the three session codes of the table are
      exactly the codes that force a logout. */
  lemma CodeTablesAgree()
    ensures Response.ERROR_CODES["SUCCESS"] == SUCCESS_CODE
    ensures {Response.ERROR_CODES["UNAUTHORIZED"], Response.ERROR_CODES["OTHER_CLIENT_LOGIN"],
             Response.ERROR_CODES["TOKEN_EXPIRED"]} == FORCED_LOGOUT_CODES
    ensures forall k :: k in Response.ERROR_CODES ==>
              (Response.ERROR_CODES[k] in FORCED_LOGOUT_CODES <==> k in {"UNAUTHORIZED", "OTHER_CLIENT_LOGIN", "TOKEN_EXPIRED"})
  {
  }

  /** The unauthorised and expired helpers log the client out; the
      validation helper does not. */
  lemma SessionHelpersForceLogout(msg: Option<string>)
    ensures RemoveStoredItem(TOKEN_KEY) in Request.OnResponse(Response.UnauthorizedErrorResponse(msg)).effects
    ensures RemoveStoredItem(TOKEN_KEY) in Request.OnResponse(Response.TokenExpiredErrorResponse(msg)).effects
    ensures RemoveStoredItem(TOKEN_KEY) !in Request.OnResponse(Response.ValidationErrorResponse(msg)).effects
  {
    assert RemoveStoredItem(TOKEN_KEY) in Request.OnResponse(Response.UnauthorizedErrorResponse(msg)).effects by {
      EnvelopeFields(Response.UnauthorizedErrorResponse(msg),
                     Response.ResponseModel(Response.UNAUTHORIZED, msg.GetOr(Response.UNAUTHORIZED_MSG), Null));
    }
    assert RemoveStoredItem(TOKEN_KEY) in Request.OnResponse(Response.TokenExpiredErrorResponse(msg)).effects by {
      EnvelopeFields(Response.TokenExpiredErrorResponse(msg),
                     Response.ResponseModel(Response.TOKEN_EXPIRED, msg.GetOr(Response.TOKEN_EXPIRED_MSG), Null));
    }
    EnvelopeFields(Response.ValidationErrorResponse(msg),
                   Response.ResponseModel(Response.VALIDATION_ERROR, msg.GetOr(Response.VALIDATION_MSG), Null));
  }

  /** Every session field except `companyState` has a key in the backend's
      user payload. */
  lemma FieldKeysCovered(f: UserStore.ProfileField)
    ensures UserStore.FieldKey(f) in UserRouter.INFO_KEYS <==> f != UserStore.CompanyState
  {
    match f
    case Name => case Avatar => case Job => case Organization => case Location => case Email =>
    case Introduction => case PersonalWebsite => case JobName => case OrganizationName =>
    case LocationName => case Phone => case RegistrationDate => case AccountId =>
    case Certification => case CompanyState =>
  }

  /** The backend's user payload, applied by the store, sets every session
      field but `companyState`, the display name and the stored role. */
  lemma PayloadFillsSession(u: UserRouter.User, s: UserStore.UserState)
    ensures var p := UserStore.PatchOf(UserRouter.UserInfoJson(u));
            && (forall f :: f in p.profile <==> f != UserStore.CompanyState)
            && p.role == Some(u.role)
            && UserStore.Field(UserStore.Patched(s, p), UserStore.Name) == UserRouter.DisplayName(u)
  {
    var p := UserStore.PatchOf(UserRouter.UserInfoJson(u));
    forall f ensures f in p.profile <==> f != UserStore.CompanyState {
      FieldKeysCovered(f);
    }
    UserRouter.UserInfoIdentity(u);
  }

  /** Login end to end: the login body resolves through the request gateway
      to the token and the user payload, the follow-up `/info` body resolves
      to the current user's payload, and after both patches the session's
      role is the current user's stored role. */
  lemma LoginFlow(u: UserRouter.User, token: string, current: UserRouter.User, s: UserStore.UserState)
    ensures Request.OnResponse(UserRouter.LoginBody(u, token)).outcome ==
              Resolve(Obj(map["token" := Str(token), "userInfo" := UserRouter.UserInfoJson(u)]))
    ensures Request.OnResponse(UserRouter.GetUserInfo(current)).outcome == Resolve(UserRouter.UserInfoJson(current))
    ensures UserStore.Patched(UserStore.Patched(s, UserStore.PatchOf(UserRouter.UserInfoJson(u))),
                              UserStore.PatchOf(UserRouter.UserInfoJson(current))).role == current.role
  {
    var data := Obj(map["token" := Str(token), "userInfo" := UserRouter.UserInfoJson(u)]);
    EnvelopeFields(UserRouter.LoginBody(u, token), Response.ResponseModel(Response.SUCCESS, "登录成功", data));
    EnvelopeFields(UserRouter.GetUserInfo(current),
                   Response.ResponseModel(Response.SUCCESS, "获取成功", UserRouter.UserInfoJson(current)));
    PayloadFillsSession(current, s);
  }

  /** As written, the logout reply has no code, so the request gateway shows
      its failure notice and rejects every logout. */
  lemma LogoutReplyRejected()
    ensures Request.OnResponse(UserRouter.LogoutReply()) == Handled(Reject(Failed(REQUEST_FAILED)), [Notice(REQUEST_FAILED)])
  {
  }

  /** With the message in a success envelope, logout resolves quietly. */
  lemma LogoutEnvelopeResolves()
    ensures Request.OnResponse(UserRouter.LogoutEnvelope()) == Handled(Resolve(Null), [])
  {
    SuccessEnvelopeResolves(Null, "登出成功", "");
  }

  /** The response the server sends for a raised exception: its status, and
      a body holding only `detail`. */
  function Delivered(e: Http.HttpException): (error: HttpError)
    ensures error.requestSent && error.response.Some? && error.response.value.status == e.status
    ensures Get(error.response.value.data, "detail") == Str(e.detail)
    ensures Get(error.response.value.data, "message") == Undefined
  {
    HttpError(Some(ErrorResponse(e.status, Obj(map["detail" := Str(e.detail)]))), true)
  }

  /** A raised exception reaches the user of the request gateway as the
      notice of its status; the frontend reads `message`, the backend sends
      `detail`, so a status without a notice of its own (a 400, say) shows
      the generic failure text. */
  lemma RaisedExceptionNotices(e: Http.HttpException)
    ensures Request.OnResponseError(Delivered(e)).outcome == Reject(Rethrown(Delivered(e)))
    ensures e.status == 401 ==>
              Request.OnResponseError(Delivered(e)).effects == [Notice(UNAUTHORIZED_NOTICE), RemoveStoredItem(TOKEN_KEY), RedirectToLogin]
    ensures e.status == 403 ==> Request.OnResponseError(Delivered(e)).effects == [Notice(FORBIDDEN_NOTICE)]
    ensures e.status == 404 ==> Request.OnResponseError(Delivered(e)).effects == [Notice(NOT_FOUND_NOTICE)]
    ensures e.status == 500 ==> Request.OnResponseError(Delivered(e)).effects == [Notice(SERVER_ERROR_NOTICE)]
    ensures e.status !in {401, 403, 404, 500} ==> Request.OnResponseError(Delivered(e)).effects == [Notice(REQUEST_FAILED)]
  {
  }

  /** A successful profile update as written reaches the client as a server
      error; the corrected reply resolves to the updated payload. */
  lemma ProfileUpdateAtClient(updated: UserRouter.User)
    ensures Request.OnResponseError(Delivered(UserRouter.UNHANDLED_ERROR)).effects == [Notice(SERVER_ERROR_NOTICE)]
    ensures Request.OnResponse(Response.SuccessResponse(UserRouter.UserInfoJson(updated), "更新成功")) ==
              Handled(Resolve(UserRouter.UserInfoJson(updated)), [])
  {
    RaisedExceptionNotices(UserRouter.UNHANDLED_ERROR);
    SuccessEnvelopeResolves(UserRouter.UserInfoJson(updated), "更新成功", "");
  }
}
