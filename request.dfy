/** The second HTTP gateway, the `request` instance used by the API
    wrappers. Its storage (`localStorage`) is a parameter. */
module Request {
  import opened Wrappers
  import opened Js
  import opened Gateway
  import Interceptor

  /** The notice for a forced-logout code without a message. */
  const SESSION_EXPIRED: string := "登录状态已失效，请重新登录"

  /** `localStorage.getItem('token')`. */
  function StoredToken(storage: map<string, string>): Option<string> {
    if TOKEN_KEY in storage then Some(storage[TOKEN_KEY]) else None
  }

  /** The request interceptor: a truthy stored token becomes the
      `Authorization: Bearer <token>` header. The instance's default headers
      guarantee that `config.headers` exists. */
  method OnRequest(config: RequestConfig, storage: map<string, string>) returns (out: RequestConfig)
    requires config.headers.Some?
    modifies config
    ensures out == config && config.url == old(config.url)
    ensures HasToken(StoredToken(storage)) ==>
              config.headers == Some(old(config.headers).value[AUTHORIZATION := Bearer(storage[TOKEN_KEY])])
    ensures !HasToken(StoredToken(storage)) ==> config.headers == old(config.headers)
  {
    var token := StoredToken(storage);
    if HasToken(token) {
      config.headers := Some(config.headers.value[AUTHORIZATION := Bearer(token.value)]);
    }
    out := config;
  }

  /** The response interceptor for the body `data`. */
  function OnResponse(data: Value): (h: Handled)
    // Success resolves to the payload itself, whatever it is.
    ensures Get(data, "code") == Num(SUCCESS_CODE) ==> h == Handled(Resolve(Get(data, "data")), [])
    // Every other body, a missing code included, rejects with the message or the default.
    ensures Get(data, "code") != Num(SUCCESS_CODE) ==>
              h.outcome == Reject(Failed(TextOr(Get(data, "msg"), REQUEST_FAILED)))
    // A forced-logout code drops the stored token and goes to the login page, from any URL.
    ensures RemoveStoredItem(TOKEN_KEY) in h.effects <==> ForcedLogoutCode(Get(data, "code"))
    ensures RedirectToLogin in h.effects <==> ForcedLogoutCode(Get(data, "code"))
    ensures ForcedLogoutCode(Get(data, "code")) ==>
              h.effects == [Notice(TextOr(Get(data, "msg"), SESSION_EXPIRED)), RemoveStoredItem(TOKEN_KEY), RedirectToLogin]
    // Any other code only notifies, with the message or the default.
    ensures Get(data, "code") != Num(SUCCESS_CODE) && !ForcedLogoutCode(Get(data, "code")) ==>
              h.effects == [Notice(TextOr(Get(data, "msg"), REQUEST_FAILED))]
    ensures h.outcome.Reject? <==> NoticeCount(h.effects) == 1
    ensures ForcedLogoutDialog !in h.effects
  {
    var code := Get(data, "code");
    if code == Num(SUCCESS_CODE) then
      Handled(Resolve(Get(data, "data")), [])
    else
      var effects :=
        if ForcedLogoutCode(code) then
          [Notice(TextOr(Get(data, "msg"), SESSION_EXPIRED)), RemoveStoredItem(TOKEN_KEY), RedirectToLogin]
        else
          [Notice(TextOr(Get(data, "msg"), REQUEST_FAILED))];
      assert NoticeCount(effects) == 1 by {
        assert effects[1..] == [] || effects[1..] == [RemoveStoredItem(TOKEN_KEY), RedirectToLogin];
        assert [RedirectToLogin][1..] == [];
        assert [RemoveStoredItem(TOKEN_KEY), RedirectToLogin][1..] == [RedirectToLogin];
        assert NoticeCount([RemoveStoredItem(TOKEN_KEY), RedirectToLogin]) == 0;
      }
      Handled(Reject(Failed(TextOr(Get(data, "msg"), REQUEST_FAILED))), effects)
  }

  /** The error interceptor: the shared classification, removing the stored
      token directly. */
  function OnResponseError(error: HttpError): (h: Handled)
    ensures h.outcome == Reject(Rethrown(error))
    ensures RemoveStoredItem(TOKEN_KEY) in h.effects <==> error.response.Some? && error.response.value.status == 401
    ensures RedirectToLogin in h.effects <==> error.response.Some? && error.response.value.status == 401
    ensures NoticeCount(h.effects) == 1
    ensures ForcedLogoutDialog !in h.effects
    ensures error.response.Some? && error.response.value.status == 401 ==>
              h.effects == [Notice(UNAUTHORIZED_NOTICE), RemoveStoredItem(TOKEN_KEY), RedirectToLogin]
    // 403, 404, 500 and every other status only notify.
    ensures error.response.Some? && error.response.value.status != 401 ==>
              h.effects == [Notice(StatusNotice(error.response.value))]
    ensures error.response.None? ==>
              h.effects == [Notice(if error.requestSent then NETWORK_NOTICE else CONFIG_NOTICE)]
  {
    OnTransportError(error, RemoveStoredItem(TOKEN_KEY))
  }

  /** Where the two gateways agree: a success envelope with a truthy payload
      resolves to that payload in both, and a transport error is classified
      the same way up to how the credential is dropped. */
  lemma GatewaysAgree(url: string, body: Value, error: HttpError)
    requires Get(body, "code") == Num(SUCCESS_CODE) && Truthy(Get(body, "data"))
    ensures Interceptor.OnResponse(url, body).outcome == OnResponse(body).outcome == Resolve(Get(body, "data"))
    ensures Interceptor.OnResponseError(error).outcome == OnResponseError(error).outcome
    ensures |Interceptor.OnResponseError(error).effects| == |OnResponseError(error).effects|
  {
  }

  /** Where they differ: a success envelope with a falsy payload, a body
      without a code, and a forced-logout code from the "who am I" endpoint. */
  lemma GatewaysDiffer(fields: map<string, Value>, code: int)
    requires "code" !in fields && code in FORCED_LOGOUT_CODES
    ensures var body := Obj(fields["code" := Num(SUCCESS_CODE)]["data" := Null]);
            Interceptor.OnResponse("/api/user/info", body).outcome == Resolve(body) &&
            OnResponse(body).outcome == Resolve(Null)
    ensures Interceptor.OnResponse("/api/user/info", Obj(fields)).outcome == Resolve(Obj(fields)) &&
            OnResponse(Obj(fields)).outcome.Reject?
    ensures var body := Obj(fields["code" := Num(code)]);
            Interceptor.OnResponse("/api/user/info", body).effects == [Notice(TextOr(Get(body, "msg"), "Error"))] &&
            RemoveStoredItem(TOKEN_KEY) in OnResponse(body).effects
  {
    var body := Obj(fields["code" := Num(code)]);
    assert Get(body, "code") == Num(code);
  }
}
