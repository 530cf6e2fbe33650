/** The global HTTP client's interceptors: attach the credential to every
    request, classify every response by its business envelope, and classify
    transport errors. `getToken()` is a parameter. */
module Interceptor {
  import opened Wrappers
  import opened Js
  import opened Gateway

  /** The "who am I" endpoint, exempt from the forced-logout dialog. */
  const USER_INFO_URL: string := "/api/user/info"

  /** The notice and error text for a body that is not an object. */
  const FORMAT_ERROR: string := "服务器返回数据格式错误"

  /** The request interceptor: with a truthy token the `Authorization`
      header becomes `Bearer <token>`, creating the headers object when it is
      missing; otherwise the configuration is left as it is. The same object
      is returned. */
  method OnRequest(config: RequestConfig, token: Option<string>) returns (out: RequestConfig)
    modifies config
    ensures out == config && config.url == old(config.url)
    ensures HasToken(token) ==>
              config.headers == Some(old(config.headers).GetOr(map[])[AUTHORIZATION := Bearer(token.value)])
    ensures !HasToken(token) ==> config.headers == old(config.headers)
  {
    if HasToken(token) {
      if config.headers.None? {
        config.headers := Some(map[]);
      }
      config.headers := Some(config.headers.value[AUTHORIZATION := Bearer(token.value)]);
    }
    out := config;
  }

  /** The response interceptor for the body `res` of a request to `url`. */
  function OnResponse(url: string, res: Value): (h: Handled)
    // A falsy or non-object body is refused with the format error.
    ensures !Truthy(res) || !IsObjectType(res) ==>
              h == Handled(Reject(Failed(FORMAT_ERROR)), [Notice(FORMAT_ERROR)])
    // An object without a code is passed through unchanged.
    ensures Truthy(res) && IsObjectType(res) && Get(res, "code") == Undefined ==> h == Handled(Resolve(res), [])
    // Success resolves to the payload when it is truthy, else to the envelope.
    ensures Get(res, "code") == Num(SUCCESS_CODE) ==> h == Handled(Resolve(Or(Get(res, "data"), res)), [])
    // Any other code rejects with the message (or 'Error') after one notice.
    ensures Get(res, "code") != Undefined && Get(res, "code") != Num(SUCCESS_CODE) ==>
              && h.outcome == Reject(Failed(TextOr(Get(res, "msg"), "Error")))
              && |h.effects| > 0 && h.effects[0] == Notice(TextOr(Get(res, "msg"), "Error"))
    // The notice is followed by the dialog iff a forced-logout code comes
    // from another endpoint, and by nothing else.
    ensures Get(res, "code") != Undefined && Get(res, "code") != Num(SUCCESS_CODE) ==>
              h.effects == [Notice(TextOr(Get(res, "msg"), "Error"))] +
                           (if ForcedLogoutCode(Get(res, "code")) && url != USER_INFO_URL then [ForcedLogoutDialog] else [])
    // The dialog appears iff a forced-logout code comes from another endpoint.
    ensures ForcedLogoutDialog in h.effects <==> ForcedLogoutCode(Get(res, "code")) && url != USER_INFO_URL
    ensures h.outcome.Reject? <==> NoticeCount(h.effects) == 1
    ensures ClearToken !in h.effects && RedirectToLogin !in h.effects
  {
    if !Truthy(res) || !IsObjectType(res) then
      Handled(Reject(Failed(FORMAT_ERROR)), [Notice(FORMAT_ERROR)])
    else if Get(res, "code") != Undefined then
      if Get(res, "code") != Num(SUCCESS_CODE) then
        var text := TextOr(Get(res, "msg"), "Error");
        var dialog := ForcedLogoutCode(Get(res, "code")) && url != USER_INFO_URL;
        var effects := [Notice(text)] + (if dialog then [ForcedLogoutDialog] else []);
        assert NoticeCount(effects) == 1 by {
          assert effects[1..] == [] || effects[1..] == [ForcedLogoutDialog];
          assert [ForcedLogoutDialog][1..] == [];
        }
        Handled(Reject(Failed(text)), effects)
      else
        Handled(Resolve(Or(Get(res, "data"), res)), [])
    else
      Handled(Resolve(res), [])
  }

  /** The error interceptor: the shared classification, forgetting the
      credential through the auth helper. */
  function OnResponseError(error: HttpError): (h: Handled)
    ensures h.outcome == Reject(Rethrown(error))
    ensures ClearToken in h.effects <==> error.response.Some? && error.response.value.status == 401
    ensures RedirectToLogin in h.effects <==> error.response.Some? && error.response.value.status == 401
    ensures NoticeCount(h.effects) == 1
    ensures ForcedLogoutDialog !in h.effects
    ensures error.response.Some? && error.response.value.status == 401 ==>
              h.effects == [Notice(UNAUTHORIZED_NOTICE), ClearToken, RedirectToLogin]
    // 403, 404, 500 and every other status only notify.
    ensures error.response.Some? && error.response.value.status != 401 ==>
              h.effects == [Notice(StatusNotice(error.response.value))]
    ensures error.response.None? ==>
              h.effects == [Notice(if error.requestSent then NETWORK_NOTICE else CONFIG_NOTICE)]
  {
    OnTransportError(error, ClearToken)
  }
}
