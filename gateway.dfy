/** What the two HTTP gateways of the frontend share: the business envelope
    codes, the request configuration they rewrite, the outcome of a response
    handler with its side effects, and the transport-error handler, which is
    written out identically in both. */
module Gateway {
  import opened Wrappers
  import opened Js

  /** The business envelope's success code. */
  const SUCCESS_CODE: int := 20000

  /** 50008 illegal token, 50012 logged in elsewhere, 50014 token expired. */
  const FORCED_LOGOUT_CODES: set<int> := {50008, 50012, 50014}

  /** The header that carries the credential. */
  const AUTHORIZATION: string := "Authorization"

  /** The storage key under which the credential is kept. */
  const TOKEN_KEY: string := "token"

  /** The notices of the transport-error handler. */
  const UNAUTHORIZED_NOTICE: string := "未授权访问，请重新登录"
  const FORBIDDEN_NOTICE: string := "权限不足"
  const NOT_FOUND_NOTICE: string := "请求的资源不存在"
  const SERVER_ERROR_NOTICE: string := "服务器内部错误"
  const REQUEST_FAILED: string := "请求失败"
  const NETWORK_NOTICE: string := "网络连接失败，请检查网络设置"
  const CONFIG_NOTICE: string := "请求配置错误"

  /** A side effect of a handler, in the order it happens. */
  datatype Effect =
    | Notice(text: string)       // `Message.error(text)`
    | ClearToken                 // the auth helper's `clearToken()`
    | RemoveStoredItem(key: string) // `localStorage.removeItem(key)`
    | RedirectToLogin            // `window.location.href = '/login'`
    | ForcedLogoutDialog         // `Modal.error(...)`, whose OK button logs out and reloads

  /** The response carried by a transport error. */
  datatype ErrorResponse = ErrorResponse(status: int, data: Value)

  /** A failed request: with a response (an HTTP error status), with only a
      request (nothing came back), or neither (the request was never sent). */
  datatype HttpError = HttpError(response: Option<ErrorResponse>, requestSent: bool)

  /** Why a call rejects: a new `Error(message)`, or the original error. */
  datatype Rejection = Failed(message: string) | Rethrown(error: HttpError)

  /** The promise a handler returns. */
  datatype Outcome = Resolve(value: Value) | Reject(reason: Rejection)

  /** A handler's result: its outcome and its side effects. */
  datatype Handled = Handled(outcome: Outcome, effects: seq<Effect>)

  /** An outgoing request's configuration, which the request interceptors
      rewrite in place. `headers` is `None` when the object has none. */
  class RequestConfig {
    var url: string
    var headers: Option<map<string, string>>

    constructor (url: string, headers: Option<map<string, string>>)
      ensures this.url == url && this.headers == headers
    {
      this.url := url;
      this.headers := headers;
    }
  }

  /** A credential is attached only when it is truthy: present and non-empty. */
  predicate HasToken(token: Option<string>) {
    token.Some? && token.value != ""
  }

  /** The header value for a credential. */
  function Bearer(token: string): (v: string)
    ensures |v| == 7 + |token| && v[..7] == "Bearer " && v[7..] == token
  {
    "Bearer " + token
  }

  /** The code field is one of the forced-logout codes (strict equality, so
      only numbers match). */
  predicate ForcedLogoutCode(code: Value) {
    code.Num? && code.n in FORCED_LOGOUT_CODES
  }

  /** The number of notices among the effects. */
  function NoticeCount(effects: seq<Effect>): nat {
    if effects == [] then 0 else (if effects[0].Notice? then 1 else 0) + NoticeCount(effects[1..])
  }

  /** The notice for an error status other than 401: a fixed text for 403,
      404 and 500, otherwise the body's `message` or `'请求失败'`. */
  function StatusNotice(response: ErrorResponse): string {
    if response.status == 403 then FORBIDDEN_NOTICE
    else if response.status == 404 then NOT_FOUND_NOTICE
    else if response.status == 500 then SERVER_ERROR_NOTICE
    else TextOr(Get(response.data, "message"), REQUEST_FAILED)
  }

  /** The error interceptor of either gateway. `forget` is how that gateway
      drops the credential on a 401. */
  function OnTransportError(error: HttpError, forget: Effect): (h: Handled)
    requires forget == ClearToken || forget == RemoveStoredItem(TOKEN_KEY)
    ensures h.outcome == Reject(Rethrown(error))
    ensures NoticeCount(h.effects) == 1
    ensures forget in h.effects <==> error.response.Some? && error.response.value.status == 401
    ensures RedirectToLogin in h.effects <==> error.response.Some? && error.response.value.status == 401
    ensures ForcedLogoutDialog !in h.effects
    ensures error.response.Some? && error.response.value.status == 401 ==>
              h.effects == [Notice(UNAUTHORIZED_NOTICE), forget, RedirectToLogin]
    // Every other status only notifies, with its own text.
    ensures error.response.Some? && error.response.value.status != 401 ==>
              h.effects == [Notice(StatusNotice(error.response.value))]
    ensures error.response.None? ==>
              h.effects == [Notice(if error.requestSent then NETWORK_NOTICE else CONFIG_NOTICE)]
  {
    var effects :=
      if error.response.Some? then
        var status := error.response.value.status;
        if status == 401 then [Notice(UNAUTHORIZED_NOTICE), forget, RedirectToLogin]
        else [Notice(StatusNotice(error.response.value))]
      else if error.requestSent then [Notice(NETWORK_NOTICE)]
      else [Notice(CONFIG_NOTICE)];
    assert NoticeCount(effects) == 1 by {
      assert effects[1..] == [] || effects[1..] == [forget, RedirectToLogin];
      assert NoticeCount([RedirectToLogin]) == 0 by { assert [RedirectToLogin][1..] == []; }
    }
    Handled(Reject(Rethrown(error)), effects)
  }
}
