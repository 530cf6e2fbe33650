/** The backend's uniform envelope `{code, msg, data}` and its constructors.
    A body is modelled by its JSON value; the serialised text is not. */
module Response {
  import opened Wrappers
  import opened Js

  /** The business codes the constructors use. */
  const SUCCESS: int := 20000
  const VALIDATION_ERROR: int := 40000
  const UNAUTHORIZED: int := 50008
  const TOKEN_EXPIRED: int := 50014
  const OTHER_CLIENT_LOGIN: int := 50012

  /** The constructors' default messages. */
  const SUCCESS_MSG: string := "成功"
  const VALIDATION_MSG: string := "参数验证失败"
  const UNAUTHORIZED_MSG: string := "未授权访问"
  const TOKEN_EXPIRED_MSG: string := "令牌已过期"

  /** `ResponseModel`: the three fields, set once. */
  datatype ResponseModel = ResponseModel(code: int, msg: string, data: Value)

  /** `ResponseModel(code=..., msg=..., data=...)`; an argument left out takes
      its default. */
  function NewResponseModel(code: Option<int>, msg: Option<string>, data: Option<Value>): (m: ResponseModel)
    ensures code.Some? ==> m.code == code.value
    ensures msg.Some? ==> m.msg == msg.value
    ensures data.Some? ==> m.data == data.value
    ensures code.None? ==> m.code == SUCCESS
    ensures msg.None? ==> m.msg == SUCCESS_MSG
    ensures data.None? ==> m.data == Null
  {
    ResponseModel(code.GetOr(SUCCESS), msg.GetOr(SUCCESS_MSG), data.GetOr(Null))
  }

  /** `to_dict()`: exactly the keys code, msg and data. */
  function ToDict(m: ResponseModel): (d: Value)
    ensures d.Obj? && d.fields.Keys == {"code", "msg", "data"}
    ensures Get(d, "code") == Num(m.code) && Get(d, "msg") == Str(m.msg) && Get(d, "data") == m.data
  {
    Obj(map["code" := Num(m.code), "msg" := Str(m.msg), "data" := m.data])
  }

  /** Reading an envelope back: an object with exactly the three keys, a
      numeric code and a string message. */
  function FromDict(d: Value): Option<ResponseModel> {
    if d.Obj? && d.fields.Keys == {"code", "msg", "data"} && d.fields["code"].Num? && d.fields["msg"].Str? then
      Some(ResponseModel(d.fields["code"].n, d.fields["msg"].s, d.fields["data"]))
    else
      None
  }

  /** `to_dict` loses nothing, and every well-formed envelope is one. */
  lemma EnvelopeRoundTrip(m: ResponseModel, d: Value)
    ensures FromDict(ToDict(m)) == Some(m)
    ensures FromDict(d) == Some(m) <==> d == ToDict(m)
  {
    if FromDict(d) == Some(m) {
      assert d.fields == ToDict(m).fields;
    }
  }

  /** `success_response(data, msg)`: always code 20000. */
  function SuccessResponse(data: Value, msg: string): (body: Value)
    ensures FromDict(body) == Some(ResponseModel(SUCCESS, msg, data))
  {
    EnvelopeRoundTrip(ResponseModel(SUCCESS, msg, data), Null);
    ToDict(ResponseModel(SUCCESS, msg, data))
  }

  /** `error_response(code, msg, data)`: the given fields, unchanged. */
  function ErrorResponse(code: int, msg: string, data: Value): (body: Value)
    ensures FromDict(body) == Some(ResponseModel(code, msg, data))
  {
    EnvelopeRoundTrip(ResponseModel(code, msg, data), Null);
    ToDict(ResponseModel(code, msg, data))
  }

  /** The named error helpers, with their default messages and no data. */
  function ValidationErrorResponse(msg: Option<string>): (body: Value)
    ensures FromDict(body) == Some(ResponseModel(VALIDATION_ERROR, msg.GetOr(VALIDATION_MSG), Null))
  {
    ErrorResponse(VALIDATION_ERROR, msg.GetOr(VALIDATION_MSG), Null)
  }

  function UnauthorizedErrorResponse(msg: Option<string>): (body: Value)
    ensures FromDict(body) == Some(ResponseModel(UNAUTHORIZED, msg.GetOr(UNAUTHORIZED_MSG), Null))
  {
    ErrorResponse(UNAUTHORIZED, msg.GetOr(UNAUTHORIZED_MSG), Null)
  }

  function TokenExpiredErrorResponse(msg: Option<string>): (body: Value)
    ensures FromDict(body) == Some(ResponseModel(TOKEN_EXPIRED, msg.GetOr(TOKEN_EXPIRED_MSG), Null))
  {
    ErrorResponse(TOKEN_EXPIRED, msg.GetOr(TOKEN_EXPIRED_MSG), Null)
  }

  /** `ERROR_CODES`. */
  const ERROR_CODES: map<string, int> :=
    map["SUCCESS" := 20000, "VALIDATION_ERROR" := 40000, "UNAUTHORIZED" := 50008,
        "TOKEN_EXPIRED" := 50014, "OTHER_CLIENT_LOGIN" := 50012]

  /** The table agrees with the constructors: each helper's envelope carries
      the code the table names for it, and the codes are pairwise distinct. */
  lemma ErrorCodesAgree(data: Value, msg: Option<string>)
    ensures Get(SuccessResponse(data, SUCCESS_MSG), "code") == Num(ERROR_CODES["SUCCESS"])
    ensures Get(ValidationErrorResponse(msg), "code") == Num(ERROR_CODES["VALIDATION_ERROR"])
    ensures Get(UnauthorizedErrorResponse(msg), "code") == Num(ERROR_CODES["UNAUTHORIZED"])
    ensures Get(TokenExpiredErrorResponse(msg), "code") == Num(ERROR_CODES["TOKEN_EXPIRED"])
    ensures forall a, b :: a in ERROR_CODES && b in ERROR_CODES && a != b ==> ERROR_CODES[a] != ERROR_CODES[b]
  {
  }
}
