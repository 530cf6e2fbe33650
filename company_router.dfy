/** The company-state router. The plain endpoints return a record or raise;
    the envelope endpoints (`/create`, `/update`, `/info`, `/user-info`)
    always answer with a `{code, msg, data}` body and turn any exception into
    code 50000. A database exception is a parameter (`failure`, its text),
    and a call that raises changes nothing. */
module CompanyRouter {
  import opened Wrappers
  import opened Js
  import opened Http
  import opened Response
  import opened CompanyCrud

  const NOT_FOUND_DETAIL: string := "公司状态不存在"
  const DUPLICATE_NAME: string := "公司名称已存在"

  /** The envelope codes of the envelope endpoints besides success. */
  const DUPLICATE_CODE: int := 40001
  const MISSING_CODE: int := 40400
  const FAILURE_CODE: int := 50000

  /** The text `json.dumps` raises for a database record. */
  const NOT_SERIALIZABLE: string := "Object of type CompanyState is not JSON serializable"

  /** The column's key in a record's JSON form. */
  function ColumnName(c: CompanyColumn): string {
    match c
    case CompanyCode => "company_code"
    case CompanyPhone => "company_phone"
    case WarrantyYear => "warranty_year"
    case EpsAccount => "eps_account"
    case EpsPassword => "eps_password"
    case BankName => "bank_name"
    case BankAccount => "bank_account"
    case FrameworkContractExpire => "framework_contract_expire"
    case MaterialInfo => "material_info"
  }

  /** The column a JSON key names, if any. */
  function ColumnNamed(key: string): (c: Option<CompanyColumn>)
    ensures c.Some? ==> ColumnName(c.value) == key
  {
    if key == "company_code" then Some(CompanyCode)
    else if key == "company_phone" then Some(CompanyPhone)
    else if key == "warranty_year" then Some(WarrantyYear)
    else if key == "eps_account" then Some(EpsAccount)
    else if key == "eps_password" then Some(EpsPassword)
    else if key == "bank_name" then Some(BankName)
    else if key == "bank_account" then Some(BankAccount)
    else if key == "framework_contract_expire" then Some(FrameworkContractExpire)
    else if key == "material_info" then Some(MaterialInfo)
    else None
  }

  /** Column names and column keys are inverse. */
  lemma ColumnNameRoundTrip(c: CompanyColumn)
    ensures ColumnNamed(ColumnName(c)) == Some(c)
  {
  }

  /** The keys of a record's JSON form. */
  const COMPANY_KEYS: set<string> :=
    {"id", "company_name", "user_id", "company_code", "company_phone", "warranty_year", "eps_account",
     "eps_password", "bank_name", "bank_account", "framework_contract_expire", "material_info"}

  function CompanyValue(s: CompanyState, key: string): Value {
    if key == "id" then Num(s.id)
    else if key == "company_name" then Str(s.companyName)
    else if key == "user_id" then Num(s.userId)
    else match ColumnNamed(key)
      case Some(c) => ColumnValue(s, c)
      case None => Null
  }

  /** A record's JSON form: its id, name, owner and every column. */
  function CompanyJson(s: CompanyState): (v: Value)
    ensures v.Obj? && v.fields.Keys == COMPANY_KEYS
  {
    Obj(map key | key in COMPANY_KEYS :: CompanyValue(s, key))
  }

  /** The JSON form keeps every field of the record. */
  lemma CompanyJsonFields(s: CompanyState, c: CompanyColumn)
    ensures Get(CompanyJson(s), "id") == Num(s.id)
    ensures Get(CompanyJson(s), "company_name") == Str(s.companyName)
    ensures Get(CompanyJson(s), "user_id") == Num(s.userId)
    ensures Get(CompanyJson(s), ColumnName(c)) == ColumnValue(s, c)
  {
    ColumnNameRoundTrip(c);
    assert ColumnName(c) in COMPANY_KEYS;
    assert ColumnName(c) != "id" && ColumnName(c) != "company_name" && ColumnName(c) != "user_id";
  }

  /** What a handler hands to `success_response` as data: a plain value, one
      database record, or a list of them. */
  datatype Payload = Plain(value: Value) | Record(state: CompanyState) | Records(states: seq<CompanyState>)

  /** `json.dumps` as it is called: a database record is not serialisable, so
      a record, or a list holding one, raises. */
  function Dumps(p: Payload): (r: Result<Value, string>)
    ensures r.Failure? <==> p.Record? || (p.Records? && p.states != [])
    ensures r.Failure? ==> r.error == NOT_SERIALIZABLE
  {
    match p
    case Plain(v) => Success(v)
    case Record(_) => Failure(NOT_SERIALIZABLE)
    case Records(states) => if states == [] then Success(Arr([])) else Failure(NOT_SERIALIZABLE)
  }

  /** `try: return success_response(p, msg) except Exception as e:
      return error_response(50000, prefix + str(e))`, as written. */
  function SuccessEnvelopeAsWritten(p: Payload, msg: string, prefix: string): (body: Value)
    ensures Dumps(p).Success? ==> body == SuccessResponse(Dumps(p).value, msg)
    ensures Dumps(p).Failure? ==> body == ErrorResponse(FAILURE_CODE, prefix + NOT_SERIALIZABLE, Null)
  {
    match Dumps(p)
    case Success(v) => SuccessResponse(v, msg)
    case Failure(e) => ErrorResponse(FAILURE_CODE, prefix + e, Null)
  }

  /** As written, every success path that carries a record reports failure. */
  lemma AsWrittenRecordsReportFailure(s: CompanyState, states: seq<CompanyState>, msg: string, prefix: string)
    ensures Get(SuccessEnvelopeAsWritten(Record(s), msg, prefix), "code") == Num(FAILURE_CODE)
    ensures Get(SuccessEnvelopeAsWritten(Records(states), msg, prefix), "code") == Num(FAILURE_CODE) <==> states != []
  {
    var b := SuccessEnvelopeAsWritten(Records(states), msg, prefix);
    assert FromDict(b).Some? && Get(b, "code") == Num(FromDict(b).value.code);
  }

  /** The payload as it is evidently meant to be sent: records in their JSON form. */
  function Encode(p: Payload): (v: Value)
    ensures p.Plain? ==> v == p.value
    ensures p.Record? ==> v == CompanyJson(p.state)
    ensures p.Records? ==> v.Arr? && |v.items| == |p.states| &&
                           forall k :: 0 <= k < |p.states| ==> v.items[k] == CompanyJson(p.states[k])
  {
    match p
    case Plain(v) => v
    case Record(s) => CompanyJson(s)
    case Records(states) => Arr(seq(|states|, k requires 0 <= k < |states| => CompanyJson(states[k])))
  }

  /** The corrected success envelope: code 20000 with the encoded payload. */
  function SuccessEnvelope(p: Payload, msg: string): (body: Value)
    ensures FromDict(body) == Some(ResponseModel(SUCCESS, msg, Encode(p)))
  {
    SuccessResponse(Encode(p), msg)
  }

  /** `GET /{id}`. */
  function GetCompanyState(table: CompanyTable, id: int): (r: Reply<CompanyState>)
    reads table
    ensures r.Ok? <==> id in table.rows
    ensures r.Ok? ==> r.value == table.rows[id]
    ensures r.Raise? ==> r.exception == HttpException(404, NOT_FOUND_DETAIL)
  {
    match table.GetById(id)
    case None => Raise(HttpException(404, NOT_FOUND_DETAIL))
    case Some(s) => Ok(s)
  }

  /** `GET /name/{name}`. */
  function GetCompanyStateByCompanyName(table: CompanyTable, name: string): (r: Reply<CompanyState>)
    reads table
    requires table.Valid()
    ensures r.Ok? <==> exists id :: id in table.rows && table.rows[id].companyName == name
    ensures r.Ok? ==> r.value.companyName == name && r.value.id in table.rows && table.rows[r.value.id] == r.value
    ensures r.Raise? ==> r.exception == HttpException(404, NOT_FOUND_DETAIL)
  {
    match table.GetByName(name)
    case None => Raise(HttpException(404, NOT_FOUND_DETAIL))
    case Some(s) => Ok(s)
  }

  /** `POST /`: a taken name is refused and nothing is stored. */
  method CreateNewCompanyState(table: CompanyTable, req: CompanyStateCreate) returns (r: Reply<CompanyState>)
    requires table.Valid()
    modifies table
    ensures table.Valid()
    ensures (exists id :: id in old(table.rows) && old(table.rows)[id].companyName == req.companyName) ==>
              r == Raise(HttpException(400, DUPLICATE_NAME)) && table.rows == old(table.rows)
    ensures r.Ok? <==> forall id :: id in old(table.rows) ==> old(table.rows)[id].companyName != req.companyName
    ensures r.Ok? ==> r.value.id !in old(table.rows) && table.rows == old(table.rows)[r.value.id := r.value] &&
                      r.value.companyName == req.companyName && r.value.userId == req.userId &&
                      r.value.columns == req.columns
  {
    var existing := table.GetByName(req.companyName);
    if existing.Some? {
      return Raise(HttpException(400, DUPLICATE_NAME));
    }
    var created := table.Create(req);
    r := Ok(created);
  }

  /** `PUT /{id}`. */
  method UpdateExistingCompanyState(table: CompanyTable, id: int, update: map<CompanyColumn, Value>)
    returns (r: Reply<CompanyState>)
    requires table.Valid()
    modifies table
    ensures table.Valid()
    ensures id !in old(table.rows) ==> r == Raise(HttpException(404, NOT_FOUND_DETAIL)) && table.rows == old(table.rows)
    ensures id in old(table.rows) ==>
              table.rows == old(table.rows)[id := old(table.rows)[id].(columns := old(table.rows)[id].columns + update)] &&
              r == Ok(table.rows[id])
  {
    var updated := table.Update(id, update);
    if updated.None? {
      return Raise(HttpException(404, NOT_FOUND_DETAIL));
    }
    r := Ok(updated.value);
  }

  /** `DELETE /{id}`. */
  method DeleteExistingCompanyState(table: CompanyTable, id: int) returns (r: Reply<Value>)
    requires table.Valid()
    modifies table
    ensures table.Valid() && table.rows == old(table.rows) - {id}
    ensures r.Ok? <==> id in old(table.rows)
    ensures r.Ok? ==> r.value == Obj(map["message" := Str("公司状态删除成功")])
    ensures r.Raise? ==> r.exception == HttpException(404, NOT_FOUND_DETAIL)
  {
    var deleted := table.Delete(id);
    if !deleted {
      return Raise(HttpException(404, NOT_FOUND_DETAIL));
    }
    r := Ok(Obj(map["message" := Str("公司状态删除成功")]));
  }

  const CREATE_FAILED: string := "创建公司状态失败: "
  const UPDATE_FAILED: string := "更新公司状态失败: "
  const INFO_FAILED: string := "获取公司状态失败: "
  const USER_INFO_FAILED: string := "获取用户公司状态失败: "

  /** `POST /create` as written: a new name is stored, and then the reply,
      which carries the database record, fails to serialise, so the client is
      told 50000 although the record exists. */
  method CreateWithResponseAsWritten(table: CompanyTable, req: CompanyStateCreate, failure: Option<string>)
    returns (body: Value)
    requires table.Valid()
    modifies table
    ensures table.Valid()
    ensures failure.Some? ==>
              body == ErrorResponse(FAILURE_CODE, CREATE_FAILED + failure.value, Null) && table.rows == old(table.rows)
    ensures failure.None? && (exists id :: id in old(table.rows) && old(table.rows)[id].companyName == req.companyName) ==>
              body == ErrorResponse(DUPLICATE_CODE, DUPLICATE_NAME, Null) && table.rows == old(table.rows)
    ensures failure.None? && (forall id :: id in old(table.rows) ==> old(table.rows)[id].companyName != req.companyName) ==>
              old(table.nextId) !in old(table.rows) &&
              table.rows == old(table.rows)[old(table.nextId) := CompanyState(old(table.nextId), req.companyName, req.userId, req.columns)] &&
              body == ErrorResponse(FAILURE_CODE, CREATE_FAILED + NOT_SERIALIZABLE, Null)
  {
    if failure.Some? {
      return ErrorResponse(FAILURE_CODE, CREATE_FAILED + failure.value, Null);
    }
    var existing := table.GetByName(req.companyName);
    if existing.Some? {
      return ErrorResponse(DUPLICATE_CODE, DUPLICATE_NAME, Null);
    }
    var created := table.Create(req);
    body := SuccessEnvelopeAsWritten(Record(created), "公司状态创建成功", CREATE_FAILED);
  }

  /** `POST /create` with the record sent in its JSON form: 40001 for a taken
      name, 20000 with the new record, 50000 when the database raises. */
  method CreateWithResponse(table: CompanyTable, req: CompanyStateCreate, failure: Option<string>)
    returns (body: Value)
    requires table.Valid()
    modifies table
    ensures table.Valid()
    ensures failure.Some? ==>
              body == ErrorResponse(FAILURE_CODE, CREATE_FAILED + failure.value, Null) && table.rows == old(table.rows)
    ensures failure.None? && (exists id :: id in old(table.rows) && old(table.rows)[id].companyName == req.companyName) ==>
              body == ErrorResponse(DUPLICATE_CODE, DUPLICATE_NAME, Null) && table.rows == old(table.rows)
    ensures failure.None? && (forall id :: id in old(table.rows) ==> old(table.rows)[id].companyName != req.companyName) ==>
              var created := CompanyState(old(table.nextId), req.companyName, req.userId, req.columns);
              created.id !in old(table.rows) && table.rows == old(table.rows)[created.id := created] &&
              body == SuccessEnvelope(Record(created), "公司状态创建成功")
  {
    if failure.Some? {
      return ErrorResponse(FAILURE_CODE, CREATE_FAILED + failure.value, Null);
    }
    var existing := table.GetByName(req.companyName);
    if existing.Some? {
      return ErrorResponse(DUPLICATE_CODE, DUPLICATE_NAME, Null);
    }
    var created := table.Create(req);
    body := SuccessEnvelope(Record(created), "公司状态创建成功");
  }

  /** `PUT /update/{id}` as written: the change to a stored record is
      committed, and then the reply, which carries the record, fails to
      serialise, so the client is told 50000. */
  method UpdateWithResponseAsWritten(table: CompanyTable, id: int, update: map<CompanyColumn, Value>, failure: Option<string>)
    returns (body: Value)
    requires table.Valid()
    modifies table
    ensures table.Valid()
    ensures failure.Some? ==>
              body == ErrorResponse(FAILURE_CODE, UPDATE_FAILED + failure.value, Null) && table.rows == old(table.rows)
    ensures failure.None? && id !in old(table.rows) ==>
              body == ErrorResponse(MISSING_CODE, NOT_FOUND_DETAIL, Null) && table.rows == old(table.rows)
    ensures failure.None? && id in old(table.rows) ==>
              table.rows == old(table.rows)[id := old(table.rows)[id].(columns := old(table.rows)[id].columns + update)] &&
              body == ErrorResponse(FAILURE_CODE, UPDATE_FAILED + NOT_SERIALIZABLE, Null)
  {
    if failure.Some? {
      return ErrorResponse(FAILURE_CODE, UPDATE_FAILED + failure.value, Null);
    }
    var updated := table.Update(id, update);
    if updated.None? {
      return ErrorResponse(MISSING_CODE, NOT_FOUND_DETAIL, Null);
    }
    body := SuccessEnvelopeAsWritten(Record(updated.value), "公司状态更新成功", UPDATE_FAILED);
  }

  /** `PUT /update/{id}` with the record sent in its JSON form: 40400 for an
      unknown id, 20000 with the updated record, 50000 when the database
      raises. */
  method UpdateWithResponse(table: CompanyTable, id: int, update: map<CompanyColumn, Value>, failure: Option<string>)
    returns (body: Value)
    requires table.Valid()
    modifies table
    ensures table.Valid()
    ensures failure.Some? ==>
              body == ErrorResponse(FAILURE_CODE, UPDATE_FAILED + failure.value, Null) && table.rows == old(table.rows)
    ensures failure.None? && id !in old(table.rows) ==>
              body == ErrorResponse(MISSING_CODE, NOT_FOUND_DETAIL, Null) && table.rows == old(table.rows)
    ensures failure.None? && id in old(table.rows) ==>
              table.rows == old(table.rows)[id := old(table.rows)[id].(columns := old(table.rows)[id].columns + update)] &&
              body == SuccessEnvelope(Record(table.rows[id]), "公司状态更新成功")
  {
    if failure.Some? {
      return ErrorResponse(FAILURE_CODE, UPDATE_FAILED + failure.value, Null);
    }
    var updated := table.Update(id, update);
    if updated.None? {
      return ErrorResponse(MISSING_CODE, NOT_FOUND_DETAIL, Null);
    }
    body := SuccessEnvelope(Record(updated.value), "公司状态更新成功");
  }

  /** `GET /info/{id}` as written: a stored record fails to serialise, so
      every id that exists is answered with 50000. */
  function GetCompanyStateInfoAsWritten(table: CompanyTable, id: int, failure: Option<string>): (body: Value)
    reads table
    ensures failure.Some? ==> body == ErrorResponse(FAILURE_CODE, INFO_FAILED + failure.value, Null)
    ensures failure.None? && id !in table.rows ==> body == ErrorResponse(MISSING_CODE, NOT_FOUND_DETAIL, Null)
    ensures failure.None? && id in table.rows ==> body == ErrorResponse(FAILURE_CODE, INFO_FAILED + NOT_SERIALIZABLE, Null)
  {
    if failure.Some? then ErrorResponse(FAILURE_CODE, INFO_FAILED + failure.value, Null)
    else match table.GetById(id)
      case None => ErrorResponse(MISSING_CODE, NOT_FOUND_DETAIL, Null)
      case Some(s) => SuccessEnvelopeAsWritten(Record(s), "获取公司状态成功", INFO_FAILED)
  }

  /** `GET /info/{id}` with the record sent in its JSON form. */
  function GetCompanyStateInfo(table: CompanyTable, id: int, failure: Option<string>): (body: Value)
    reads table
    ensures failure.Some? ==> body == ErrorResponse(FAILURE_CODE, INFO_FAILED + failure.value, Null)
    ensures failure.None? && id !in table.rows ==> body == ErrorResponse(MISSING_CODE, NOT_FOUND_DETAIL, Null)
    ensures failure.None? && id in table.rows ==>
              FromDict(body) == Some(ResponseModel(SUCCESS, "获取公司状态成功", CompanyJson(table.rows[id])))
  {
    if failure.Some? then ErrorResponse(FAILURE_CODE, INFO_FAILED + failure.value, Null)
    else match table.GetById(id)
      case None => ErrorResponse(MISSING_CODE, NOT_FOUND_DETAIL, Null)
      case Some(s) => SuccessEnvelope(Record(s), "获取公司状态成功")
  }

  /** `GET /user-info/{userId}` as written: a listing that holds a record
      fails to serialise, so only an owner with no records gets a success. */
  function GetUserCompanyStatesAsWritten(table: CompanyTable, userId: int, failure: Option<string>): (body: Value)
    reads table
    requires table.Valid()
    ensures failure.Some? ==> body == ErrorResponse(FAILURE_CODE, USER_INFO_FAILED + failure.value, Null)
    ensures failure.None? && (exists id :: id in table.rows && table.rows[id].userId == userId) ==>
              body == ErrorResponse(FAILURE_CODE, USER_INFO_FAILED + NOT_SERIALIZABLE, Null)
    ensures failure.None? && (forall id :: id in table.rows ==> table.rows[id].userId != userId) ==>
              FromDict(body) == Some(ResponseModel(SUCCESS, "获取用户公司状态成功", Arr([])))
  {
    if failure.Some? then ErrorResponse(FAILURE_CODE, USER_INFO_FAILED + failure.value, Null)
    else
      var states := table.GetByUser(userId);
      assert states != [] ==> states[0] in states;
      SuccessEnvelopeAsWritten(Records(states), "获取用户公司状态成功", USER_INFO_FAILED)
  }

  /** `GET /user-info/{userId}` with the records sent in their JSON form: the
      owner's records, always a success unless the database raises. */
  function GetUserCompanyStates(table: CompanyTable, userId: int, failure: Option<string>): (body: Value)
    reads table
    requires table.Valid()
    ensures failure.Some? ==> body == ErrorResponse(FAILURE_CODE, USER_INFO_FAILED + failure.value, Null)
    ensures failure.None? ==>
              FromDict(body) == Some(ResponseModel(SUCCESS, "获取用户公司状态成功", Encode(Records(table.GetByUser(userId)))))
  {
    if failure.Some? then ErrorResponse(FAILURE_CODE, USER_INFO_FAILED + failure.value, Null)
    else SuccessEnvelope(Records(table.GetByUser(userId)), "获取用户公司状态成功")
  }
}
