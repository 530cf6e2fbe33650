/** The company-state data layer: lookups by id, name and owner, create,
    partial update and delete over the company-state table, kept in
    primary-key order. The database session (commit, refresh) is not
    modelled; every call acts on the table directly. The record class the
    data layer imports is not defined in the users model; it is taken here
    to have the columns of the company-state schema. */
module CompanyCrud {
  import opened Wrappers
  import opened Js

  /** The columns a create request carries and an update may set. */
  datatype CompanyColumn =
    | CompanyCode | CompanyPhone | WarrantyYear | EpsAccount | EpsPassword
    | BankName | BankAccount | FrameworkContractExpire | MaterialInfo

  /** A stored record. A column the record does not hold reads as `null`. */
  datatype CompanyState = CompanyState(id: int, companyName: string, userId: int,
                                       columns: map<CompanyColumn, Value>)

  /** A create request: the name, the owner and the optional columns given. */
  datatype CompanyStateCreate = CompanyStateCreate(companyName: string, userId: int,
                                                   columns: map<CompanyColumn, Value>)

  /** A column of a record. */
  function ColumnValue(s: CompanyState, c: CompanyColumn): Value {
    if c in s.columns then s.columns[c] else Null
  }

  /** The ids in strictly increasing order. */
  predicate Increasing(ids: seq<int>) {
    forall i, j :: 0 <= i < j < |ids| ==> ids[i] < ids[j]
  }

  /** The ids without `x`, in their order. */
  function Without(ids: seq<int>, x: int): (rest: seq<int>)
    ensures forall y :: y in rest <==> y in ids && y != x
    ensures Increasing(ids) ==> Increasing(rest)
  {
    if ids == [] then []
    else if ids[0] == x then Without(ids[1..], x)
    else
      IncreasingTail(ids);
      var tail := Without(ids[1..], x);
      IncreasingCons(ids, tail);
      [ids[0]] + tail
  }

  /** Dropping the head of increasing ids leaves them increasing. */
  lemma IncreasingTail(ids: seq<int>)
    requires ids != []
    ensures Increasing(ids) ==> Increasing(ids[1..])
  {
    if Increasing(ids) {
      forall i, j | 0 <= i < j < |ids[1..]| ensures ids[1..][i] < ids[1..][j] {
        assert ids[1..][i] == ids[i + 1] && ids[1..][j] == ids[j + 1];
      }
    }
  }

  /** The head of increasing ids stays before every later id kept. */
  lemma IncreasingCons(ids: seq<int>, tail: seq<int>)
    requires ids != [] && forall y :: y in tail ==> y in ids[1..]
    requires Increasing(ids) ==> Increasing(tail)
    ensures Increasing(ids) ==> Increasing([ids[0]] + tail)
  {
    if Increasing(ids) {
      var r := [ids[0]] + tail;
      forall i, j | 0 <= i < j < |r| ensures r[i] < r[j] {
        assert r[j] == tail[j - 1] && r[j] in tail;
        var k :| 0 <= k < |ids[1..]| && ids[1..][k] == r[j];
        assert ids[k + 1] == r[j];
        if i > 0 {
          assert r[i] == tail[i - 1];
        }
      }
    }
  }

  /** The table invariant: the ids are increasing, list exactly the stored
      records, match the records' own ids and lie below the next id. */
  predicate TableInvariant(rows: map<int, CompanyState>, order: seq<int>, nextId: int) {
    && Increasing(order)
    && (forall id :: id in rows ==> id in order)
    && (forall k :: 0 <= k < |order| ==> order[k] in rows)
    && (forall id :: id in rows ==> rows[id].id == id && id < nextId)
  }

  /** Removing an id from both the records and the order keeps the invariant. */
  lemma RemovalKeepsInvariant(rows: map<int, CompanyState>, order: seq<int>, nextId: int, id: int)
    requires TableInvariant(rows, order, nextId)
    ensures TableInvariant(rows - {id}, Without(order, id), nextId)
  {
    var rest := Without(order, id);
    forall k | 0 <= k < |rest| ensures rest[k] in rows - {id} {
      assert rest[k] in rest;
    }
  }

  class CompanyTable {
    /** The records by id. */
    var rows: map<int, CompanyState>
    /** The stored ids in primary-key order, the order the queries scan. */
    var order: seq<int>
    /** The id the next insert receives. */
    var nextId: int

    /** The table invariant holds of the fields. */
    predicate Valid()
      reads this
    {
      TableInvariant(rows, order, nextId)
    }

    /** An empty table. */
    constructor ()
      ensures Valid() && rows == map[] && order == [] && nextId == 1
    {
      rows := map[];
      order := [];
      nextId := 1;
    }

    /** `get_company_state_by_id`. */
    function GetById(id: int): (found: Option<CompanyState>)
      reads this
      ensures found.Some? <==> id in rows
      ensures found.Some? ==> found.value == rows[id]
    {
      if id in rows then Some(rows[id]) else None
    }

    /** The position of the first record from position `i` on with that name. */
    function FirstNamedFrom(i: nat, name: string): (k: Option<nat>)
      reads this
      requires Valid() && i <= |order|
      ensures k.Some? ==> i <= k.value < |order| && rows[order[k.value]].companyName == name
      ensures k.Some? ==> forall m :: i <= m < k.value ==> rows[order[m]].companyName != name
      ensures k.None? ==> forall m :: i <= m < |order| ==> rows[order[m]].companyName != name
      decreases |order| - i
    {
      if i == |order| then None
      else if rows[order[i]].companyName == name then Some(i)
      else FirstNamedFrom(i + 1, name)
    }

    /** `get_company_state_by_name`: the first record in id order with that
        name, `None` exactly when no record has it. */
    function GetByName(name: string): (found: Option<CompanyState>)
      reads this
      requires Valid()
      ensures found.None? <==> forall id :: id in rows ==> rows[id].companyName != name
      ensures found.Some? ==> found.value.id in rows && rows[found.value.id] == found.value
      ensures found.Some? ==> found.value.companyName == name
      ensures found.Some? ==> forall id :: id in rows && id < found.value.id ==> rows[id].companyName != name
    {
      match FirstNamedFrom(0, name)
      case None =>
        assert forall id :: id in rows ==> rows[id].companyName != name by {
          forall id | id in rows ensures rows[id].companyName != name {
            var m :| 0 <= m < |order| && order[m] == id;
          }
        }
        None
      case Some(k) =>
        assert forall id :: id in rows && id < order[k] ==> rows[id].companyName != name by {
          forall id | id in rows && id < order[k] ensures rows[id].companyName != name {
            var m :| 0 <= m < |order| && order[m] == id;
            assert m < k;
          }
        }
        Some(rows[order[k]])
    }

    /** The records from position `i` on owned by `userId`, in order. */
    function OwnedFrom(i: nat, userId: int): (states: seq<CompanyState>)
      reads this
      requires Valid() && i <= |order|
      ensures forall s :: s in states <==> exists m :: i <= m < |order| && rows[order[m]] == s && s.userId == userId
      decreases |order| - i
    {
      if i == |order| then []
      else
        var rest := OwnedFrom(i + 1, userId);
        if rows[order[i]].userId == userId then [rows[order[i]]] + rest else rest
    }

    /** `get_company_states_by_user_id`: exactly the records of that owner. */
    function GetByUser(userId: int): (states: seq<CompanyState>)
      reads this
      requires Valid()
      ensures forall s :: s in states ==> s.userId == userId && s.id in rows && rows[s.id] == s
      ensures forall id :: id in rows && rows[id].userId == userId ==> rows[id] in states
    {
      var states := OwnedFrom(0, userId);
      assert forall id :: id in rows && rows[id].userId == userId ==> rows[id] in states by {
        forall id | id in rows && rows[id].userId == userId ensures rows[id] in states {
          var m :| 0 <= m < |order| && order[m] == id;
        }
      }
      states
    }

    /** `create_company_state`: a new record under a fresh id holding the
        request's name, owner and columns. */
    method Create(req: CompanyStateCreate) returns (created: CompanyState)
      requires Valid()
      modifies this
      ensures Valid()
      ensures created == CompanyState(old(nextId), req.companyName, req.userId, req.columns)
      ensures created.id !in old(rows)
      ensures rows == old(rows)[created.id := created]
      ensures order == old(order) + [created.id] && nextId == old(nextId) + 1
    {
      created := CompanyState(nextId, req.companyName, req.userId, req.columns);
      rows := rows[nextId := created];
      order := order + [nextId];
      nextId := nextId + 1;
    }

    /** `update_company_state`: every column the update sets is written to the
        fetched record, one at a time, and the record is stored back once;
        an unknown id changes nothing. */
    method Update(id: int, update: map<CompanyColumn, Value>) returns (updated: Option<CompanyState>)
      requires Valid()
      modifies this`rows
      ensures Valid()
      ensures id !in old(rows) ==> updated.None? && rows == old(rows)
      ensures id in old(rows) ==>
                rows == old(rows)[id := old(rows)[id].(columns := old(rows)[id].columns + update)] &&
                updated == Some(rows[id])
    {
      if id !in rows {
        return None;
      }
      var record := rows[id];
      var columns := record.columns;
      var pending := update.Keys;
      assert (map f | f in update && f !in pending :: update[f]) == map[];
      assert columns + map[] == record.columns;
      while pending != {}
        invariant pending <= update.Keys
        invariant columns == record.columns + map f | f in update && f !in pending :: update[f]
        decreases pending
      {
        var field :| field in pending;
        ghost var before := map f | f in update && f !in pending :: update[f];
        columns := columns[field := update[field]];
        pending := pending - {field};
        assert (map f | f in update && f !in pending :: update[f]) == before[field := update[field]];
      }
      assert (map f | f in update && f !in pending :: update[f]) == update;
      rows := rows[id := record.(columns := columns)];
      updated := Some(rows[id]);
    }

    /** `delete_company_state`: true exactly when the id was stored;
        afterwards it is not. */
    method Delete(id: int) returns (deleted: bool)
      requires Valid()
      modifies this`rows, this`order
      ensures Valid()
      ensures deleted <==> id in old(rows)
      ensures rows == old(rows) - {id} && order == Without(old(order), id)
    {
      deleted := id in rows;
      RemovalKeepsInvariant(rows, order, nextId, id);
      rows := rows - {id};
      order := Without(order, id);
    }
  }

  /** Deleting an id that is not stored leaves the order as it is. */
  lemma {:induction false} WithoutAbsent(ids: seq<int>, x: int)
    requires x !in ids
    ensures Without(ids, x) == ids
  {
    if ids != [] {
      assert ids == [ids[0]] + ids[1..];
      WithoutAbsent(ids[1..], x);
    }
  }

  /** An update never moves a record to another name or owner, and leaves
      every column it does not set as it was. */
  lemma UpdateKeepsIdentity(s: CompanyState, update: map<CompanyColumn, Value>, c: CompanyColumn)
    ensures var t := s.(columns := s.columns + update);
            t.id == s.id && t.companyName == s.companyName && t.userId == s.userId &&
            ColumnValue(t, c) == (if c in update then update[c] else ColumnValue(s, c))
  {
  }
}
