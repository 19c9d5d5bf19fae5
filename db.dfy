/**
 * backend/db.js: the `employees`, `states` and `requests` tables as maps
 * from primary key to row, and the functions that read and change them.
 * Each call is atomic; stored JSON (states, `employeeIds`) is kept as the
 * value it encodes.
 */
module Db {
  import opened Wrappers
  import opened Js
  import opened Seqs
  import opened Sorting
  import opened Collation
  import opened Records

  /** `ORDER BY company, name` */
  predicate EmployeeBefore(a: Employee, b: Employee)
  {
    if a.company == b.company then TextLe(a.name, b.name) else ColumnLe(a.company, b.company)
  }

  /** `ORDER BY createdAt DESC` */
  predicate RequestBefore(a: Request, b: Request)
  {
    a.createdAt >= b.createdAt
  }

  lemma EmployeeOrder()
    ensures IsTotalPreorder(EmployeeBefore)
  {
    forall a: Employee, b: Employee
      ensures EmployeeBefore(a, b) || EmployeeBefore(b, a)
    {
      TextLeTotal(a.name, b.name);
      ColumnLeTotal(a.company, b.company);
    }
    forall a: Employee, b: Employee, c: Employee | EmployeeBefore(a, b) && EmployeeBefore(b, c)
      ensures EmployeeBefore(a, c)
    {
      ColumnLeReflexive(a.company);
      ColumnLeReflexive(b.company);
      ColumnLeTransitive(a.company, b.company, c.company);
      ColumnLeAntisymmetric(a.company, b.company);
      if a.company == b.company && b.company == c.company {
        TextLeTransitive(a.name, b.name, c.name);
      }
    }
  }

  lemma RequestOrder()
    ensures IsTotalPreorder(RequestBefore)
  {
  }

  function EmployeeKey(e: Employee): string { e.id }

  function RequestKey(r: Request): string { r.id }

  /** `{ 0: items[0], 1: items[1], ... }`, the entries `Object.entries` sees in an array. */
  function IndexEntries(items: seq<Json>): map<string, Json>
  {
    if |items| == 0 then map[]
    else IndexEntries(items[..|items| - 1])[NatToString(|items| - 1) := items[|items| - 1]]
  }

  /** Every position of the array is an entry under its decimal index. */
  lemma {:induction false} IndexEntriesAt(items: seq<Json>, i: nat)
    requires i < |items|
    ensures NatToString(i) in IndexEntries(items)
    ensures IndexEntries(items)[NatToString(i)] == items[i]
    decreases |items|
  {
    var n := |items| - 1;
    if i < n {
      IndexEntriesAt(items[..n], i);
      NatToStringInjective(i, n);
    }
  }

  /** `Object.entries(statesObj || {})`, as a map from key to value. */
  function Entries(statesObj: Option<Json>): map<string, Json>
  {
    match statesObj
    case None => map[]
    case Some(v) =>
      if !Truthy(v) then map[]
      else match v
        case JObj(members) => members
        case JArr(items) => IndexEntries(items)
        case JStr(s) => IndexEntries(seq(|s|, i requires 0 <= i < |s| => JStr([s[i]])))
        case _ => map[]
  }

  /** `m` cut down to the keys in `keys`. */
  function Restrict(m: map<string, Json>, keys: set<string>): (r: map<string, Json>)
    ensures forall k :: k in r <==> k in m && k in keys
    ensures forall k :: k in r ==> r[k] == m[k]
  {
    map k | k in m && k in keys :: m[k]
  }

  /** The effect of calling `upsertState(id, entries[id])` for each `id` of `ids` in turn. */
  function UpsertEach(states: map<string, Json>, ids: seq<string>, entries: map<string, Json>): map<string, Json>
    requires forall i :: 0 <= i < |ids| ==> ids[i] in entries
  {
    if |ids| == 0 then states
    else UpsertEach(states, ids[..|ids| - 1], entries)[ids[|ids| - 1] := entries[ids[|ids| - 1]]]
  }

  lemma {:induction false} UpsertEachMerges(states: map<string, Json>, ids: seq<string>, entries: map<string, Json>)
    requires forall i :: 0 <= i < |ids| ==> ids[i] in entries
    ensures UpsertEach(states, ids, entries) == states + Restrict(entries, set k | k in ids)
    decreases |ids|
  {
    if |ids| > 0 {
      var init, last := ids[..|ids| - 1], ids[|ids| - 1];
      UpsertEachMerges(states, init, entries);
      assert ids == init + [last];
      assert (set k | k in ids) == (set k | k in init) + {last};
      RestrictAdd(entries, (set k | k in init), last);
    }
  }

  /** Widening the keys by one adds that one entry, on top of any base map. */
  lemma RestrictAdd(m: map<string, Json>, keys: set<string>, k: string)
    requires k in m
    ensures forall base: map<string, Json> ::
      base + Restrict(m, keys + {k}) == (base + Restrict(m, keys))[k := m[k]]
  {
    assert Restrict(m, keys + {k}) == Restrict(m, keys)[k := m[k]];
  }

  /** A bulk upsert is one `upsertState` per entry, in any order of the entries. */
  lemma BulkIsUpsertPerEntry(states: map<string, Json>, ids: seq<string>, statesObj: Option<Json>)
    requires forall k :: k in ids <==> k in Entries(statesObj)
    ensures UpsertEach(states, ids, Entries(statesObj)) == states + Entries(statesObj)
  {
    var entries := Entries(statesObj);
    UpsertEachMerges(states, ids, entries);
    assert Restrict(entries, set k | k in ids) == entries;
  }

  datatype DbError =
    | DuplicateKey     // PRIMARY KEY already taken
    | NotNull(column: string)  // a NOT NULL column left without a value

  /** `req.id || \`REQ-${Date.now()}\`` */
  function NewRequestId(body: RequestBody, now: nat): string
  {
    if TruthyText(body.id) then body.id.value else "REQ-" + NatToString(now)
  }

  /** The row `createRequest(req)` inserts, or the constraint the insert violates. */
  function NewRow(body: RequestBody, now: nat): Result<Request, DbError>
  {
    if !body.passType.Present? then Err(NotNull("type"))
    else if !body.status.Present? then Err(NotNull("status"))
    else Ok(Request(
      id := NewRequestId(body, now),
      passType := body.passType.value,
      status := body.status.value,
      employeeIds := if body.employeeIds.Present? then body.employeeIds.value else [],
      createdAt := now,
      updatedAt := now,
      notes := Some(TextOr(body.notes, "")),
      createdBy := TextOr(body.createdBy, "system")))
  }

  /** The defaults of a created request. */
  lemma NewRowDefaults(body: RequestBody, now: nat)
    requires body.passType.Present? && body.status.Present?
    ensures NewRow(body, now).Ok?
    ensures var row := NewRow(body, now).value;
      && (body.employeeIds.Undefined? || body.employeeIds.Null? ==> row.employeeIds == [])
      && (!TruthyText(body.notes) ==> row.notes == Some(""))
      && (!TruthyText(body.createdBy) ==> row.createdBy == "system")
      && row.createdAt == row.updatedAt == now
      && row.status == body.status.value
  {
  }

  /** A generated id `REQ-<digits>` spells the creation time. */
  lemma GeneratedIdEncodesTime(body: RequestBody, now: nat)
    requires !TruthyText(body.id)
    ensures var id := NewRequestId(body, now);
      |id| > 4 && id[..4] == "REQ-" && DecimalValue(id[4..]) == now
  {
    var id := NewRequestId(body, now);
    assert id[4..] == NatToString(now);
    DecimalRoundTrip(now);
  }

  /** One `SET column = ?` of the UPDATE statement `updateRequest` builds. */
  datatype Assignment =
    | SetType(passType: string)
    | SetStatus(status: string)
    | SetEmployeeIds(ids: seq<string>)
    | SetNotes(notes: Option<string>)
    | SetUpdatedAt(at: int)

  function Apply(r: Request, a: Assignment): Request
  {
    match a
    case SetType(t) => r.(passType := t)
    case SetStatus(s) => r.(status := s)
    case SetEmployeeIds(ids) => r.(employeeIds := ids)
    case SetNotes(n) => r.(notes := n)
    case SetUpdatedAt(at) => r.(updatedAt := at)
  }

  /** The row after `UPDATE requests SET <fields> WHERE id = ?`, left to right. */
  function ApplyAll(r: Request, fields: seq<Assignment>): Request
  {
    if |fields| == 0 then r else Apply(ApplyAll(r, fields[..|fields| - 1]), fields[|fields| - 1])
  }

  lemma ApplyAllSnoc(r: Request, fields: seq<Assignment>, a: Assignment)
    ensures ApplyAll(r, fields + [a]) == Apply(ApplyAll(r, fields), a)
  {
    assert (fields + [a])[..|fields|] == fields;
  }

  /**
   * What `updateRequest(id, updates)` means for a row: type and status only
   * when supplied and truthy, `employeeIds` when supplied (an array is
   * always truthy), notes whenever not undefined (null clears the column),
   * and `updatedAt` always.
   */
  function Updated(r: Request, u: RequestBody, now: int): Request
  {
    r.(passType := if TruthyText(u.passType) then u.passType.value else r.passType,
       status := if TruthyText(u.status) then u.status.value else r.status,
       employeeIds := if u.employeeIds.Present? then u.employeeIds.value else r.employeeIds,
       notes := match u.notes
                case Undefined => r.notes
                case Null => None
                case Present(n) => Some(n),
       updatedAt := now)
  }

  /**
   * The `fields` list of `updateRequest`, pushed one test at a time.
   * `row` names the row the statement will hit; the list does not depend on it.
   */
  method BuildAssignments(ghost row: Request, u: RequestBody, now: int) returns (fields: seq<Assignment>)
    ensures ApplyAll(row, fields) == Updated(row, u, now)
    ensures |fields| >= 1 && fields[|fields| - 1] == SetUpdatedAt(now)
  {
    fields := [];
    if TruthyText(u.passType) {
      ApplyAllSnoc(row, fields, SetType(u.passType.value));
      fields := fields + [SetType(u.passType.value)];
    }
    if TruthyText(u.status) {
      ApplyAllSnoc(row, fields, SetStatus(u.status.value));
      fields := fields + [SetStatus(u.status.value)];
    }
    if u.employeeIds.Present? {
      ApplyAllSnoc(row, fields, SetEmployeeIds(u.employeeIds.value));
      fields := fields + [SetEmployeeIds(u.employeeIds.value)];
    }
    if !u.notes.Undefined? {
      var notes := if u.notes.Present? then Some(u.notes.value) else None;
      ApplyAllSnoc(row, fields, SetNotes(notes));
      fields := fields + [SetNotes(notes)];
    }
    ApplyAllSnoc(row, fields, SetUpdatedAt(now));
    fields := fields + [SetUpdatedAt(now)];
  }

  /** An update never touches the key, the creation time or the author, and always the update time. */
  lemma UpdateKeepsIdentity(r: Request, u: RequestBody, now: int)
    ensures var r' := Updated(r, u, now);
      r'.id == r.id && r'.createdAt == r.createdAt && r'.createdBy == r.createdBy && r'.updatedAt == now
  {
  }

  /** Applying the same update twice is the same as applying it once. */
  lemma UpdateIdempotent(r: Request, u: RequestBody, now: int)
    ensures Updated(Updated(r, u, now), u, now) == Updated(r, u, now)
  {
  }

  /** Falsy type or status leave those columns alone; an empty notes string is still written. */
  lemma UpdateFalsyFields(r: Request, u: RequestBody, now: int)
    requires !TruthyText(u.passType) && !TruthyText(u.status) && u.notes == Present("")
    ensures var r' := Updated(r, u, now);
      r'.passType == r.passType && r'.status == r.status && r'.notes == Some("")
  {
  }

  class Database {
    var employees: map<string, Employee>
    var states: map<string, Json>
    var requests: map<string, Request>

    /** Every row sits under its own primary key. */
    predicate Valid()
      reads this
    {
      && (forall id :: id in employees ==> employees[id].id == id)
      && (forall id :: id in requests ==> requests[id].id == id)
    }

    constructor ()
      ensures Valid()
      ensures employees == map[] && states == map[] && requests == map[]
    {
      employees := map[];
      states := map[];
      requests := map[];
    }

    /** `getAllStates()`: the object built row by row from the states table. */
    method GetAllStates() returns (obj: map<string, Json>)
      ensures obj == states
    {
      obj := map[];
      var rows := states.Keys;
      while rows != {}
        invariant rows <= states.Keys
        invariant obj.Keys == states.Keys - rows
        invariant forall id :: id in obj ==> obj[id] == states[id]
        decreases rows
      {
        var id :| id in rows;
        obj := obj[id := states[id]];
        rows := rows - {id};
      }
    }

    /** `upsertState(id, state)`: the whole stored value for `id` is replaced. */
    method UpsertState(id: string, state: Json)
      requires Valid()
      modifies this
      ensures Valid()
      ensures states == old(states)[id := state]
      ensures employees == old(employees) && requests == old(requests)
    {
      states := states[id := state];
    }

    /** `bulkUpsertStates(statesObj)`; None stands for `undefined`. */
    method BulkUpsertStates(statesObj: Option<Json>)
      requires Valid()
      modifies this
      ensures Valid()
      ensures states == old(states) + Entries(statesObj)
      ensures employees == old(employees) && requests == old(requests)
    {
      var entries := Entries(statesObj);
      var pending := entries.Keys;
      while pending != {}
        invariant pending <= entries.Keys
        invariant states == old(states) + Restrict(entries, entries.Keys - pending)
        invariant employees == old(employees) && requests == old(requests)
        decreases pending
      {
        var id :| id in pending;
        assert entries.Keys - (pending - {id}) == (entries.Keys - pending) + {id};
        RestrictAdd(entries, entries.Keys - pending, id);
        states := states[id := entries[id]];
        pending := pending - {id};
      }
      assert Restrict(entries, entries.Keys) == entries;
    }

    /** `resetStates()` */
    method ResetStates()
      requires Valid()
      modifies this
      ensures Valid()
      ensures states == map[]
      ensures employees == old(employees) && requests == old(requests)
    {
      states := map[];
    }

    /** `getAllEmployees()`: every row once, ordered by company (NULL first), then name. */
    method GetAllEmployees() returns (list: seq<Employee>)
      requires Valid()
      ensures SortedBy(list, EmployeeBefore)
      ensures NoDuplicates(list) && |list| == |employees|
      ensures forall id :: id in employees ==> employees[id] in list
      ensures forall e :: e in list ==> e.id in employees && employees[e.id] == e
    {
      EmployeeOrder();
      list := ListRows(employees, EmployeeKey, EmployeeBefore);
    }

    /** `getEmployeeById(id)`; None is the `undefined` row. */
    function EmployeeById(id: string): Option<Employee>
      reads this
    {
      if id in employees then Some(employees[id]) else None
    }

    /** `upsertEmployee(emp)`: insert, or overwrite the five non-key columns. */
    method UpsertEmployee(e: Employee)
      requires Valid()
      modifies this
      ensures Valid()
      ensures employees == old(employees)[e.id := e]
      ensures states == old(states) && requests == old(requests)
    {
      employees := employees[e.id := e];
    }

    /** `deleteEmployee(id)`: its state row and the requests naming it stay. */
    method DeleteEmployee(id: string)
      requires Valid()
      modifies this
      ensures Valid()
      ensures employees == old(employees) - {id}
      ensures states == old(states) && requests == old(requests)
    {
      employees := employees - {id};
    }

    /** `getAllRequests()`: every row once, newest first. */
    method GetAllRequests() returns (list: seq<Request>)
      requires Valid()
      ensures SortedBy(list, RequestBefore)
      ensures NoDuplicates(list) && |list| == |requests|
      ensures forall id :: id in requests ==> requests[id] in list
      ensures forall r :: r in list ==> r.id in requests && requests[r.id] == r
    {
      RequestOrder();
      list := ListRows(requests, RequestKey, RequestBefore);
    }

    /** `getRequestById(id)`; None is the `undefined` row. */
    function RequestById(id: string): Option<Request>
      reads this
    {
      if id in requests then Some(requests[id]) else None
    }

    /** `createRequest(req)` at time `now`: the new id, or the error the INSERT fails with. */
    method CreateRequest(body: RequestBody, now: nat) returns (r: Result<string, DbError>)
      requires Valid()
      modifies this
      ensures Valid()
      ensures r.Err? <==> NewRow(body, now).Err? || NewRow(body, now).value.id in old(requests)
      ensures r.Ok? ==>
        r.value == NewRow(body, now).value.id && requests == old(requests)[r.value := NewRow(body, now).value]
      ensures r.Err? ==> requests == old(requests)
      ensures employees == old(employees) && states == old(states)
    {
      var row := NewRow(body, now);
      if row.Err? {
        return Err(row.error);
      }
      if row.value.id in requests {
        return Err(DuplicateKey);
      }
      requests := requests[row.value.id := row.value];
      r := Ok(row.value.id);
    }

    /** `updateRequest(id, updates)` at time `now`; an unknown id matches no row. */
    method UpdateRequest(id: string, u: RequestBody, now: int)
      requires Valid()
      modifies this
      ensures Valid()
      ensures requests == if id in old(requests) then old(requests)[id := Updated(old(requests)[id], u, now)]
                          else old(requests)
      ensures employees == old(employees) && states == old(states)
    {
      if id in requests {
        var row := requests[id];
        var fields := BuildAssignments(row, u, now);
        requests := requests[id := ApplyAll(row, fields)];
      }
    }

    /** `deleteRequest(id)`; deleting an absent id changes nothing. */
    method DeleteRequest(id: string)
      requires Valid()
      modifies this
      ensures Valid()
      ensures requests == old(requests) - {id}
      ensures id !in old(requests) ==> requests == old(requests)
      ensures employees == old(employees) && states == old(states)
    {
      requests := requests - {id};
    }
  }
}
