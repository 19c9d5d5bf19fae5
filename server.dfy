/**
 * backend/server.js: the request validators of `POST /api/employees`,
 * `POST /api/state` and `POST /api/state/bulk`, the 404 branches of the
 * lookups by id, request creation, and the handler of
 * `GET /api/requests/suggestions`, whose rule is a second copy of the
 * front end's `calculateSuggestions`.
 */
module Server {
  import opened Wrappers
  import opened Js
  import opened Seqs
  import opened Sorting
  import opened Records
  import opened Dates
  import opened AppState
  import opened AppSuggestions
  import opened Db

  /** The answer of a lookup route. */
  datatype Reply<+T> = Found(body: T) | NotFound

  function StatusCode<T>(r: Reply<T>): int
  {
    if r.Found? then 200 else 404
  }

  /** `GET /api/employees/:id` (72-76). */
  function GetEmployee(db: Database, id: string): (r: Reply<Employee>)
    reads db
    requires db.Valid()
    ensures StatusCode(r) == 404 <==> id !in db.employees
    ensures r.Found? ==> r.body.id == id && r.body == db.employees[id]
  {
    match db.EmployeeById(id)
    case None => NotFound
    case Some(e) => Found(e)
  }

  /** `GET /api/requests/:id` (316-319). */
  function GetRequest(db: Database, id: string): (r: Reply<Request>)
    reads db
    requires db.Valid()
    ensures StatusCode(r) == 404 <==> id !in db.requests
    ensures r.Found? ==> r.body.id == id && r.body == db.requests[id]
  {
    match db.RequestById(id)
    case None => NotFound
    case Some(q) => Found(q)
  }

  /** `body(key).isString().notEmpty()`; None is a missing property. */
  predicate NonEmptyString(v: Option<Json>)
  {
    v.Some? && v.value.JStr? && v.value.s != ""
  }

  /**
   * The body of `POST /api/employees`. The four optional columns are
   * strings, null or absent.
   */
  datatype EmployeeBody = EmployeeBody(
    id: Option<Json>,
    name: Option<Json>,
    company: Field<string>,
    docId: Field<string>,
    jobTitle: Field<string>,
    notes: Field<string>)

  predicate ValidEmployee(body: EmployeeBody)
  {
    NonEmptyString(body.id) && NonEmptyString(body.name)
  }

  /** A bound parameter: `undefined` and `null` both store NULL. */
  function Column(f: Field<string>): Option<string>
  {
    if f.Present? then Some(f.value) else None
  }

  /** The row `upsertEmployee(req.body)` writes. */
  function RowOf(body: EmployeeBody): (e: Employee)
    requires ValidEmployee(body)
    ensures e.id != "" && e.name != ""
  {
    Employee(body.id.value.s, body.name.value.s,
             Column(body.company), Column(body.docId), Column(body.jobTitle), Column(body.notes))
  }

  /** `POST /api/employees` (106-111): 400 and no write unless id and name are non-empty strings. */
  method PostEmployee(db: Database, body: EmployeeBody) returns (code: int)
    requires db.Valid()
    modifies db
    ensures db.Valid()
    ensures code == 400 <==> !ValidEmployee(body)
    ensures code == 400 ==> unchanged(db)
    ensures code != 400 ==> code == 200 && db.employees == old(db.employees)[RowOf(body).id := RowOf(body)]
                            && db.states == old(db.states) && db.requests == old(db.requests)
  {
    if !ValidEmployee(body) {
      return 400;
    }
    db.UpsertEmployee(RowOf(body));
    code := 200;
  }

  /** The body of `POST /api/state`. */
  datatype StateBody = StateBody(id: Option<Json>, state: Option<Json>)

  /** `body('id').isString().notEmpty()` and `body('state').isObject()` (strict: not null, not an array). */
  predicate ValidState(body: StateBody)
  {
    NonEmptyString(body.id) && body.state.Some? && body.state.value.JObj?
  }

  /** `POST /api/state` (188-193). */
  method PostState(db: Database, body: StateBody) returns (code: int)
    requires db.Valid()
    modifies db
    ensures db.Valid()
    ensures code == 400 <==> !ValidState(body)
    ensures code == 400 ==> unchanged(db)
    ensures code != 400 ==> code == 200 && db.states == old(db.states)[body.id.value.s := body.state.value]
                            && db.employees == old(db.employees) && db.requests == old(db.requests)
  {
    if !ValidState(body) {
      return 400;
    }
    db.UpsertState(body.id.value.s, body.state.value);
    code := 200;
  }

  /** `POST /api/state/bulk` (222-224): only a body whose `typeof` is "object" reaches the table. */
  method PostBulk(db: Database, body: Json) returns (code: int)
    requires db.Valid()
    modifies db
    ensures db.Valid()
    ensures code == 400 <==> TypeOf(body) != "object"
    ensures code == 400 ==> unchanged(db)
    ensures code != 400 ==> code == 200 && db.states == old(db.states) + Entries(Some(body))
                            && db.employees == old(db.employees) && db.requests == old(db.requests)
  {
    if TypeOf(body) != "object" {
      return 400;
    }
    db.BulkUpsertStates(Some(body));
    code := 200;
  }

  /** The bodies the bulk route accepts: null, an array or an object. */
  lemma BulkAcceptsExactly(body: Json)
    ensures TypeOf(body) == "object" <==> body.JNull? || body.JArr? || body.JObj?
  {
  }

  /** `POST /api/requests` (356-361): 201 with the new id, 500 when the insert fails. */
  method PostRequest(db: Database, body: RequestBody, now: nat) returns (code: int, id: Option<string>)
    requires db.Valid()
    modifies db
    ensures db.Valid()
    ensures code == 201 || code == 500
    ensures code == 201 <==> NewRow(body, now).Ok? && NewRow(body, now).value.id !in old(db.requests)
    ensures code == 201 ==> id == Some(NewRow(body, now).value.id)
                            && db.requests == old(db.requests)[id.value := NewRow(body, now).value]
    ensures code == 500 ==> id.None? && db.requests == old(db.requests)
    ensures db.employees == old(db.employees) && db.states == old(db.states)
  {
    var result := db.CreateRequest(body, now);
    if result.Ok? {
      code, id := 201, Some(result.value);
    } else {
      code, id := 500, None;
    }
  }

  /**
   * What the front end's save button posts is stored as a PENDING request
   * under a generated id, with its duplicate-free employee list.
   */
  lemma SavedRequestStoredPending(body: RequestBody, now: nat)
    requires body.status == Present("PENDING") && body.passType.Present?
    requires body.employeeIds.Present? && NoDuplicates(body.employeeIds.value)
    requires body.id == Undefined && body.createdBy == Undefined
    ensures NewRow(body, now).Ok?
    ensures var row := NewRow(body, now).value;
      && row.status == "PENDING"
      && row.id == "REQ-" + NatToString(now)
      && row.employeeIds == body.employeeIds.value && NoDuplicates(row.employeeIds)
      && row.createdBy == "system"
  {
  }

  /** `type === 'PC'`; None is a missing query parameter. */
  function QueryPass(queryType: Option<string>): Pass
  {
    if queryType == Some("PC") then PC else CC
  }

  function StatusKey(pass: Pass): string
  {
    if pass == PC then "pc_status" else "cc_status"
  }

  function ExpiresKey(pass: Pass): string
  {
    if pass == PC then "pc_expires" else "cc_expires"
  }

  /** `status === 'NONE' && !state.excluded`, with `status = state[statusKey] || 'NONE'`. */
  predicate ServerLacksPass(state: Json, pass: Pass)
  {
    OrElse(Get(state, StatusKey(pass)), NONE) == NONE && !TruthyRead(Get(state, "excluded"))
  }

  /** The server's renewal test on the raw stored record, with the entry it pushes. */
  function ServerExpiry(emp: Employee, state: Json, pass: Pass, now: int, toTime: DateParser): (r: Option<ExpiringEmployee>)
    ensures r.Some? ==> r.value.employee == emp
  {
    var status := OrElse(Get(state, StatusKey(pass)), NONE);
    var expires := Get(state, ExpiresKey(pass));
    if status == ACTIVE && TruthyRead(expires) then
      match toTime(expires.value)
      case None => None
      case Some(t) =>
        var daysUntil := DaysUntil(t, now);
        if daysUntil <= WarningDays && daysUntil >= 0 then Some(ExpiringEmployee(emp, daysUntil)) else None
    else None
  }

  function ServerNoPassIn(states: map<string, Json>, pass: Pass): Employee -> bool
  {
    (e: Employee) => ServerLacksPass(StoredOrEmpty(states, e.id), pass)
  }

  function ServerExpiringIn(states: map<string, Json>, pass: Pass, now: int, toTime: DateParser): Employee -> Option<ExpiringEmployee>
  {
    (e: Employee) => ServerExpiry(e, StoredOrEmpty(states, e.id), pass, now, toTime)
  }

  function ServerSuggestionsOf(employees: seq<Employee>, states: map<string, Json>, pass: Pass,
                               now: int, toTime: DateParser): Suggestions
  {
    Suggestions(Filter(employees, ServerNoPassIn(states, pass)),
                FilterMap(employees, ServerExpiringIn(states, pass, now, toTime)))
  }

  /** The `employees.forEach` callback of the suggestions handler (455-476). */
  method ServerClassify(emp: Employee, states: map<string, Json>, pass: Pass, now: int, toTime: DateParser,
                        noPasses: seq<Employee>, expiring: seq<ExpiringEmployee>)
    returns (noPasses': seq<Employee>, expiring': seq<ExpiringEmployee>)
    ensures noPasses' == noPasses + (if ServerLacksPass(StoredOrEmpty(states, emp.id), pass) then [emp] else [])
    ensures expiring' == expiring + (match ServerExpiry(emp, StoredOrEmpty(states, emp.id), pass, now, toTime)
                                     case Some(x) => [x] case None => [])
  {
    noPasses', expiring' := noPasses, expiring;
    var state := StoredOrEmpty(states, emp.id);
    var status := OrElse(Get(state, StatusKey(pass)), NONE);
    var expires := Get(state, ExpiresKey(pass));
    if status == NONE && !TruthyRead(Get(state, "excluded")) {
      noPasses' := noPasses' + [emp];
    }
    if status == ACTIVE && TruthyRead(expires) {
      var expDate := toTime(expires.value);
      if expDate.Some? {
        var daysUntil := DaysUntil(expDate.value, now);
        if daysUntil <= WarningDays && daysUntil >= 0 {
          expiring' := expiring' + [ExpiringEmployee(emp, daysUntil)];
        }
      }
    }
  }

  /** The loop of the suggestions handler over the listed employees. */
  method ComputeSuggestions(employees: seq<Employee>, states: map<string, Json>, queryType: Option<string>,
                            now: int, toTime: DateParser) returns (r: Suggestions)
    ensures r == ServerSuggestionsOf(employees, states, QueryPass(queryType), now, toTime)
  {
    var pass := QueryPass(queryType);
    var noPasses: seq<Employee> := [];
    var expiring: seq<ExpiringEmployee> := [];
    for i := 0 to |employees|
      invariant noPasses == Filter(employees[..i], ServerNoPassIn(states, pass))
      invariant expiring == FilterMap(employees[..i], ServerExpiringIn(states, pass, now, toTime))
    {
      var emp := employees[i];
      assert employees[..i + 1] == employees[..i] + [emp];
      FilterSnoc(employees[..i], emp, ServerNoPassIn(states, pass));
      FilterMapSnoc(employees[..i], emp, ServerExpiringIn(states, pass, now, toTime));
      noPasses, expiring := ServerClassify(emp, states, pass, now, toTime, noPasses, expiring);
    }
    assert employees[..|employees|] == employees;
    r := Suggestions(noPasses, expiring);
  }

  /**
   * `GET /api/requests/suggestions?type=...` (441-476): the employees in
   * `getAllEmployees` order and the suggestions computed over them.
   */
  method GetSuggestions(db: Database, queryType: Option<string>, now: int, toTime: DateParser)
    returns (listed: seq<Employee>, r: Suggestions)
    requires db.Valid()
    ensures SortedBy(listed, EmployeeBefore) && NoDuplicates(listed) && |listed| == |db.employees|
    ensures forall id :: id in db.employees ==> db.employees[id] in listed
    ensures forall e :: e in listed ==> e.id in db.employees && db.employees[e.id] == e
    ensures r == ServerSuggestionsOf(listed, db.states, QueryPass(queryType), now, toTime)
  {
    listed := db.GetAllEmployees();
    var states := db.GetAllStates();
    r := ComputeSuggestions(listed, states, queryType, now, toTime);
  }

  /** On one employee the server's tests agree with the front end's on the normalized record. */
  lemma ServerAgreesOnEmployee(e: Employee, states: map<string, Json>, pass: Pass, now: int, toTime: DateParser)
    ensures ServerLacksPass(StoredOrEmpty(states, e.id), pass) == LacksPass(NormalizeFor(states, e.id), pass)
    ensures ServerExpiry(e, StoredOrEmpty(states, e.id), pass, now, toTime)
         == ExpiryEntry(e, NormalizeFor(states, e.id), pass, now, toTime)
  {
  }

  /** On the same employees and states the server and the front end suggest the same lists. */
  lemma ServerMatchesFrontEnd(employees: seq<Employee>, states: map<string, Json>, queryType: Option<string>,
                              now: int, toTime: DateParser)
    ensures ServerSuggestionsOf(employees, states, QueryPass(queryType), now, toTime)
         == SuggestionsOf(employees, states, QueryPass(queryType), now, toTime)
  {
    var pass := QueryPass(queryType);
    forall i | 0 <= i < |employees|
      ensures ServerNoPassIn(states, pass)(employees[i]) == NoPassIn(states, pass)(employees[i])
      ensures ServerExpiringIn(states, pass, now, toTime)(employees[i]) == ExpiringIn(states, pass, now, toTime)(employees[i])
    {
      ServerAgreesOnEmployee(employees[i], states, pass, now, toTime);
    }
    FilterCongruent(employees, ServerNoPassIn(states, pass), NoPassIn(states, pass));
    FilterMapCongruent(employees, ServerExpiringIn(states, pass, now, toTime), ExpiringIn(states, pass, now, toTime));
  }

  /** A query type the front end sends ("PC" or "CC") selects the same pass on both sides. */
  lemma QueryTypeAgrees(passType: string)
    ensures QueryPass(Some(passType)) == SelectPass(passType)
  {
  }
}
