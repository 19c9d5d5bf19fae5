/**
 * frontend/app.js: calculateSuggestions (565-592). For the chosen pass type
 * it lists the employees without that pass (and not excluded) and the
 * employees whose active pass expires within WARNING_DAYS whole days.
 */
module AppSuggestions {
  import opened Wrappers
  import opened Js
  import opened Seqs
  import opened Records
  import opened Dates
  import opened AppState

  datatype Pass = PC | CC

  /** `type === 'PC' ? ... : ...`: every other value selects the CC fields. */
  function SelectPass(passType: string): Pass
  {
    if passType == "PC" then PC else CC
  }

  /** `state[statusKey]` */
  function StatusOf(s: State, pass: Pass): Json
  {
    match pass
    case PC => s.pcStatus
    case CC => s.ccStatus
  }

  /** `state[expiresKey]` */
  function ExpiresOf(s: State, pass: Pass): Json
  {
    match pass
    case PC => s.pcExpires
    case CC => s.ccExpires
  }

  /** `{ ...emp, daysUntilExpire: daysUntil }` */
  datatype ExpiringEmployee = ExpiringEmployee(employee: Employee, daysUntilExpire: int)

  datatype Suggestions = Suggestions(noPasses: seq<Employee>, expiring: seq<ExpiringEmployee>)

  /** The test that pushes into `noPasses`. */
  predicate LacksPass(s: State, pass: Pass)
  {
    StatusOf(s, pass) == NONE && !s.excluded
  }

  /** The test that pushes into `expiring`, with the entry it pushes. */
  function ExpiryEntry(e: Employee, s: State, pass: Pass, now: int, toTime: DateParser): (r: Option<ExpiringEmployee>)
    ensures r.Some? ==> r.value.employee == e
  {
    var expires := ExpiresOf(s, pass);
    if StatusOf(s, pass) == ACTIVE && Truthy(expires) then
      match toTime(expires)
      case None => None
      case Some(t) =>
        var daysUntil := DaysUntil(t, now);
        if daysUntil <= WarningDays && daysUntil >= 0 then Some(ExpiringEmployee(e, daysUntil)) else None
    else None
  }

  function NoPassIn(systemState: map<string, Json>, pass: Pass): Employee -> bool
  {
    (e: Employee) => LacksPass(NormalizeFor(systemState, e.id), pass)
  }

  function ExpiringIn(systemState: map<string, Json>, pass: Pass, now: int, toTime: DateParser): Employee -> Option<ExpiringEmployee>
  {
    (e: Employee) => ExpiryEntry(e, NormalizeFor(systemState, e.id), pass, now, toTime)
  }

  /** The pair of lists `calculateSuggestions` returns. */
  function SuggestionsOf(employees: seq<Employee>, systemState: map<string, Json>, pass: Pass,
                         now: int, toTime: DateParser): Suggestions
  {
    Suggestions(Filter(employees, NoPassIn(systemState, pass)),
                FilterMap(employees, ExpiringIn(systemState, pass, now, toTime)))
  }

  /** The `employees.forEach` callback of `calculateSuggestions`: push `emp` where it belongs. */
  method Classify(emp: Employee, systemState: map<string, Json>, pass: Pass, now: int, toTime: DateParser,
                  noPasses: seq<Employee>, expiring: seq<ExpiringEmployee>)
    returns (noPasses': seq<Employee>, expiring': seq<ExpiringEmployee>)
    ensures noPasses' == noPasses + (if LacksPass(NormalizeFor(systemState, emp.id), pass) then [emp] else [])
    ensures expiring' == expiring + (match ExpiryEntry(emp, NormalizeFor(systemState, emp.id), pass, now, toTime)
                                     case Some(x) => [x] case None => [])
  {
    noPasses', expiring' := noPasses, expiring;
    var state := NormalizeFor(systemState, emp.id);
    var status := StatusOf(state, pass);
    var expires := ExpiresOf(state, pass);
    if status == NONE && !state.excluded {
      noPasses' := noPasses' + [emp];
    }
    if status == ACTIVE && Truthy(expires) {
      var expDate := toTime(expires);
      if expDate.Some? {
        var daysUntil := DaysUntil(expDate.value, now);
        if daysUntil <= WarningDays && daysUntil >= 0 {
          expiring' := expiring' + [ExpiringEmployee(emp, daysUntil)];
        }
      }
    }
  }

  /** `calculateSuggestions(type)`, with `new Date()` as `now`. */
  method CalculateSuggestions(employees: seq<Employee>, systemState: map<string, Json>, passType: string,
                              now: int, toTime: DateParser) returns (r: Suggestions)
    ensures r == SuggestionsOf(employees, systemState, SelectPass(passType), now, toTime)
  {
    var pass := SelectPass(passType);
    var noPasses: seq<Employee> := [];
    var expiring: seq<ExpiringEmployee> := [];
    for i := 0 to |employees|
      invariant noPasses == Filter(employees[..i], NoPassIn(systemState, pass))
      invariant expiring == FilterMap(employees[..i], ExpiringIn(systemState, pass, now, toTime))
    {
      var emp := employees[i];
      assert employees[..i + 1] == employees[..i] + [emp];
      FilterSnoc(employees[..i], emp, NoPassIn(systemState, pass));
      FilterMapSnoc(employees[..i], emp, ExpiringIn(systemState, pass, now, toTime));
      noPasses, expiring := Classify(emp, systemState, pass, now, toTime, noPasses, expiring);
    }
    assert employees[..|employees|] == employees;
    r := Suggestions(noPasses, expiring);
  }

  /** The employees an `expiring` list names, in its order. */
  function EmployeesOf(xs: seq<ExpiringEmployee>): (r: seq<Employee>)
    ensures |r| == |xs| && forall i :: 0 <= i < |xs| ==> r[i] == xs[i].employee
  {
    seq(|xs|, i requires 0 <= i < |xs| => xs[i].employee)
  }

  /** `noPasses` holds exactly the employees whose selected status is NONE and who are not excluded. */
  lemma NoPassesMembers(employees: seq<Employee>, systemState: map<string, Json>, pass: Pass,
                        now: int, toTime: DateParser, e: Employee)
    ensures e in SuggestionsOf(employees, systemState, pass, now, toTime).noPasses <==>
            e in employees && StatusOf(NormalizeFor(systemState, e.id), pass) == NONE
            && !NormalizeFor(systemState, e.id).excluded
  {
    FilterMembers(employees, NoPassIn(systemState, pass), e);
  }

  /** The renewal test on one record, stated on milliseconds. */
  predicate InRenewalWindow(s: State, pass: Pass, now: int, toTime: DateParser, days: int)
  {
    var expires := ExpiresOf(s, pass);
    && StatusOf(s, pass) == ACTIVE
    && Truthy(expires)
    && toTime(expires).Some?
    && days == (toTime(expires).value - now) / DayMs
    && 0 <= toTime(expires).value - now < (WarningDays + 1) * DayMs
  }

  lemma ExpiryEntryWindow(e: Employee, s: State, pass: Pass, now: int, toTime: DateParser, x: ExpiringEmployee)
    ensures ExpiryEntry(e, s, pass, now, toTime) == Some(x) <==>
            x.employee == e && InRenewalWindow(s, pass, now, toTime, x.daysUntilExpire)
  {
    var expires := ExpiresOf(s, pass);
    if toTime(expires).Some? {
      SuggestionWindow(toTime(expires).value, now);
    }
  }

  /** `expiring` holds exactly the ACTIVE employees with a truthy, parseable date within 0..30 whole days, each with that day count. */
  lemma ExpiringMembers(employees: seq<Employee>, systemState: map<string, Json>, pass: Pass,
                        now: int, toTime: DateParser, x: ExpiringEmployee)
    ensures var s := NormalizeFor(systemState, x.employee.id);
            var expires := ExpiresOf(s, pass);
      x in SuggestionsOf(employees, systemState, pass, now, toTime).expiring <==>
      && x.employee in employees
      && StatusOf(s, pass) == ACTIVE
      && Truthy(expires)
      && toTime(expires).Some?
      && x.daysUntilExpire == (toTime(expires).value - now) / DayMs
      && 0 <= toTime(expires).value - now < (WarningDays + 1) * DayMs
  {
    var f := ExpiringIn(systemState, pass, now, toTime);
    FilterMapMembers(employees, f, x);
    var s := NormalizeFor(systemState, x.employee.id);
    ExpiryEntryWindow(x.employee, s, pass, now, toTime, x);
    if x in SuggestionsOf(employees, systemState, pass, now, toTime).expiring {
      var e :| e in employees && f(e) == Some(x);
      assert e == x.employee;
    }
  }

  /** Both lists keep the order of `employees`. */
  lemma SuggestionsInOrder(employees: seq<Employee>, systemState: map<string, Json>, pass: Pass,
                           now: int, toTime: DateParser)
    ensures var r := SuggestionsOf(employees, systemState, pass, now, toTime);
      IsSubsequence(r.noPasses, employees) && IsSubsequence(EmployeesOf(r.expiring), employees)
  {
    FilterInOrder(employees, NoPassIn(systemState, pass));
    var f := ExpiringIn(systemState, pass, now, toTime);
    var idx := FilterMapPositions(employees, f);
    assert Embeds(idx, EmployeesOf(FilterMap(employees, f)), employees);
  }

  /** No employee is suggested both for a new pass and for a renewal. */
  lemma SuggestionsDisjoint(employees: seq<Employee>, systemState: map<string, Json>, pass: Pass,
                            now: int, toTime: DateParser, e: Employee)
    ensures var r := SuggestionsOf(employees, systemState, pass, now, toTime);
      !(e in r.noPasses && e in EmployeesOf(r.expiring))
  {
    var r := SuggestionsOf(employees, systemState, pass, now, toTime);
    NoPassesMembers(employees, systemState, pass, now, toTime, e);
    if e in EmployeesOf(r.expiring) {
      var i :| 0 <= i < |r.expiring| && EmployeesOf(r.expiring)[i] == e;
      ExpiringMembers(employees, systemState, pass, now, toTime, r.expiring[i]);
    }
  }

  /** An ACTIVE pass whose date is already past puts the employee in neither list. */
  lemma ExpiredInNeither(employees: seq<Employee>, systemState: map<string, Json>, pass: Pass,
                         now: int, toTime: DateParser, e: Employee)
    requires var s := NormalizeFor(systemState, e.id);
      StatusOf(s, pass) == ACTIVE && toTime(ExpiresOf(s, pass)).Some? && toTime(ExpiresOf(s, pass)).value < now
    ensures var r := SuggestionsOf(employees, systemState, pass, now, toTime);
      e !in r.noPasses && e !in EmployeesOf(r.expiring)
  {
    var r := SuggestionsOf(employees, systemState, pass, now, toTime);
    NoPassesMembers(employees, systemState, pass, now, toTime, e);
    if e in EmployeesOf(r.expiring) {
      var i :| 0 <= i < |r.expiring| && EmployeesOf(r.expiring)[i] == e;
      ExpiringMembers(employees, systemState, pass, now, toTime, r.expiring[i]);
    }
  }

  /** The `excluded` flag plays no part in the renewal test. */
  lemma ExpiryIgnoresExclusion(e: Employee, s: State, pass: Pass, now: int, toTime: DateParser)
    ensures ExpiryEntry(e, s, pass, now, toTime) == ExpiryEntry(e, s.(excluded := !s.excluded), pass, now, toTime)
  {
  }

  /** An unparseable date (NaN) never yields a renewal suggestion. */
  lemma InvalidDateNotExpiring(employees: seq<Employee>, systemState: map<string, Json>, pass: Pass,
                               now: int, toTime: DateParser, x: ExpiringEmployee)
    requires toTime(ExpiresOf(NormalizeFor(systemState, x.employee.id), pass)).None?
    ensures x !in SuggestionsOf(employees, systemState, pass, now, toTime).expiring
  {
    ExpiringMembers(employees, systemState, pass, now, toTime, x);
  }
}
