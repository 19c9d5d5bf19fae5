/**
 * frontend/app.js: updateCounters (295-312) with isExpiring (314-318).
 * Excluded employees are skipped; the other four tallies are counted per
 * employee, with `isExpiring`'s unfloored 30-day window for renewals.
 */
module AppCounters {
  import opened Wrappers
  import opened Js
  import opened Seqs
  import opened Records
  import opened Dates
  import opened AppState

  /** The four numbers written into the dashboard cards. */
  datatype Counts = Counts(pc: nat, cc: nat, pay: nat, exp: nat)

  predicate CountsPc(s: State)
  {
    !s.excluded && s.pcStatus == ACTIVE
  }

  predicate CountsCc(s: State)
  {
    !s.excluded && s.ccStatus == ACTIVE
  }

  predicate CountsPay(s: State)
  {
    !s.excluded && (s.pcStatus == PAYMENT_PENDING || s.ccStatus == PAYMENT_PENDING)
  }

  predicate CountsExp(s: State, now: int, toTime: DateParser)
  {
    && !s.excluded
    && ((s.pcStatus == ACTIVE && IsExpiring(s.pcExpires, now, toTime))
        || (s.ccStatus == ACTIVE && IsExpiring(s.ccExpires, now, toTime)))
  }

  function PcIn(systemState: map<string, Json>): Employee -> bool
  {
    (e: Employee) => CountsPc(NormalizeFor(systemState, e.id))
  }

  function CcIn(systemState: map<string, Json>): Employee -> bool
  {
    (e: Employee) => CountsCc(NormalizeFor(systemState, e.id))
  }

  function PayIn(systemState: map<string, Json>): Employee -> bool
  {
    (e: Employee) => CountsPay(NormalizeFor(systemState, e.id))
  }

  function ExpIn(systemState: map<string, Json>, now: int, toTime: DateParser): Employee -> bool
  {
    (e: Employee) => CountsExp(NormalizeFor(systemState, e.id), now, toTime)
  }

  /** Each tally is the number of employees its test accepts. */
  function Tally(employees: seq<Employee>, systemState: map<string, Json>, now: int, toTime: DateParser): Counts
  {
    Counts(|Filter(employees, PcIn(systemState))|,
           |Filter(employees, CcIn(systemState))|,
           |Filter(employees, PayIn(systemState))|,
           |Filter(employees, ExpIn(systemState, now, toTime))|)
  }

  /** `updateCounters()`, returning what it writes into the four cards. */
  method UpdateCounters(employees: seq<Employee>, systemState: map<string, Json>, now: int, toTime: DateParser)
    returns (c: Counts)
    ensures c == Tally(employees, systemState, now, toTime)
  {
    var pc, cc, pay, exp := 0, 0, 0, 0;
    for i := 0 to |employees|
      invariant Counts(pc, cc, pay, exp) == Tally(employees[..i], systemState, now, toTime)
    {
      var e := employees[i];
      assert employees[..i + 1] == employees[..i] + [e];
      TallySnoc(employees[..i], systemState, now, toTime, e);
      var s := NormalizeFor(systemState, e.id);
      if s.excluded {
        continue;
      }
      if s.pcStatus == ACTIVE { pc := pc + 1; }
      if s.ccStatus == ACTIVE { cc := cc + 1; }
      if s.pcStatus == PAYMENT_PENDING || s.ccStatus == PAYMENT_PENDING { pay := pay + 1; }
      if (s.pcStatus == ACTIVE && IsExpiring(s.pcExpires, now, toTime))
         || (s.ccStatus == ACTIVE && IsExpiring(s.ccExpires, now, toTime)) {
        exp := exp + 1;
      }
    }
    assert employees[..|employees|] == employees;
    c := Counts(pc, cc, pay, exp);
  }

  /** What one more employee adds to each tally. */
  lemma TallySnoc(employees: seq<Employee>, systemState: map<string, Json>, now: int,
                  toTime: DateParser, e: Employee)
    ensures var c := Tally(employees, systemState, now, toTime);
            var s := NormalizeFor(systemState, e.id);
      Tally(employees + [e], systemState, now, toTime)
        == Counts(c.pc + (if CountsPc(s) then 1 else 0),
                  c.cc + (if CountsCc(s) then 1 else 0),
                  c.pay + (if CountsPay(s) then 1 else 0),
                  c.exp + (if CountsExp(s, now, toTime) then 1 else 0))
  {
    FilterSnoc(employees, e, PcIn(systemState));
    FilterSnoc(employees, e, CcIn(systemState));
    FilterSnoc(employees, e, PayIn(systemState));
    FilterSnoc(employees, e, ExpIn(systemState, now, toTime));
  }

  /** An excluded employee changes none of the four tallies. */
  lemma ExcludedNotCounted(employees: seq<Employee>, systemState: map<string, Json>, now: int,
                           toTime: DateParser, e: Employee)
    requires NormalizeFor(systemState, e.id).excluded
    ensures Tally(employees + [e], systemState, now, toTime) == Tally(employees, systemState, now, toTime)
  {
    TallySnoc(employees, systemState, now, toTime, e);
  }

  /** An employee with both passes awaiting payment adds one, not two, to `pay`. */
  lemma PayCountedOnce(employees: seq<Employee>, systemState: map<string, Json>, now: int,
                       toTime: DateParser, e: Employee)
    requires var s := NormalizeFor(systemState, e.id);
      !s.excluded && s.pcStatus == PAYMENT_PENDING && s.ccStatus == PAYMENT_PENDING
    ensures Tally(employees + [e], systemState, now, toTime).pay == Tally(employees, systemState, now, toTime).pay + 1
  {
    FilterSnoc(employees, e, PayIn(systemState));
  }

  /** Only a counted active pass can be counted as expiring. */
  lemma ExpiringWithinActive(employees: seq<Employee>, systemState: map<string, Json>, now: int, toTime: DateParser)
    ensures var c := Tally(employees, systemState, now, toTime);
      c.exp <= c.pc + c.cc
  {
    FilterCountCovered(employees, ExpIn(systemState, now, toTime), PcIn(systemState), CcIn(systemState));
  }

  /** isExpiring accepts only dates the suggestion rule also accepts. */
  lemma CountedExpiryIsSuggested(dateStr: Json, now: int, toTime: DateParser)
    requires IsExpiring(dateStr, now, toTime)
    ensures 0 <= DaysUntil(toTime(dateStr).value, now) <= WarningDays
  {
    SuggestionWindow(toTime(dateStr).value, now);
  }

  /**
   * The boundaries differ: a pass expiring exactly 30 days from now is
   * suggested for renewal (30 whole days) but not counted as expiring.
   */
  lemma BoundaryDiffers(dateStr: Json, now: int, toTime: DateParser)
    requires Truthy(dateStr) && toTime(dateStr) == Some(now + WarningDays * DayMs)
    ensures !IsExpiring(dateStr, now, toTime)
    ensures DaysUntil(toTime(dateStr).value, now) == WarningDays
  {
  }
}
