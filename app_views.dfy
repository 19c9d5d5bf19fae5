/**
 * frontend/app.js: getFilteredList (108-148) and the second filters that
 * renderPCTable, renderCCTable and renderExcluded apply to its result
 * (205-208, 230-233, 255-258). Lower-casing is the per-character map `lower`.
 */
module AppViews {
  import opened Wrappers
  import opened Js
  import opened Seqs
  import opened Records
  import opened AppState

  /** `s.toLowerCase()` */
  function LowerCase(s: string, lower: char -> char): (r: string)
    ensures |r| == |s|
  {
    seq(|s|, i requires 0 <= i < |s| => lower(s[i]))
  }

  /** String concatenation of a nullable column: `null` renders as "null". */
  function NullableText(c: Option<string>): string
  {
    if c.Some? then c.value else "null"
  }

  /** `c || ''` for a nullable column. */
  function TextOrEmpty(c: Option<string>): string
  {
    if c.Some? then c.value else ""
  }

  /** `emp.name + emp.id + emp.company + (emp.jobTitle || '') + (emp.notes || '')` */
  function SearchText(e: Employee): string
  {
    e.name + e.id + NullableText(e.company) + TextOrEmpty(e.jobTitle) + TextOrEmpty(e.notes)
  }

  predicate MatchesSearch(e: Employee, search: string, lower: char -> char)
  {
    Contains(LowerCase(SearchText(e), lower), LowerCase(search, lower))
  }

  /** The dashboard's status and company filters, as the chain of early returns (132-144). */
  predicate PassesDashboardFilters(e: Employee, s: State, statusMode: string, companyMode: string)
  {
    if statusMode == "pc_active" && s.pcStatus != ACTIVE then false
    else if statusMode == "cc_active" && s.ccStatus != ACTIVE then false
    else if statusMode == "both" && (s.pcStatus != ACTIVE || s.ccStatus != ACTIVE) then false
    else if statusMode == "none" && (s.pcStatus != NONE || s.ccStatus != NONE) then false
    else if statusMode == "pending" && (s.pcStatus != PAYMENT_PENDING && s.ccStatus != PAYMENT_PENDING) then false
    else if companyMode != "all" && e.company != Some(companyMode) then false
    else true
  }

  /** The callback given to `employees.filter` in `getFilteredList(viewContext)`. */
  predicate Keep(e: Employee, s: State, search: string, viewContext: string,
                 statusMode: string, companyMode: string, lower: char -> char)
  {
    if !MatchesSearch(e, search, lower) then false
    else if viewContext == "pc_view" && s.pcStatus == NONE then false
    else if viewContext == "cc_view" && s.ccStatus == NONE then false
    else if viewContext == "excluded_view" && !s.excluded then false
    else if viewContext == "dashboard" && !PassesDashboardFilters(e, s, statusMode, companyMode) then false
    else true
  }

  function KeepIn(systemState: map<string, Json>, search: string, viewContext: string,
                  statusMode: string, companyMode: string, lower: char -> char): Employee -> bool
  {
    (e: Employee) => Keep(e, NormalizeFor(systemState, e.id), search, viewContext, statusMode, companyMode, lower)
  }

  /**
   * `getFilteredList(viewContext)` with the search box holding `search`
   * and the dashboard selects holding `statusMode` and `companyMode`.
   */
  function FilteredList(employees: seq<Employee>, systemState: map<string, Json>, search: string,
                        viewContext: string, statusMode: string, companyMode: string,
                        lower: char -> char): seq<Employee>
  {
    Filter(employees, KeepIn(systemState, search, viewContext, statusMode, companyMode, lower))
  }

  /** What each status mode requires, one mode at a time. */
  predicate StatusFacet(statusMode: string, s: State)
  {
    match statusMode
    case "pc_active" => s.pcStatus == ACTIVE
    case "cc_active" => s.ccStatus == ACTIVE
    case "both" => s.pcStatus == ACTIVE && s.ccStatus == ACTIVE
    case "none" => s.pcStatus == NONE && s.ccStatus == NONE
    case "pending" => s.pcStatus == PAYMENT_PENDING || s.ccStatus == PAYMENT_PENDING
    case _ => true
  }

  /** What the company select requires. */
  predicate CompanyFacet(companyMode: string, e: Employee)
  {
    companyMode == "all" || e.company == Some(companyMode)
  }

  /** The early-return chain keeps exactly the employees that meet every rule of their context. */
  lemma KeepExactly(e: Employee, s: State, search: string, viewContext: string,
                    statusMode: string, companyMode: string, lower: char -> char)
    ensures Keep(e, s, search, viewContext, statusMode, companyMode, lower) <==>
      && MatchesSearch(e, search, lower)
      && (viewContext == "pc_view" ==> s.pcStatus != NONE)
      && (viewContext == "cc_view" ==> s.ccStatus != NONE)
      && (viewContext == "excluded_view" ==> s.excluded)
      && (viewContext == "dashboard" ==> StatusFacet(statusMode, s) && CompanyFacet(companyMode, e))
  {
  }

  /** The result lists employees of the input, in input order. */
  lemma FilteredInOrder(employees: seq<Employee>, systemState: map<string, Json>, search: string,
                        viewContext: string, statusMode: string, companyMode: string, lower: char -> char)
    ensures IsSubsequence(FilteredList(employees, systemState, search, viewContext, statusMode, companyMode, lower), employees)
  {
    FilterInOrder(employees, KeepIn(systemState, search, viewContext, statusMode, companyMode, lower));
  }

  /** Membership in the result, by the rules of each context. */
  lemma FilteredMembers(employees: seq<Employee>, systemState: map<string, Json>, search: string,
                        viewContext: string, statusMode: string, companyMode: string,
                        lower: char -> char, e: Employee)
    ensures var s := NormalizeFor(systemState, e.id);
      e in FilteredList(employees, systemState, search, viewContext, statusMode, companyMode, lower) <==>
      && e in employees
      && MatchesSearch(e, search, lower)
      && (viewContext == "pc_view" ==> s.pcStatus != NONE)
      && (viewContext == "cc_view" ==> s.ccStatus != NONE)
      && (viewContext == "excluded_view" ==> s.excluded)
      && (viewContext == "dashboard" ==> StatusFacet(statusMode, s) && CompanyFacet(companyMode, e))
  {
    FilterMembers(employees, KeepIn(systemState, search, viewContext, statusMode, companyMode, lower), e);
    KeepExactly(e, NormalizeFor(systemState, e.id), search, viewContext, statusMode, companyMode, lower);
  }

  /** With nothing typed and both dashboard selects at "any", the dashboard shows everyone. */
  lemma DashboardUnfiltered(employees: seq<Employee>, systemState: map<string, Json>,
                            statusMode: string, lower: char -> char)
    requires statusMode !in {"pc_active", "cc_active", "both", "none", "pending"}
    ensures FilteredList(employees, systemState, "", "dashboard", statusMode, "all", lower) == employees
  {
    var p := KeepIn(systemState, "", "dashboard", statusMode, "all", lower);
    forall i | 0 <= i < |employees|
      ensures p(employees[i])
    {
      ContainsEmpty(LowerCase(SearchText(employees[i]), lower));
      assert LowerCase("", lower) == [];
    }
    FilterKeepsAll(employees, p);
  }

  /** Outside the dashboard the status and company selects are never consulted. */
  lemma FacetsOnlyOnDashboard(employees: seq<Employee>, systemState: map<string, Json>, search: string,
                              viewContext: string, statusMode1: string, companyMode1: string,
                              statusMode2: string, companyMode2: string, lower: char -> char)
    requires viewContext != "dashboard"
    ensures FilteredList(employees, systemState, search, viewContext, statusMode1, companyMode1, lower)
         == FilteredList(employees, systemState, search, viewContext, statusMode2, companyMode2, lower)
  {
    FilterCongruent(employees, KeepIn(systemState, search, viewContext, statusMode1, companyMode1, lower),
                    KeepIn(systemState, search, viewContext, statusMode2, companyMode2, lower));
  }

  /** renderPCTable's filter: `s.pc_status !== 'NONE' || globalSearch.value`. */
  function PcTableRows(list: seq<Employee>, systemState: map<string, Json>, search: string): seq<Employee>
  {
    Filter(list, PcRowShown(systemState, search))
  }

  function PcRowShown(systemState: map<string, Json>, search: string): Employee -> bool
  {
    (e: Employee) => NormalizeFor(systemState, e.id).pcStatus != NONE || search != ""
  }

  /** renderCCTable's filter: `s.cc_status !== 'NONE' || globalSearch.value`. */
  function CcTableRows(list: seq<Employee>, systemState: map<string, Json>, search: string): seq<Employee>
  {
    Filter(list, CcRowShown(systemState, search))
  }

  function CcRowShown(systemState: map<string, Json>, search: string): Employee -> bool
  {
    (e: Employee) => NormalizeFor(systemState, e.id).ccStatus != NONE || search != ""
  }

  /** renderExcluded's filter: `s.excluded || e.notes || globalSearch.value`. */
  function ExcludedCards(list: seq<Employee>, systemState: map<string, Json>, search: string): seq<Employee>
  {
    Filter(list, CardShown(systemState, search))
  }

  function CardShown(systemState: map<string, Json>, search: string): Employee -> bool
  {
    (e: Employee) => NormalizeFor(systemState, e.id).excluded || TextOrEmpty(e.notes) != "" || search != ""
  }

  /** The PC table shows every employee the pc_view list hands it. */
  lemma PcTableShowsAll(employees: seq<Employee>, systemState: map<string, Json>, search: string,
                        statusMode: string, companyMode: string, lower: char -> char)
    ensures var list := FilteredList(employees, systemState, search, "pc_view", statusMode, companyMode, lower);
      PcTableRows(list, systemState, search) == list
  {
    var list := FilteredList(employees, systemState, search, "pc_view", statusMode, companyMode, lower);
    forall i | 0 <= i < |list|
      ensures NormalizeFor(systemState, list[i].id).pcStatus != NONE
    {
      FilteredMembers(employees, systemState, search, "pc_view", statusMode, companyMode, lower, list[i]);
    }
    FilterKeepsAll(list, PcRowShown(systemState, search));
  }

  /** The CC table shows every employee the cc_view list hands it. */
  lemma CcTableShowsAll(employees: seq<Employee>, systemState: map<string, Json>, search: string,
                        statusMode: string, companyMode: string, lower: char -> char)
    ensures var list := FilteredList(employees, systemState, search, "cc_view", statusMode, companyMode, lower);
      CcTableRows(list, systemState, search) == list
  {
    var list := FilteredList(employees, systemState, search, "cc_view", statusMode, companyMode, lower);
    forall i | 0 <= i < |list|
      ensures NormalizeFor(systemState, list[i].id).ccStatus != NONE
    {
      FilteredMembers(employees, systemState, search, "cc_view", statusMode, companyMode, lower, list[i]);
    }
    FilterKeepsAll(list, CcRowShown(systemState, search));
  }

  /** The excluded grid shows every employee the excluded_view list hands it. */
  lemma ExcludedGridShowsAll(employees: seq<Employee>, systemState: map<string, Json>, search: string,
                             statusMode: string, companyMode: string, lower: char -> char)
    ensures var list := FilteredList(employees, systemState, search, "excluded_view", statusMode, companyMode, lower);
      ExcludedCards(list, systemState, search) == list
  {
    var list := FilteredList(employees, systemState, search, "excluded_view", statusMode, companyMode, lower);
    forall i | 0 <= i < |list|
      ensures NormalizeFor(systemState, list[i].id).excluded
    {
      FilteredMembers(employees, systemState, search, "excluded_view", statusMode, companyMode, lower, list[i]);
    }
    FilterKeepsAll(list, CardShown(systemState, search));
  }
}
