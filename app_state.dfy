/**
 * frontend/app.js: normalizeState (74-86), getBadgeHTML (276-286) and
 * formatDate (288-293). A stored status record is whatever JSON was saved
 * for the employee; normalization reads its seven fields with JavaScript's
 * `||` defaults.
 */
module AppState {
  import opened Wrappers
  import opened Js
  import opened Seqs

  const NONE: Json := JStr("NONE")
  const ACTIVE: Json := JStr("ACTIVE")
  const PAYMENT_PENDING: Json := JStr("PAYMENT_PENDING")

  /** The complete seven-field record `normalizeState` returns. */
  datatype State = State(
    pcStatus: Json,
    pcExpires: Json,
    pcRequested: Json,
    ccStatus: Json,
    ccExpires: Json,
    ccRequested: Json,
    excluded: bool)

  /** `systemState[id] || {}` */
  function StoredOrEmpty(systemState: map<string, Json>, id: string): Json
  {
    if id in systemState && Truthy(systemState[id]) then systemState[id] else JObj(map[])
  }

  /** The body of `normalizeState` applied to the stored value `s`. */
  function Normalize(s: Json): State
  {
    State(
      pcStatus := OrElse(Get(s, "pc_status"), NONE),
      pcExpires := OrElse(Get(s, "pc_expires"), JStr("")),
      pcRequested := OrElse(Get(s, "pc_requested"), JStr("")),
      ccStatus := OrElse(Get(s, "cc_status"), NONE),
      ccExpires := OrElse(Get(s, "cc_expires"), JStr("")),
      ccRequested := OrElse(Get(s, "cc_requested"), JStr("")),
      excluded := TruthyRead(Get(s, "excluded")))
  }

  /** `normalizeState(id)` against the status map `systemState`. */
  function NormalizeFor(systemState: map<string, Json>, id: string): State
  {
    Normalize(StoredOrEmpty(systemState, id))
  }

  /** The record every field of which took its default. */
  const Defaults: State := State(NONE, JStr(""), JStr(""), NONE, JStr(""), JStr(""), false)

  /** The record as the front end saves it (`{pc_status: ..., excluded: ...}`). */
  function Encode(n: State): Json
  {
    JObj(map[
      "pc_status" := n.pcStatus,
      "pc_expires" := n.pcExpires,
      "pc_requested" := n.pcRequested,
      "cc_status" := n.ccStatus,
      "cc_expires" := n.ccExpires,
      "cc_requested" := n.ccRequested,
      "excluded" := JBool(n.excluded)])
  }

  /** The shape `normalizeState` guarantees: truthy statuses, dates truthy or "". */
  predicate IsNormal(n: State)
  {
    && Truthy(n.pcStatus) && Truthy(n.ccStatus)
    && (Truthy(n.pcExpires) || n.pcExpires == JStr(""))
    && (Truthy(n.pcRequested) || n.pcRequested == JStr(""))
    && (Truthy(n.ccExpires) || n.ccExpires == JStr(""))
    && (Truthy(n.ccRequested) || n.ccRequested == JStr(""))
  }

  /**
   * Every field of the result is the stored one when that is truthy and the
   * default otherwise; so the result always has the normal shape.
   */
  lemma NormalizeFields(s: Json)
    ensures var n := Normalize(s);
      && (if TruthyRead(Get(s, "pc_status")) then n.pcStatus == Get(s, "pc_status").value else n.pcStatus == NONE)
      && (if TruthyRead(Get(s, "pc_expires")) then n.pcExpires == Get(s, "pc_expires").value else n.pcExpires == JStr(""))
      && (if TruthyRead(Get(s, "pc_requested")) then n.pcRequested == Get(s, "pc_requested").value else n.pcRequested == JStr(""))
      && (if TruthyRead(Get(s, "cc_status")) then n.ccStatus == Get(s, "cc_status").value else n.ccStatus == NONE)
      && (if TruthyRead(Get(s, "cc_expires")) then n.ccExpires == Get(s, "cc_expires").value else n.ccExpires == JStr(""))
      && (if TruthyRead(Get(s, "cc_requested")) then n.ccRequested == Get(s, "cc_requested").value else n.ccRequested == JStr(""))
      && (n.excluded <==> TruthyRead(Get(s, "excluded")))
      && IsNormal(n)
  {
  }

  /** An employee without a stored record, or with a falsy one, gets all defaults. */
  lemma NormalizeMissing(systemState: map<string, Json>, id: string)
    requires id !in systemState || !Truthy(systemState[id])
    ensures NormalizeFor(systemState, id) == Defaults
  {
  }

  /** Any stored value that is not an object (null, a string, an array...) also gives all defaults. */
  lemma NormalizeNonObject(s: Json)
    requires !s.JObj?
    ensures Normalize(s) == Defaults
  {
  }

  /** Saving a normal record and normalizing it again gives the same record. */
  lemma NormalizeEncode(n: State)
    requires IsNormal(n)
    ensures Normalize(Encode(n)) == n
  {
    var e := Encode(n);
    assert Get(e, "pc_status") == Some(n.pcStatus);
    assert Get(e, "pc_expires") == Some(n.pcExpires);
    assert Get(e, "pc_requested") == Some(n.pcRequested);
    assert Get(e, "cc_status") == Some(n.ccStatus);
    assert Get(e, "cc_expires") == Some(n.ccExpires);
    assert Get(e, "cc_requested") == Some(n.ccRequested);
    assert Get(e, "excluded") == Some(JBool(n.excluded));
  }

  /** Normalization is idempotent. */
  lemma NormalizeIdempotent(s: Json)
    ensures Normalize(Encode(Normalize(s))) == Normalize(s)
  {
    NormalizeFields(s);
    NormalizeEncode(Normalize(s));
  }

  /** The labels of `getBadgeHTML`'s table, by key. */
  function BadgeLabel(key: string): string
  {
    match key
    case "ACTIVE" => "ACTIVO"
    case "PROCESSING" => "Proceso"
    case "RENEWAL" => "Renovar"
    case "PENDING_UPDATE" => "Pendiente"
    case "PAYMENT_PENDING" => "\U{1F4B0} Pago"
    case _ => "-"
  }

  const BadgeKeys: set<string> := {"ACTIVE", "PROCESSING", "RENEWAL", "PENDING_UPDATE", "PAYMENT_PENDING", "NONE"}

  /** `map[status] || map['NONE']`: the label shown for a status. */
  function Badge(status: Json): string
  {
    var key := if status.JStr? && status.s in BadgeKeys then status.s else "NONE";
    BadgeLabel(key)
  }

  /** The six known statuses are told apart: no two of them show the same badge. */
  lemma BadgeLabelsDistinct(a: string, b: string)
    requires a in BadgeKeys && b in BadgeKeys && a != b
    ensures Badge(JStr(a)) != Badge(JStr(b))
  {
  }

  /** An unknown status falls back to the NONE badge, and only an unknown or NONE status shows "-". */
  lemma BadgeFallback(status: Json)
    ensures Badge(status) == "-" <==> !(status.JStr? && status.s in BadgeKeys - {"NONE"})
  {
  }

  /** `parts[i]` of a destructuring, `undefined` when the part is missing. */
  function Part(parts: seq<string>, i: nat): string
  {
    if i < |parts| then parts[i] else "undefined"
  }

  /** `formatDate(d)`: "-" for an empty date, otherwise the `-`-separated parts reversed around `/`. */
  function FormatDate(d: string): string
  {
    if d == "" then "-"
    else
      var parts := Split(d, '-');
      Part(parts, 2) + "/" + Part(parts, 1) + "/" + Part(parts, 0)
  }

  /** YYYY-MM-DD becomes DD/MM/YYYY. */
  lemma FormatDateReorders(y: string, m: string, d: string)
    requires '-' !in y && '-' !in m && '-' !in d
    ensures FormatDate(y + "-" + m + "-" + d) == d + "/" + m + "/" + y
  {
    var s := y + "-" + m + "-" + d;
    assert s == y + ['-'] + (m + ['-'] + d);
    SplitAfterPiece(y, '-', m + ['-'] + d);
    SplitAfterPiece(m, '-', d);
    SplitPlain(d, '-');
    assert Split(s, '-') == [y, m, d];
  }

  /** A non-empty date without any `-` is taken as the year alone. */
  lemma FormatDateWithoutDashes(y: string)
    requires y != "" && '-' !in y
    ensures FormatDate(y) == "undefined/undefined/" + y
  {
    SplitPlain(y, '-');
  }
}
