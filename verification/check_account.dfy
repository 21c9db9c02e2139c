/**
 * Account checks of incident intake: whether the account already has an
 * open case, and the assembly of the linked-accounts list
 * (`Account_Cross_Details`) from the incident and the open incidents and
 * cases of the same customer. The store queries become parameters.
 */
module CheckAccount {
  import opened Wrappers
  import opened PyValues
  import opened Incidents

  /** The fields of a `Case_details` document the open-case query reads. */
  datatype CaseRecord = CaseRecord(accountNum: Option<Value>, caseCurrentStatus: Option<Value>)

  const CLOSED_STATUSES: seq<string> := ["close", "write-off", "abandoned", "withdraw"]

  /** `$toLower` of a case status: a missing or null status lowers to the empty string. */
  function LoweredStatus(v: Option<Value>): string
  {
    match v
    case Some(Str(s)) => Lower(s)
    case _ => ""
  }

  /** The query condition: the same account and a status that is not one of the closed ones, in any case. */
  predicate IsOpenCaseFor(c: CaseRecord, accountNum: Value)
  {
    c.accountNum.Some? && PyEq(c.accountNum.value, accountNum) && LoweredStatus(c.caseCurrentStatus) !in CLOSED_STATUSES
  }

  /** `find_one`: the first case record that satisfies the query. */
  function FindOpenCase(cases: seq<CaseRecord>, accountNum: Value): (r: Option<nat>)
    ensures r.Some? ==> r.value < |cases| && IsOpenCaseFor(cases[r.value], accountNum)
    ensures r.None? ==> forall i :: 0 <= i < |cases| ==> !IsOpenCaseFor(cases[i], accountNum)
  {
    if |cases| == 0 then None
    else if IsOpenCaseFor(cases[0], accountNum) then Some(0)
    else
      match FindOpenCase(cases[1..], accountNum)
      case None =>
        assert forall i :: 0 < i < |cases| ==> cases[i] == cases[1..][i - 1];
        None
      case Some(i) => Some(i + 1)
  }

  /**
   * `has_open_case_for_account`: the string "True" exactly when some case
   * of the incident's account is open, and "False" otherwise, including
   * when the store cannot be reached (`None`).
   */
  function HasOpenCase(d: Incident, store: Option<seq<CaseRecord>>): (r: string)
    ensures r == "True" || r == "False"
    ensures r == "True" <==> store.Some? && exists i :: 0 <= i < |store.value| && IsOpenCaseFor(store.value[i], Get(d.accountNum))
  {
    match store
    case None => "False"
    case Some(cases) => if FindOpenCase(cases, Get(d.accountNum)).Some? then "True" else "False"
  }

  /** A case whose status is a closed one, in whatever letter case, never makes the answer "True". */
  lemma {:induction false} ClosedCasesIgnored(d: Incident, cases: seq<CaseRecord>, closed: CaseRecord)
    requires closed.caseCurrentStatus.Some? && closed.caseCurrentStatus.value.Str?
    requires Lower(closed.caseCurrentStatus.value.s) in CLOSED_STATUSES
    ensures HasOpenCase(d, Some(cases + [closed])) == HasOpenCase(d, Some(cases))
  {
    var all := cases + [closed];
    var acct := Get(d.accountNum);
    if exists i :: 0 <= i < |all| && IsOpenCaseFor(all[i], acct) {
      var i :| 0 <= i < |all| && IsOpenCaseFor(all[i], acct);
      assert i < |cases| && all[i] == cases[i];
    }
    if exists i :: 0 <= i < |cases| && IsOpenCaseFor(cases[i], acct) {
      var i :| 0 <= i < |cases| && IsOpenCaseFor(cases[i], acct);
      assert all[i] == cases[i];
    }
  }

  /** One row of the open-incidents query (projected fields, any of which may be absent). */
  datatype IncidentRow = IncidentRow(incidentId: Option<Value>, accountNum: Option<Value>, incidentStatus: Option<Value>, arrears: Option<Value>)

  /** One row of the open-cases query (projected fields, any of which may be absent). */
  datatype CaseRow = CaseRow(caseId: Option<Value>, accountNum: Option<Value>, caseCurrentStatus: Option<Value>, bssArrearsAmount: Option<Value>)

  const NO_ID := Str("")
  const NO_BALANCE := Int(0)

  /**
   * The root entry, from `get_root_account_details`: that dictionary always
   * holds its four keys, so a key the incident lacks gives `None`, not the
   * default.
   */
  function RootEntry(d: Incident): LinkEntry
  {
    LinkEntry(Get(d.incidentId), NO_ID, Get(d.accountNum), Get(d.status), Get(d.arrears))
  }

  function IncidentEntry(row: IncidentRow): LinkEntry
  {
    LinkEntry(GetDefault(row.incidentId, NO_ID), NO_ID, GetDefault(row.accountNum, NO_ID),
      GetDefault(row.incidentStatus, NO_ID), GetDefault(row.arrears, NO_BALANCE))
  }

  function CaseEntry(row: CaseRow): LinkEntry
  {
    LinkEntry(NO_ID, GetDefault(row.caseId, NO_ID), GetDefault(row.accountNum, NO_ID),
      GetDefault(row.caseCurrentStatus, NO_ID), GetDefault(row.bssArrearsAmount, NO_BALANCE))
  }

  function IncidentEntries(rows: seq<IncidentRow>): (r: seq<LinkEntry>)
    ensures |r| == |rows| && forall i :: 0 <= i < |rows| ==> r[i] == IncidentEntry(rows[i])
  {
    if |rows| == 0 then [] else IncidentEntries(rows[..|rows| - 1]) + [IncidentEntry(rows[|rows| - 1])]
  }

  function CaseEntries(rows: seq<CaseRow>): (r: seq<LinkEntry>)
    ensures |r| == |rows| && forall i :: 0 <= i < |rows| ==> r[i] == CaseEntry(rows[i])
  {
    if |rows| == 0 then [] else CaseEntries(rows[..|rows| - 1]) + [CaseEntry(rows[|rows| - 1])]
  }

  /**
   * The linked-accounts list: the root account first, then the open
   * incidents, then the open cases, each in query order. Incident entries
   * carry an empty `Case_Id`, case entries an empty `Incident_Id`.
   */
  function LinkedEntries(d: Incident, incidents: seq<IncidentRow>, cases: seq<CaseRow>): (r: seq<LinkEntry>)
    ensures |r| == 1 + |incidents| + |cases|
    ensures r[0] == RootEntry(d) && r[0].caseId == NO_ID
    ensures forall i :: 0 <= i < |incidents| ==> r[1 + i] == IncidentEntry(incidents[i]) && r[1 + i].caseId == NO_ID
    ensures forall j :: 0 <= j < |cases| ==> r[1 + |incidents| + j] == CaseEntry(cases[j]) && r[1 + |incidents| + j].incidentId == NO_ID
  {
    [RootEntry(d)] + IncidentEntries(incidents) + CaseEntries(cases)
  }

  /**
   * `link_accounts_from_open_accounts`: the incident after linking, and the
   * contents of the module-level list. A missing `Customer_Ref` leaves the
   * list cleared and marks the incident "Error" with the `KeyError`'s text.
   */
  function Linked(d: Incident, registry: LinkedAccounts, incidents: seq<IncidentRow>, cases: seq<CaseRow>, now: Instant): (Incident, seq<LinkEntry>)
  {
    if d.customerRef.None? then (MarkError(d, now, Rendered(KeyMissing("Customer_Ref"))), [])
    else (d.(crossDetails := Some(registry)), LinkedEntries(d, incidents, cases))
  }

  /**
   * `link_accounts_from_open_accounts`, with the results of the two
   * same-customer queries as parameters. `registry` is the module-level
   * list the function clears and refills; the incident ends up holding
   * that very list.
   */
  method LinkAccounts(inc: IncidentDict, registry: LinkedAccounts, openIncidents: seq<IncidentRow>, openCases: seq<CaseRow>, now: Instant)
    modifies inc, registry
    ensures (inc.doc, registry.entries) == Linked(old(inc.doc), registry, openIncidents, openCases, now)
  {
    registry.entries := [];
    if inc.doc.customerRef.None? {
      inc.doc := MarkError(inc.doc, now, Rendered(KeyMissing("Customer_Ref")));
      return;
    }
    var root := RootEntry(inc.doc);
    registry.entries := registry.entries + [root];
    var i := 0;
    while i < |openIncidents|
      invariant 0 <= i <= |openIncidents|
      invariant registry.entries == [root] + IncidentEntries(openIncidents[..i])
      invariant inc.doc == old(inc.doc)
    {
      assert openIncidents[..i + 1][..i] == openIncidents[..i];
      registry.entries := registry.entries + [IncidentEntry(openIncidents[i])];
      i := i + 1;
    }
    assert openIncidents[..i] == openIncidents;
    var j := 0;
    while j < |openCases|
      invariant 0 <= j <= |openCases|
      invariant registry.entries == [root] + IncidentEntries(openIncidents) + CaseEntries(openCases[..j])
      invariant inc.doc == old(inc.doc)
    {
      assert openCases[..j + 1][..j] == openCases[..j];
      registry.entries := registry.entries + [CaseEntry(openCases[j])];
      j := j + 1;
    }
    assert openCases[..j] == openCases;
    inc.doc := inc.doc.(crossDetails := Some(registry));
  }

  /**
   * Linking changes nothing of the incident but `Account_Cross_Details`,
   * or, on a missing `Customer_Ref`, only the status marks.
   */
  lemma LinkedOutcome(d: Incident, registry: LinkedAccounts, incidents: seq<IncidentRow>, cases: seq<CaseRow>, now: Instant)
    ensures var (r, entries) := Linked(d, registry, incidents, cases, now);
      (d.customerRef.None? <==> IsError(r) && entries == [] && SameIntake(d, r))
      && (d.customerRef.Some? ==> r == d.(crossDetails := Some(registry)) && |entries| == 1 + |incidents| + |cases|)
  {
  }

  /**
   * Every incident linked holds the same module-level list: linking a
   * second incident refills the list the first incident already holds,
   * so the first one's `Account_Cross_Details` now lists the second
   * one's accounts.
   */
  method LinkInTurn(first: IncidentDict, second: IncidentDict, registry: LinkedAccounts,
                    incidents1: seq<IncidentRow>, cases1: seq<CaseRow>,
                    incidents2: seq<IncidentRow>, cases2: seq<CaseRow>, now: Instant)
    requires first != second
    requires first.doc.customerRef.Some? && second.doc.customerRef.Some?
    modifies first, second, registry
    ensures first.doc.crossDetails == Some(registry) && second.doc.crossDetails == Some(registry)
    ensures registry.entries == LinkedEntries(old(second.doc), incidents2, cases2)
    ensures registry.entries[0] == RootEntry(old(second.doc))
  {
    LinkAccounts(first, registry, incidents1, cases1, now);
    LinkAccounts(second, registry, incidents2, cases2, now);
  }
}
