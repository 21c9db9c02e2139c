/**
 * The money-transaction ledger as state transitions over an in-memory
 * document store: the two request gates, the existing-case and new-case
 * steps, the bonus and commission steps, the completion cascade and the two
 * settlement creation routes.
 */
module LedgerStore {
  import opened Wrappers
  import opened Calendar
  import opened Balance
  import opened SettlementPlan
  import opened LedgerDocs
  import opened LedgerRules
  import PyValues

  const MSG_SETTLED := "Obtained Money Transaction added successfully - existing case and settlement amount has been settled"
  const MSG_CHEQUE := "Obtained Money Transaction added successfully - settlement amount has been settled by a cheque, monitoring started until the waiting period is over"
  const MSG_EXISTING := "Obtained Money Transaction added successfully - existing case"
  const MSG_NEW_CASE := "Obtained Money Transaction added successfully - New case"
  const MSG_NO_NEGOTIATION := "Negotiation has not happened yet"
  const MSG_SETTLEMENT_CREATED := "Create Settlement Plan - Details added successfully to case settlement plan db"
  const CASE_MISSING := "Case does not exist in the case details collection - Invalid case_id"
  const DUPLICATE_REF := "Money Transaction already EXISTS with money_transaction_ref or money_transaction_id"
  /** The fixed `expire_dtm` of the "Closed" status entry. */
  const CLOSED_EXPIRE_DTM := "2025-02-28T00:00:00.000+00:00"
  /** Days a completing cheque is monitored before it counts as cleared. */
  const CHEQUE_WAIT_DAYS: nat := 14

  /** How a ledger step ends: a message, or an error that the gate turns into a server error. */
  datatype Outcome = Done(message: string) | Raised(error: LedgerError)

  /**
   * The HTTP answer of a route. `ReturnedException` is an `HTTPException`
   * that a route returns instead of raising: FastAPI serialises it as the
   * JSON body of a 200 answer, with its status code and detail as fields.
   */
  datatype Response = Ok(message: string) | BadRequest(detail: string) | ServerError
    | ReturnedException(statusCode: int, detail: string)

  /** The status code on the answer's status line. */
  function StatusLine(r: Response): int
  {
    match r
    case BadRequest(_) => 400
    case ServerError => 500
    case _ => 200
  }

  /** `HTTPStatus.CONFLICT`. */
  const CONFLICT := 409

  /** The detail of the conflict for an unknown case. */
  function UnknownCaseDetail(caseId: int): string
  {
    "SET-2P01 - Create Settlement Plan - Case ID " + PyValues.IntText(caseId) + " does not exist. Invalid case ID."
  }

  /** The detail of the conflict for a settlement id already stored. */
  function TakenSettlementDetail(settlementId: int): string
  {
    "SET-2P01 - Create Settlement Plan - Settlement ID " + PyValues.IntText(settlementId) + " already exists."
  }

  /** A timestamp the ledger can format as `%Y%m`. */
  predicate ClockOk(t: DateTime)
  {
    ValidDateTime(t) && 0 <= t.date.year <= 9999
  }

  /** The latest ledger entry matching a query, as a document. */
  function LatestEntry(es: seq<LedgerEntry>, q: LedgerQuery): (r: Option<LedgerEntry>)
    ensures r.None? <==> forall j :: 0 <= j < |es| ==> !Matches(q, es[j])
    ensures r.Some? ==> r.value in es && Matches(q, r.value)
  {
    match LatestMatch(es, q)
    case None => None
    case Some(i) => Some(es[i])
  }

  function FindCase(cases: seq<CaseRecord>, caseId: int): (r: Option<CaseRecord>)
    ensures r.None? <==> forall j :: 0 <= j < |cases| ==> cases[j].caseId != caseId
    ensures r.Some? ==> r.value in cases && r.value.caseId == caseId
  {
    match FirstWhere(cases, CaseIdOf, caseId)
    case None => None
    case Some(i) => Some(cases[i])
  }

  function FindSettlement(ss: seq<CaseSettlement>, settlementId: int): (r: Option<CaseSettlement>)
    ensures r.None? <==> forall j :: 0 <= j < |ss| ==> ss[j].settlementId != settlementId
    ensures r.Some? ==> r.value in ss && r.value.settlementId == settlementId
  {
    match FirstWhere(ss, SettlementIdOf, settlementId)
    case None => None
    case Some(i) => Some(ss[i])
  }

  // ---------------------------------------------------------------------
  // Completion cascade (`update_db_status`): each update hits the first matching document.

  function ClosedEntry(now: DateTime): CaseStatusEntry
  {
    CaseStatusEntry("Closed", None, now, "admin", now, Some(CLOSED_EXPIRE_DTM))
  }

  function CompleteCaseSettlement(ss: seq<CaseSettlement>, settlementId: int): (r: seq<CaseSettlement>)
    ensures |r| == |ss| && SettlementIds(r) == SettlementIds(ss)
    ensures FirstWhere(ss, SettlementIdOf, settlementId).None? ==> r == ss
    ensures FirstWhere(ss, SettlementIdOf, settlementId).Some? ==>
      var i := FirstWhere(ss, SettlementIdOf, settlementId).value;
      r == ss[i := ss[i].(settlementStatus := "Completed")]
  {
    match FirstWhere(ss, SettlementIdOf, settlementId)
    case None => ss
    case Some(i) =>
      var r := ss[i := ss[i].(settlementStatus := "Completed")];
      assert SettlementIds(r) == SettlementIds(ss);
      r
  }

  function CompleteSummary(ss: seq<SettlementSummary>, settlementId: int): (r: seq<SettlementSummary>)
    ensures |r| == |ss|
    ensures forall j :: 0 <= j < |ss| ==> r[j].settlementId == ss[j].settlementId
    ensures FirstWhere(ss, SummaryIdOf, settlementId).None? ==> r == ss
    ensures FirstWhere(ss, SummaryIdOf, settlementId).Some? ==>
      var i := FirstWhere(ss, SummaryIdOf, settlementId).value;
      r == ss[i := ss[i].(status := "Completed")]
  {
    match FirstWhere(ss, SummaryIdOf, settlementId)
    case None => ss
    case Some(i) => ss[i := ss[i].(status := "Completed")]
  }

  function CloseCase(cases: seq<CaseRecord>, caseId: int, now: DateTime): (r: seq<CaseRecord>)
    ensures |r| == |cases|
    ensures forall j :: 0 <= j < |cases| ==> r[j].caseId == cases[j].caseId
    ensures FirstWhere(cases, CaseIdOf, caseId).None? ==> r == cases
    ensures FirstWhere(cases, CaseIdOf, caseId).Some? ==>
      var i := FirstWhere(cases, CaseIdOf, caseId).value;
      r == cases[i := cases[i].(caseCurrentStatus := "Complete", caseStatus := cases[i].caseStatus + [ClosedEntry(now)])]
  {
    match FirstWhere(cases, CaseIdOf, caseId)
    case None => cases
    case Some(i) => cases[i := cases[i].(caseCurrentStatus := "Complete", caseStatus := cases[i].caseStatus + [ClosedEntry(now)])]
  }

  /**
   * After the cascade the first case with the id is "Complete" and its
   * history ends with exactly one more entry, a "Closed" one; no other case changes.
   */
  lemma CloseCaseEffect(cases: seq<CaseRecord>, caseId: int, now: DateTime)
    requires FindCase(cases, caseId).Some?
    ensures var r := CloseCase(cases, caseId, now);
      var i := FirstWhere(cases, CaseIdOf, caseId).value;
      FindCase(r, caseId).Some?
      && FindCase(r, caseId).value.caseCurrentStatus == "Complete"
      && FindCase(r, caseId).value.caseStatus == FindCase(cases, caseId).value.caseStatus + [ClosedEntry(now)]
      && forall j :: 0 <= j < |cases| && j != i ==> r[j] == cases[j]
  {
    var r := CloseCase(cases, caseId, now);
    var i := FirstWhere(cases, CaseIdOf, caseId).value;
    assert CaseIdOf(r[i]) == caseId;
    assert forall j :: 0 <= j < i ==> CaseIdOf(r[j]) == CaseIdOf(cases[j]);
    assert FirstWhere(r, CaseIdOf, caseId) == Some(i) by {
      FirstWhereAt(r, CaseIdOf, caseId, i);
    }
  }

  /** The first match is at `i` when `i` matches and nothing before it does. */
  lemma {:induction false} FirstWhereAt<T, K>(s: seq<T>, field: T -> K, want: K, i: nat)
    requires i < |s| && field(s[i]) == want
    requires forall j :: 0 <= j < i ==> field(s[j]) != want
    ensures FirstWhere(s, field, want) == Some(i)
  {
    if i > 0 {
      FirstWhereAt(s[1..], field, want, i - 1);
    }
  }

  // ---------------------------------------------------------------------
  // Ledger entries

  /** The entry the existing-case step inserts. */
  function ExistingEntry(req: TransactionRequest, created: DateTime, moneyTransactionId: int, s: ExistingStep,
                         drcId: Option<int>, roId: Option<int>, firstSettlement: bool): LedgerEntry
    requires ClockOk(created)
  {
    LedgerEntry(req, created, moneyTransactionId, s.installmentSeq, s.commissionType, s.credit, s.debt, s.stored,
                Some(if IsDebitType(req.txType) then 0 else s.commissioned), req.commissioningAmount, drcId, roId,
                if firstSettlement then Some(YearMonth(created)) else req.bonus1,
                if s.completion then Some(YearMonth(created)) else req.bonus2)
  }

  /** The entry the new-case step inserts; `bonus_1` is set only after the insert and never reaches it. */
  function NewCaseEntry(req: TransactionRequest, created: DateTime, moneyTransactionId: int, installmentSeq: int,
                        commissionType: string, effectiveAmount: int, drcId: Option<int>, roId: Option<int>): LedgerEntry
  {
    var figures := RunningFigures(None, req.txType, req.amount);
    LedgerEntry(req, created, moneyTransactionId, installmentSeq, commissionType, figures.credit, figures.debt,
                req.amount, None, Some(effectiveAmount), drcId, roId, req.bonus1, req.bonus2)
  }

  // ---------------------------------------------------------------------
  // Bonus and commission records, completion

  /** The bonus and commission collections after the two steps, the first-settlement flag and the error raised. */
  datatype SideRecords = SideRecords(
    bonuses: seq<BonusRecord>, commissions: seq<CommissionRecord>, firstSettlement: bool, error: Option<LedgerError>)

  function SideRecordsFor(ledger: seq<LedgerEntry>, bonuses: seq<BonusRecord>, commissions: seq<CommissionRecord>,
                          catalogue: seq<CatalogueEntry>, rates: seq<PaymentRate>, cases: seq<CaseRecord>,
                          req: TransactionRequest, commissionType: string, created: DateTime,
                          drcId: Option<int>, roId: Option<int>, bonusAmount: int, agentMonth: int,
                          moneyTransactionId: int, completion: bool, commissioningAmount: int): SideRecords
  {
    match LatestMatch(ledger, PaymentsForSettlement(req.caseId, req.settlementId))
    case None => SideRecords(bonuses, commissions, false, Some(NoPaymentEntry))
    case Some(i) =>
      var d := DecideBonus(req.txType, commissionType, ledger[i].installmentSeq, completion);
      var bs := bonuses + BonusRecordsFor(d, NextSeq(BonusSeqs(bonuses)), created, req.caseId, roId, bonusAmount,
                                          agentMonth, moneyTransactionId, completion);
      match CommissionRecordFor(catalogue, rates, cases, commissions, req.caseId, moneyTransactionId, commissionType,
                                commissioningAmount, drcId, roId, created)
      case Failure(e) => SideRecords(bs, commissions, d.firstSettlement, Some(e))
      case Success(c) => SideRecords(bs, commissions + [c], d.firstSettlement, None)
  }

  /**
   * One ledger request adds at most one bonus record and at most one
   * commission record, each numbered after every existing one; a
   * first-settlement flag means a positive bonus was written.
   */
  lemma SideRecordsAppendAtMostOne(ledger: seq<LedgerEntry>, bonuses: seq<BonusRecord>, commissions: seq<CommissionRecord>,
                                   catalogue: seq<CatalogueEntry>, rates: seq<PaymentRate>, cases: seq<CaseRecord>,
                                   req: TransactionRequest, commissionType: string, created: DateTime,
                                   drcId: Option<int>, roId: Option<int>, bonusAmount: int, agentMonth: int,
                                   moneyTransactionId: int, completion: bool, commissioningAmount: int)
    ensures var side := SideRecordsFor(ledger, bonuses, commissions, catalogue, rates, cases, req, commissionType, created,
                                       drcId, roId, bonusAmount, agentMonth, moneyTransactionId, completion, commissioningAmount);
      |bonuses| <= |side.bonuses| <= |bonuses| + 1 && side.bonuses[..|bonuses|] == bonuses
      && |commissions| <= |side.commissions| <= |commissions| + 1 && side.commissions[..|commissions|] == commissions
      && (|side.bonuses| > |bonuses| ==> forall x :: x in BonusSeqs(bonuses) ==> x < side.bonuses[|bonuses|].bonusSeq)
      && (|side.commissions| > |commissions| ==>
            forall x :: x in CommissionSeqs(commissions) ==> x < side.commissions[|commissions|].commissionSeq)
      && (side.firstSettlement ==> |side.bonuses| == |bonuses| + 1 && side.bonuses[|bonuses|].bonusStatus
                                   && side.bonuses[|bonuses|].bonusType == "success rate")
      && (req.txType == Bill ==> side.bonuses == bonuses)
  {
    var side := SideRecordsFor(ledger, bonuses, commissions, catalogue, rates, cases, req, commissionType, created,
                               drcId, roId, bonusAmount, agentMonth, moneyTransactionId, completion, commissioningAmount);
    match LatestMatch(ledger, PaymentsForSettlement(req.caseId, req.settlementId))
    case None =>
    case Some(i) =>
      var d := DecideBonus(req.txType, commissionType, ledger[i].installmentSeq, completion);
      var added := BonusRecordsFor(d, NextSeq(BonusSeqs(bonuses)), created, req.caseId, roId, bonusAmount,
                                   agentMonth, moneyTransactionId, completion);
      assert side.bonuses == bonuses + added;
      assert (bonuses + added)[..|bonuses|] == bonuses;
  }

  /** The collections the completion cascade may change. */
  datatype CascadeState = CascadeState(
    caseSettlements: seq<CaseSettlement>, settlements: seq<SettlementSummary>,
    cases: seq<CaseRecord>, monitoring: seq<MonitoringRequest>)

  /**
   * After an existing-case insert: a completing non-cheque payment runs the
   * status cascade, a completing cheque starts monitoring until fourteen
   * days after creation, anything else changes nothing.
   */
  function AfterCompletion(st: CascadeState, req: TransactionRequest, created: DateTime, completion: bool): CascadeState
    requires ValidDateTime(created)
  {
    if completion && req.txType != Cheque then
      CascadeState(CompleteCaseSettlement(st.caseSettlements, req.settlementId),
                   CompleteSummary(st.settlements, req.settlementId),
                   CloseCase(st.cases, req.caseId, created), st.monitoring)
    else if completion then
      st.(monitoring := st.monitoring + [MonitoringRequest(req.caseId, req.accountNum, AddDaysAt(created, CHEQUE_WAIT_DAYS))])
    else st
  }

  function CompletionMessage(completion: bool, t: TransactionType): string
  {
    if completion && t != Cheque then MSG_SETTLED
    else if completion then MSG_CHEQUE
    else MSG_EXISTING
  }

  /**
   * The cascade and cheque monitoring exclude each other, never add or drop
   * a settlement, and the monitoring deadline is strictly after creation.
   */
  lemma AfterCompletionKeepsSettlementIds(st: CascadeState, req: TransactionRequest, created: DateTime, completion: bool)
    requires ValidDateTime(created)
    ensures var r := AfterCompletion(st, req, created, completion);
      SettlementIds(r.caseSettlements) == SettlementIds(st.caseSettlements)
      && |r.settlements| == |st.settlements| && |r.cases| == |st.cases|
      && (r.monitoring == st.monitoring
          || (r.caseSettlements == st.caseSettlements && r.cases == st.cases
              && |r.monitoring| == |st.monitoring| + 1 && Before(created, r.monitoring[|st.monitoring|].endDate)))
  {
  }

  /** Appending one fresh entry with the next id keeps the ledger's ids increasing and its references unique. */
  lemma LedgerGrowthKeepsValid(before: seq<LedgerEntry>, after: seq<LedgerEntry>, req: TransactionRequest,
                               moneyTransactionId: int)
    requires StrictlyIncreasing(TransactionIds(before)) && UniqueReferences(before)
    requires moneyTransactionId == NextSeq(TransactionIds(before))
    requires !HasReference(before, req.accountNum, req.ref)
    requires LedgerGrowth(before, after, req, moneyTransactionId)
    ensures StrictlyIncreasing(TransactionIds(after)) && UniqueReferences(after)
  {
    if after != before {
      var e := after[|before|];
      assert after == before + [e];
      AppendFreshEntry(before, e);
    }
  }

  /** The existing-case step for a request, against the latest payment entry of its settlement. */
  function ExistingStepFor(ledger: seq<LedgerEntry>, req: TransactionRequest, prior: LedgerEntry, plan: seq<Installment>,
                           eligible: bool, settlement: CaseSettlement, commissionType: string): ExistingStep
  {
    ExistingCaseStep(prior, LatestEntry(ledger, PaymentsForSettlement(req.caseId, req.settlementId)), plan, eligible,
                     req.txType, req.amount, settlement.settlementAmount, commissionType)
  }

  /** The ledger is unchanged, or one entry for the request with the given id was appended. */
  predicate LedgerGrowth(before: seq<LedgerEntry>, after: seq<LedgerEntry>, req: TransactionRequest, moneyTransactionId: int)
  {
    after == before
    || (|after| == |before| + 1 && after[..|before|] == before
        && after[|before|].request == req && after[|before|].moneyTransactionId == moneyTransactionId)
  }

  // ---------------------------------------------------------------------
  // Gates

  /** How a gate disposes of a request before it dispatches it. */
  datatype Admission =
    | Reject(detail: string)   // a rejected-collection insert and a 400
    | Fault                    // an error outside the validation path: a 500, nothing written
    | Admit(eligible: bool, drcId: Option<int>, roId: Option<int>, settlement: CaseSettlement,
            plan: seq<Installment>, moneyTransactionId: int, prior: Option<LedgerEntry>)

  /**
   * `process_money_transaction` up to the dispatch. The case check comes
   * first, then the case phase is read (a missing key is an error), then the
   * duplicate reference check. The settlement's `case_phase` must be present
   * and in {Negotiation, Mediation Board}: otherwise `drc_id`/`ro_id` stay
   * unbound (or the plan does, without a settlement) and the call fails.
   */
  function NewerGateAdmission(cases: seq<CaseRecord>, ledger: seq<LedgerEntry>, ss: seq<CaseSettlement>,
                              req: TransactionRequest): (a: Admission)
    ensures FindCase(cases, req.caseId).None? ==> a == Reject(CASE_MISSING)
    ensures FindCase(cases, req.caseId).Some? && FindCase(cases, req.caseId).value.currentCasePhase.Absent? ==> a == Fault
    ensures FindCase(cases, req.caseId).Some? && !FindCase(cases, req.caseId).value.currentCasePhase.Absent?
            && HasReference(ledger, req.accountNum, req.ref)
            ==> a == Reject(DUPLICATE_REF)
    ensures a.Admit? <==>
      FindCase(cases, req.caseId).Some? && !FindCase(cases, req.caseId).value.currentCasePhase.Absent?
      && !HasReference(ledger, req.accountNum, req.ref)
      && FindSettlement(ss, req.settlementId).Some?
      && FindSettlement(ss, req.settlementId).value.casePhase.Present?
      && CommissionPhase(FindSettlement(ss, req.settlementId).value.casePhase.value)
      && FindSettlement(ss, req.settlementId).value.settlementPlan.Present?
    ensures a.Admit? ==>
      var phase := FindCase(cases, req.caseId).value.currentCasePhase;
      var settlement := FindSettlement(ss, req.settlementId).value;
      a.eligible == (phase.Present? && CommissionPhase(phase.value))
      && a.drcId == settlement.drcId && a.roId == settlement.roId
      && a.settlement == settlement && a.plan == settlement.settlementPlan.value
      && a.moneyTransactionId == NextSeq(TransactionIds(ledger))
      && a.prior == LatestEntry(ledger, ForSettlement(req.caseId, req.settlementId))
  {
    match FindCase(cases, req.caseId)
    case None => Reject(CASE_MISSING)
    case Some(c) =>
      if c.currentCasePhase.Absent? then Fault
      else if HasReference(ledger, req.accountNum, req.ref) then Reject(DUPLICATE_REF)
      else
        var eligible := c.currentCasePhase.Present? && CommissionPhase(c.currentCasePhase.value);
        match FindSettlement(ss, req.settlementId)
        case None => Fault
        case Some(s) =>
          if !(s.casePhase.Present? && CommissionPhase(s.casePhase.value)) then Fault
          else if !s.settlementPlan.Present? then Fault
          else Admit(eligible, s.drcId, s.roId, s, s.settlementPlan.value, NextSeq(TransactionIds(ledger)),
                     LatestEntry(ledger, ForSettlement(req.caseId, req.settlementId)))
  }

  /**
   * `obtain_money_transaction` up to the dispatch: the duplicate check runs
   * first, then the case check. Eligibility needs the request's `case_phase`
   * and the settlement's `settlement_phase` in {Negotiation, Mediation Board};
   * a missing settlement or plan fails.
   */
  function OlderGateAdmission(cases: seq<CaseRecord>, ledger: seq<LedgerEntry>, ss: seq<CaseSettlement>,
                              req: TransactionRequest): (a: Admission)
    ensures HasReference(ledger, req.accountNum, req.ref) ==> a == Reject(DUPLICATE_REF)
    ensures !HasReference(ledger, req.accountNum, req.ref) && FindCase(cases, req.caseId).None? ==> a == Reject(CASE_MISSING)
    ensures !HasReference(ledger, req.accountNum, req.ref) && FindCase(cases, req.caseId).Some?
            && FindSettlement(ss, req.settlementId).None?
            ==> a == Fault
    ensures a.Admit? <==>
      !HasReference(ledger, req.accountNum, req.ref) && FindCase(cases, req.caseId).Some?
      && FindSettlement(ss, req.settlementId).Some?
      && FindSettlement(ss, req.settlementId).value.settlementPlan.Present?
    ensures a.Admit? ==>
      var settlement := FindSettlement(ss, req.settlementId).value;
      a.eligible == (InCommissionPhase(req.casePhase) && CommissionPhase(settlement.settlementPhase))
      && a.drcId == req.drcId && a.roId == req.roId
      && a.settlement == settlement && a.plan == settlement.settlementPlan.value
      && a.moneyTransactionId == NextSeq(TransactionIds(ledger))
      && a.prior == LatestEntry(ledger, ForSettlement(req.caseId, req.settlementId))
  {
    if HasReference(ledger, req.accountNum, req.ref) then Reject(DUPLICATE_REF)
    else
      match FindCase(cases, req.caseId)
      case None => Reject(CASE_MISSING)
      case Some(_) =>
        match FindSettlement(ss, req.settlementId)
        case None => Fault
        case Some(s) =>
          if !s.settlementPlan.Present? then Fault
          else Admit(InCommissionPhase(req.casePhase) && CommissionPhase(s.settlementPhase), req.drcId, req.roId,
                     s, s.settlementPlan.value, NextSeq(TransactionIds(ledger)),
                     LatestEntry(ledger, ForSettlement(req.caseId, req.settlementId)))
  }

  /**
   * A settlement stored by either creation route has no `case_phase` key, so
   * the newer gate fails every transaction for it once the case and the
   * reference checks pass.
   */
  lemma NewerGateFailsOnCreatedSettlement(cases: seq<CaseRecord>, ledger: seq<LedgerEntry>, ss: seq<CaseSettlement>,
                                          req: TransactionRequest)
    requires FindCase(cases, req.caseId).Some? && !FindCase(cases, req.caseId).value.currentCasePhase.Absent?
    requires !HasReference(ledger, req.accountNum, req.ref)
    requires FindSettlement(ss, req.settlementId).Some? && FindSettlement(ss, req.settlementId).value.casePhase.Absent?
    ensures NewerGateAdmission(cases, ledger, ss, req) == Fault
  {
  }

  /** Both gates admit a request only with the next transaction id and a reference the ledger has not seen. */
  lemma AdmittedRequestsAreFresh(cases: seq<CaseRecord>, ledger: seq<LedgerEntry>, ss: seq<CaseSettlement>,
                                 req: TransactionRequest)
    ensures var a := NewerGateAdmission(cases, ledger, ss, req);
      a.Admit? ==> !HasReference(ledger, req.accountNum, req.ref) && a.moneyTransactionId == NextSeq(TransactionIds(ledger))
    ensures var a := OlderGateAdmission(cases, ledger, ss, req);
      a.Admit? ==> !HasReference(ledger, req.accountNum, req.ref) && a.moneyTransactionId == NextSeq(TransactionIds(ledger))
  {
  }

  // ---------------------------------------------------------------------
  // The store

  /** The collections the ledger reads and writes, in storage order. */
  class DocumentStore {
    var caseDetails: seq<CaseRecord>
    var caseSettlements: seq<CaseSettlement>
    var settlements: seq<SettlementSummary>
    var moneyTransactions: seq<LedgerEntry>
    var rejected: seq<RejectedTransaction>
    var bonuses: seq<BonusRecord>
    var commissions: seq<CommissionRecord>
    var catalogue: seq<CatalogueEntry>
    var paymentRates: seq<PaymentRate>
    var negotiations: seq<Negotiation>
    /** Cheque-monitoring orders sent out (the outbound request, kept as a record). */
    var chequeMonitoring: seq<MonitoringRequest>

    /** Bonus and commission numbers strictly increase in storage order. */
    predicate SequencesValid()
      reads this`bonuses, this`commissions
    {
      StrictlyIncreasing(BonusSeqs(bonuses)) && StrictlyIncreasing(CommissionSeqs(commissions))
    }

    /** Transaction ids strictly increase and no (account, reference) pair repeats. */
    predicate LedgerValid()
      reads this`moneyTransactions
    {
      StrictlyIncreasing(TransactionIds(moneyTransactions)) && UniqueReferences(moneyTransactions)
    }

    predicate Valid()
      reads this
    {
      SequencesValid() && LedgerValid() && UniqueSettlementIds(caseSettlements)
    }

    /** A store holding the given reference data and no ledger documents. */
    constructor (cases: seq<CaseRecord>, catalogue: seq<CatalogueEntry>, paymentRates: seq<PaymentRate>,
                 negotiations: seq<Negotiation>)
      ensures Valid()
      ensures caseDetails == cases && this.catalogue == catalogue && this.paymentRates == paymentRates
      ensures this.negotiations == negotiations
      ensures caseSettlements == [] && settlements == [] && moneyTransactions == [] && rejected == []
      ensures bonuses == [] && commissions == [] && chequeMonitoring == []
    {
      caseDetails := cases;
      caseSettlements := [];
      settlements := [];
      moneyTransactions := [];
      rejected := [];
      bonuses := [];
      commissions := [];
      this.catalogue := catalogue;
      this.paymentRates := paymentRates;
      this.negotiations := negotiations;
      chequeMonitoring := [];
    }

    /**
     * `add_to_drc_bonus`: with the latest payment entry of the settlement,
     * write at most one bonus record with the next bonus number; answer
     * whether a first-settlement bonus was written. Without such an entry
     * the step fails.
     */
    method AddToDrcBonus(t: TransactionType, commissionType: string, created: DateTime, settlementId: int, caseId: int,
                         roId: Option<int>, commissionedAmount: int, agentMonth: int, moneyTransactionId: int,
                         completion: bool)
      returns (r: Result<bool, LedgerError>)
      modifies this`bonuses
      ensures LatestMatch(moneyTransactions, PaymentsForSettlement(caseId, settlementId)).None? ==>
        r == Failure(NoPaymentEntry) && bonuses == old(bonuses)
      ensures LatestMatch(moneyTransactions, PaymentsForSettlement(caseId, settlementId)).Some? ==>
        var latest := moneyTransactions[LatestMatch(moneyTransactions, PaymentsForSettlement(caseId, settlementId)).value];
        var d := DecideBonus(t, commissionType, latest.installmentSeq, completion);
        r == Success(d.firstSettlement)
        && bonuses == old(bonuses) + BonusRecordsFor(d, NextSeq(BonusSeqs(old(bonuses))), created, caseId, roId,
                                                     commissionedAmount, agentMonth, moneyTransactionId, completion)
      ensures old(SequencesValid()) ==> SequencesValid()
    {
      var nextSeq := NextSeq(BonusSeqs(bonuses));
      var latest := LatestMatch(moneyTransactions, PaymentsForSettlement(caseId, settlementId));
      if latest.None? {
        return Failure(NoPaymentEntry);
      }
      var d := DecideBonus(t, commissionType, moneyTransactions[latest.value].installmentSeq, completion);
      var written := BonusRecordsFor(d, nextSeq, created, caseId, roId, commissionedAmount, agentMonth,
                                     moneyTransactionId, completion);
      ghost var before := bonuses;
      bonuses := bonuses + written;
      if written != [] {
        assert BonusSeqs(bonuses) == BonusSeqs(before) + [nextSeq];
        if StrictlyIncreasing(BonusSeqs(before)) {
          AppendNextKeepsIncreasing(BonusSeqs(before));
        }
      } else {
        assert bonuses == before;
      }
      r := Success(d.firstSettlement);
    }

    /**
     * `add_to_commission`: insert the commission record computed from the
     * catalogue, the rate table and the case, or fail without writing.
     */
    method AddToCommission(caseId: int, moneyTransactionId: int, commissionType: string, commissioningAmount: int,
                           drcId: Option<int>, roId: Option<int>, now: DateTime)
      returns (err: Option<LedgerError>)
      modifies this`commissions
      ensures var c := CommissionRecordFor(catalogue, paymentRates, caseDetails, old(commissions), caseId,
                                           moneyTransactionId, commissionType, commissioningAmount, drcId, roId, now);
        (c.Failure? ==> err == Some(c.error) && commissions == old(commissions))
        && (c.Success? ==> err == None && commissions == old(commissions) + [c.value])
      ensures old(SequencesValid()) ==> SequencesValid()
    {
      var c := CommissionRecordFor(catalogue, paymentRates, caseDetails, commissions, caseId,
                                   moneyTransactionId, commissionType, commissioningAmount, drcId, roId, now);
      if c.Failure? {
        return Some(c.error);
      }
      ghost var before := commissions;
      commissions := commissions + [c.value];
      assert CommissionSeqs(commissions) == CommissionSeqs(before) + [NextSeq(CommissionSeqs(before))];
      if StrictlyIncreasing(CommissionSeqs(before)) {
        AppendNextKeepsIncreasing(CommissionSeqs(before));
      }
      err := None;
    }

    /**
     * `update_db_status`: mark the settlement (both collections) Completed,
     * the case Complete, and append a "Closed" entry to the case history.
     */
    method UpdateDbStatus(caseId: int, settlementId: int, now: DateTime)
      modifies this`caseSettlements, this`settlements, this`caseDetails
      ensures caseSettlements == CompleteCaseSettlement(old(caseSettlements), settlementId)
      ensures settlements == CompleteSummary(old(settlements), settlementId)
      ensures caseDetails == CloseCase(old(caseDetails), caseId, now)
      ensures SettlementIds(caseSettlements) == SettlementIds(old(caseSettlements))
    {
      caseSettlements := CompleteCaseSettlement(caseSettlements, settlementId);
      settlements := CompleteSummary(settlements, settlementId);
      caseDetails := CloseCase(caseDetails, caseId, now);
    }

    /**
     * The bonus step followed by the commission step, as both ledger paths
     * run them; a failing bonus step skips the commission step.
     */
    method BonusAndCommissionStep(req: TransactionRequest, commissionType: string, created: DateTime,
                                  drcId: Option<int>, roId: Option<int>, bonusAmount: int, agentMonth: int,
                                  moneyTransactionId: int, completion: bool, commissioningAmount: int)
      returns (first: bool, err: Option<LedgerError>)
      modifies this`bonuses, this`commissions
      ensures var side := SideRecordsFor(moneyTransactions, old(bonuses), old(commissions), catalogue, paymentRates,
                                         caseDetails, req, commissionType, created, drcId, roId, bonusAmount,
                                         agentMonth, moneyTransactionId, completion, commissioningAmount);
        bonuses == side.bonuses && commissions == side.commissions && first == side.firstSettlement && err == side.error
      ensures old(SequencesValid()) ==> SequencesValid()
    {
      var bonus := AddToDrcBonus(req.txType, commissionType, created, req.settlementId, req.caseId, roId, bonusAmount,
                                 agentMonth, moneyTransactionId, completion);
      if bonus.Failure? {
        return false, Some(bonus.error);
      }
      err := AddToCommission(req.caseId, moneyTransactionId, commissionType, commissioningAmount, drcId, roId, created);
      first := bonus.value;
    }

    /** The collections the completion cascade may change. */
    function Cascade(): CascadeState
      reads this`caseSettlements, this`settlements, this`caseDetails, this`chequeMonitoring
    {
      CascadeState(caseSettlements, settlements, caseDetails, chequeMonitoring)
    }

    /** The end of `existing_case_transaction`: close the settlement, or start cheque monitoring, or nothing. */
    method FinishExisting(req: TransactionRequest, created: DateTime, completion: bool) returns (message: string)
      requires ValidDateTime(created)
      modifies this`caseSettlements, this`settlements, this`caseDetails, this`chequeMonitoring
      ensures Cascade() == AfterCompletion(old(Cascade()), req, created, completion)
      ensures message == CompletionMessage(completion, req.txType)
    {
      if completion && req.txType != Cheque {
        UpdateDbStatus(req.caseId, req.settlementId, created);
        return MSG_SETTLED;
      }
      if completion && req.txType == Cheque {
        chequeMonitoring := chequeMonitoring + [MonitoringRequest(req.caseId, req.accountNum, AddDaysAt(created, CHEQUE_WAIT_DAYS))];
        return MSG_CHEQUE;
      }
      return MSG_EXISTING;
    }

    /** Insert an existing-case entry, then run what its completion triggers. */
    method InsertAndFinish(e: LedgerEntry, created: DateTime, completion: bool) returns (message: string)
      requires ValidDateTime(created)
      modifies this`moneyTransactions, this`caseSettlements, this`settlements, this`caseDetails, this`chequeMonitoring
      ensures moneyTransactions == old(moneyTransactions) + [e]
      ensures Cascade() == AfterCompletion(old(Cascade()), e.request, created, completion)
      ensures message == CompletionMessage(completion, e.request.txType)
      ensures SettlementIds(caseSettlements) == SettlementIds(old(caseSettlements))
    {
      moneyTransactions := moneyTransactions + [e];
      message := FinishExisting(e.request, created, completion);
      AfterCompletionKeepsSettlementIds(old(Cascade()), e.request, created, completion);
    }

    /**
     * `existing_case_transaction`: compute the step from the previous entry,
     * run the bonus and commission steps (always: the gate literal never
     * matches), insert the entry, then close the settlement or start cheque
     * monitoring when the settled balance reaches the settlement amount.
     */
    method ExistingCaseTransaction(req: TransactionRequest, prior: LedgerEntry, plan: seq<Installment>, eligible: bool,
                                   created: DateTime, moneyTransactionId: int, settlement: CaseSettlement,
                                   commissionType: string, drcId: Option<int>, roId: Option<int>)
      returns (r: Outcome)
      requires ClockOk(created)
      modifies this`moneyTransactions, this`bonuses, this`commissions, this`caseSettlements, this`settlements,
               this`caseDetails, this`chequeMonitoring
      ensures var s := ExistingStepFor(old(moneyTransactions), req, prior, plan, eligible, settlement, commissionType);
        s.commissionType == GATE_LITERAL ==>
          bonuses == old(bonuses) && commissions == old(commissions) && r == Done(CompletionMessage(s.completion, req.txType))
          && moneyTransactions == old(moneyTransactions) + [ExistingEntry(req, created, moneyTransactionId, s, drcId, roId, false)]
          && Cascade() == AfterCompletion(old(Cascade()), req, created, s.completion)
      ensures var s := ExistingStepFor(old(moneyTransactions), req, prior, plan, eligible, settlement, commissionType);
        var side := SideRecordsFor(old(moneyTransactions), old(bonuses), old(commissions), catalogue, paymentRates,
                                   old(caseDetails), req, s.commissionType, created, drcId, roId, req.amount,
                                   s.installmentSeq, moneyTransactionId, s.completion, req.amount);
        s.commissionType != GATE_LITERAL ==>
          bonuses == side.bonuses && commissions == side.commissions
          && (side.error.Some? ==>
                r == Raised(side.error.value) && moneyTransactions == old(moneyTransactions)
                && caseSettlements == old(caseSettlements) && settlements == old(settlements)
                && caseDetails == old(caseDetails) && chequeMonitoring == old(chequeMonitoring))
          && (side.error.None? ==>
                r == Done(CompletionMessage(s.completion, req.txType))
                && moneyTransactions == old(moneyTransactions) + [ExistingEntry(req, created, moneyTransactionId, s, drcId, roId, side.firstSettlement)]
                && Cascade() == AfterCompletion(old(Cascade()), req, created, s.completion))
      ensures LedgerGrowth(old(moneyTransactions), moneyTransactions, req, moneyTransactionId)
      ensures old(SequencesValid()) ==> SequencesValid()
      ensures SettlementIds(caseSettlements) == SettlementIds(old(caseSettlements))
    {
      var s := ExistingStepFor(moneyTransactions, req, prior, plan, eligible, settlement, commissionType);
      var firstSettlement := false;
      if s.commissionType != GATE_LITERAL {
        var err;
        firstSettlement, err := BonusAndCommissionStep(req, s.commissionType, created, drcId, roId, req.amount,
                                                       s.installmentSeq, moneyTransactionId, s.completion, req.amount);
        if err.Some? {
          return Raised(err.value);
        }
      }
      var message := InsertAndFinish(ExistingEntry(req, created, moneyTransactionId, s, drcId, roId, firstSettlement), created, s.completion);
      r := Done(message);
    }

    /**
     * `new_case_transaction`: without a negotiation for the DRC nothing is
     * written; otherwise the category is decided against the negotiation
     * time, the entry is inserted, completion is measured against the
     * initial amount and the bonus and commission steps run against the
     * ledger that already holds the new entry.
     */
    method NewCaseTransaction(req: TransactionRequest, created: DateTime, eligible: bool, settlement: CaseSettlement,
                              plan: seq<Installment>, moneyTransactionId: int, commissionType: string,
                              drcId: Option<int>, roId: Option<int>)
      returns (r: Outcome)
      modifies this`moneyTransactions, this`bonuses, this`commissions
      ensures FirstWhere(negotiations, NegotiationDrcOf, drcId).None? ==>
        r == Done(MSG_NO_NEGOTIATION) && moneyTransactions == old(moneyTransactions)
        && bonuses == old(bonuses) && commissions == old(commissions)
      ensures FirstWhere(negotiations, NegotiationDrcOf, drcId).Some? ==>
        var n := negotiations[FirstWhere(negotiations, NegotiationDrcOf, drcId).value];
        var d := NewCaseCategory(req.txDate, n.createdDtm, eligible, InitialAmount(settlement), req.amount, commissionType);
        d.TermsUnavailable? ==>
          r == Raised(SettlementTermsMissing) && moneyTransactions == old(moneyTransactions)
          && bonuses == old(bonuses) && commissions == old(commissions)
      ensures FirstWhere(negotiations, NegotiationDrcOf, drcId).Some? ==>
        var n := negotiations[FirstWhere(negotiations, NegotiationDrcOf, drcId).value];
        var d := NewCaseCategory(req.txDate, n.createdDtm, eligible, InitialAmount(settlement), req.amount, commissionType);
        var seqNo := if FirstCovering(plan, req.amount).Some? then plan[FirstCovering(plan, req.amount).value].installmentSeq else 0;
        d.Decided? ==>
          moneyTransactions == old(moneyTransactions)
                               + [NewCaseEntry(req, created, moneyTransactionId, seqNo, d.commissionType, d.effectiveAmount, drcId, roId)]
          && (InitialAmount(settlement).None? ==>
                r == Raised(SettlementTermsMissing) && bonuses == old(bonuses) && commissions == old(commissions))
          && (InitialAmount(settlement).Some? && d.commissionType != GATE_LITERAL ==>
                var side := SideRecordsFor(moneyTransactions, old(bonuses), old(commissions), catalogue, paymentRates,
                                           caseDetails, req, d.commissionType, created, drcId, roId, d.effectiveAmount, 1,
                                           moneyTransactionId, req.amount >= InitialAmount(settlement).value, d.effectiveAmount);
                bonuses == side.bonuses && commissions == side.commissions
                && r == (if side.error.Some? then Raised(side.error.value) else Done(MSG_NEW_CASE)))
      ensures LedgerGrowth(old(moneyTransactions), moneyTransactions, req, moneyTransactionId)
      ensures old(SequencesValid()) ==> SequencesValid()
    {
      var found := FirstWhere(negotiations, NegotiationDrcOf, drcId);
      if found.None? {
        return Done(MSG_NO_NEGOTIATION);
      }
      var initial := InitialAmount(settlement);
      var d := NewCaseCategory(req.txDate, negotiations[found.value].createdDtm, eligible, initial, req.amount, commissionType);
      if d.TermsUnavailable? {
        return Raised(SettlementTermsMissing);
      }
      var installmentSeq := 0;
      var k := FindCoveringInstallment(plan, req.amount);
      if k.Some? {
        installmentSeq := plan[k.value].installmentSeq;
      }
      assert k == FirstCovering(plan, req.amount);
      moneyTransactions := moneyTransactions + [NewCaseEntry(req, created, moneyTransactionId, installmentSeq,
                                                            d.commissionType, d.effectiveAmount, drcId, roId)];
      if initial.None? {
        return Raised(SettlementTermsMissing);
      }
      var completion := req.amount >= initial.value;
      if d.commissionType != GATE_LITERAL {
        var first, err := BonusAndCommissionStep(req, d.commissionType, created, drcId, roId, d.effectiveAmount, 1,
                                                 moneyTransactionId, completion, d.effectiveAmount);
        if err.Some? {
          return Raised(err.value);
        }
      }
      return Done(MSG_NEW_CASE);
    }

    /** Send an admitted request down the existing-case path (it has a prior entry) or the new-case path. */
    method RunLedgerStep(req: TransactionRequest, created: DateTime, a: Admission) returns (outcome: Outcome)
      requires a.Admit? && ClockOk(created)
      modifies this`moneyTransactions, this`bonuses, this`commissions, this`caseSettlements, this`settlements,
               this`caseDetails, this`chequeMonitoring
      ensures LedgerGrowth(old(moneyTransactions), moneyTransactions, req, a.moneyTransactionId)
      ensures old(SequencesValid()) ==> SequencesValid()
      ensures SettlementIds(caseSettlements) == SettlementIds(old(caseSettlements))
      ensures a.prior.None? ==>
        caseSettlements == old(caseSettlements) && settlements == old(settlements)
        && caseDetails == old(caseDetails) && chequeMonitoring == old(chequeMonitoring)
    {
      if a.prior.Some? {
        outcome := ExistingCaseTransaction(req, a.prior.value, a.plan, a.eligible, created, a.moneyTransactionId,
                                           a.settlement, NO_COMMISSION, a.drcId, a.roId);
      } else {
        outcome := NewCaseTransaction(req, created, a.eligible, a.settlement, a.plan, a.moneyTransactionId,
                                      NO_COMMISSION, a.drcId, a.roId);
      }
    }

    /** Run an admitted request and answer 200 with the step's message, or 500 when the step raised. */
    method Dispatch(req: TransactionRequest, created: DateTime, a: Admission) returns (r: Response)
      requires a.Admit? && ClockOk(created) && Valid()
      requires a.moneyTransactionId == NextSeq(TransactionIds(moneyTransactions))
      requires !HasReference(moneyTransactions, req.accountNum, req.ref)
      modifies this`moneyTransactions, this`bonuses, this`commissions, this`caseSettlements, this`settlements,
               this`caseDetails, this`chequeMonitoring
      ensures Valid()
      ensures LedgerGrowth(old(moneyTransactions), moneyTransactions, req, a.moneyTransactionId)
      ensures a.prior.None? ==>
        caseSettlements == old(caseSettlements) && settlements == old(settlements)
        && caseDetails == old(caseDetails) && chequeMonitoring == old(chequeMonitoring)
      ensures r.Ok? || r == ServerError
    {
      var outcome := RunLedgerStep(req, created, a);
      LedgerGrowthKeepsValid(old(moneyTransactions), moneyTransactions, req, a.moneyTransactionId);
      r := if outcome.Done? then Ok(outcome.message) else ServerError;
    }

    /**
     * `process_money_transaction`: reject (with a rejected-collection insert),
     * fail, or admit and dispatch, as NewerGateAdmission decides.
     */
    method ProcessMoneyTransaction(req: TransactionRequest, created: DateTime) returns (r: Response)
      requires Valid() && ClockOk(created)
      modifies this`rejected, this`moneyTransactions, this`bonuses, this`commissions, this`caseSettlements,
               this`settlements, this`caseDetails, this`chequeMonitoring
      ensures Valid()
      ensures var a := NewerGateAdmission(old(caseDetails), old(moneyTransactions), old(caseSettlements), req);
        (a.Reject? ==> r == BadRequest(a.detail) && rejected == old(rejected) + [RejectedTransaction(req, created)]
                       && moneyTransactions == old(moneyTransactions) && bonuses == old(bonuses)
                       && commissions == old(commissions) && Cascade() == old(Cascade()))
        && (a.Fault? ==> r == ServerError && rejected == old(rejected) && moneyTransactions == old(moneyTransactions)
                         && bonuses == old(bonuses) && commissions == old(commissions) && Cascade() == old(Cascade()))
        && (a.Admit? ==> rejected == old(rejected) && (r.Ok? || r == ServerError)
                         && LedgerGrowth(old(moneyTransactions), moneyTransactions, req, a.moneyTransactionId))
    {
      var a := NewerGateAdmission(caseDetails, moneyTransactions, caseSettlements, req);
      AdmittedRequestsAreFresh(caseDetails, moneyTransactions, caseSettlements, req);
      match a {
        case Reject(detail) =>
          rejected := rejected + [RejectedTransaction(req, created)];
          r := BadRequest(detail);
        case Fault =>
          r := ServerError;
        case Admit(_, _, _, _, _, _, _) =>
          r := Dispatch(req, created, a);
      }
    }

    /**
     * `obtain_money_transaction`, the earlier gate: the same shape with
     * OlderGateAdmission, and the request's own `drc_id`/`ro_id` passed on.
     */
    method ObtainMoneyTransaction(req: TransactionRequest, created: DateTime) returns (r: Response)
      requires Valid() && ClockOk(created)
      modifies this`rejected, this`moneyTransactions, this`bonuses, this`commissions, this`caseSettlements,
               this`settlements, this`caseDetails, this`chequeMonitoring
      ensures Valid()
      ensures var a := OlderGateAdmission(old(caseDetails), old(moneyTransactions), old(caseSettlements), req);
        (a.Reject? ==> r == BadRequest(a.detail) && rejected == old(rejected) + [RejectedTransaction(req, created)]
                       && moneyTransactions == old(moneyTransactions) && bonuses == old(bonuses)
                       && commissions == old(commissions) && Cascade() == old(Cascade()))
        && (a.Fault? ==> r == ServerError && rejected == old(rejected) && moneyTransactions == old(moneyTransactions)
                         && bonuses == old(bonuses) && commissions == old(commissions) && Cascade() == old(Cascade()))
        && (a.Admit? ==> rejected == old(rejected) && (r.Ok? || r == ServerError)
                         && LedgerGrowth(old(moneyTransactions), moneyTransactions, req, a.moneyTransactionId))
    {
      var a := OlderGateAdmission(caseDetails, moneyTransactions, caseSettlements, req);
      AdmittedRequestsAreFresh(caseDetails, moneyTransactions, caseSettlements, req);
      match a {
        case Reject(detail) =>
          rejected := rejected + [RejectedTransaction(req, created)];
          r := BadRequest(detail);
        case Fault =>
          r := ServerError;
        case Admit(_, _, _, _, _, _, _) =>
          r := Dispatch(req, created, a);
      }
    }

    /**
     * `create_settlement_plan` (id-allocating revision): an unknown case is
     * a conflict returned, not raised, so it goes out as a 200 answer whose
     * body holds 409 and the detail, and nothing is written; otherwise the document gets the next settlement id, an
     * expiry twelve months after creation and its first monitoring time, and
     * a summary with the same id follows it.
     */
    method CreateSettlementPlan(doc: CaseSettlement) returns (r: Response)
      requires ValidDateTime(doc.createdOn)
      modifies this`caseSettlements, this`settlements
      ensures FindCase(caseDetails, doc.caseId).None? ==>
        r == ReturnedException(CONFLICT, UnknownCaseDetail(doc.caseId)) && StatusLine(r) == 200
        && caseSettlements == old(caseSettlements) && settlements == old(settlements)
      ensures FindCase(caseDetails, doc.caseId).Some? ==>
        var id := NextSeq(SettlementIds(old(caseSettlements)));
        r == Ok(MSG_SETTLEMENT_CREATED)
        && caseSettlements == old(caseSettlements) + [doc.(settlementId := id, casePhase := Absent,
                                                           expireDate := Some(AddMonthsAt(doc.createdOn, 12)),
                                                           lastMonitoringDtm := Some(doc.createdOn))]
        && settlements == old(settlements) + [SettlementSummary(id, doc.createdOn, doc.settlementStatus, doc.drcId, doc.roId)]
      ensures old(UniqueSettlementIds(caseSettlements)) ==> UniqueSettlementIds(caseSettlements)
    {
      if FindCase(caseDetails, doc.caseId).None? {
        return ReturnedException(CONFLICT, UnknownCaseDetail(doc.caseId));
      }
      var id := NextSeq(SettlementIds(caseSettlements));
      var stored := doc.(settlementId := id, casePhase := Absent,
                         expireDate := Some(AddMonthsAt(doc.createdOn, 12)), lastMonitoringDtm := Some(doc.createdOn));
      ghost var before := caseSettlements;
      caseSettlements := caseSettlements + [stored];
      settlements := settlements + [SettlementSummary(id, doc.createdOn, doc.settlementStatus, doc.drcId, doc.roId)];
      forall i | 0 <= i < |before| ensures before[i].settlementId != id {
        assert SettlementIds(before)[i] in SettlementIds(before);
      }
      r := Ok(MSG_SETTLEMENT_CREATED);
    }

    /**
     * `create_settlement_plan` (duplicate-checking revision): an id already
     * stored is a conflict returned as the body of a 200 answer, with no
     * write; otherwise the document and its summary are stored as given.
     */
    method CreateSettlementPlanChecked(doc: CaseSettlement) returns (r: Response)
      modifies this`caseSettlements, this`settlements
      ensures FindSettlement(old(caseSettlements), doc.settlementId).Some? ==>
        r == ReturnedException(CONFLICT, TakenSettlementDetail(doc.settlementId)) && StatusLine(r) == 200
        && caseSettlements == old(caseSettlements) && settlements == old(settlements)
      ensures FindSettlement(old(caseSettlements), doc.settlementId).None? ==>
        r == Ok(MSG_SETTLEMENT_CREATED)
        && caseSettlements == old(caseSettlements) + [doc.(casePhase := Absent)]
        && settlements == old(settlements) + [SettlementSummary(doc.settlementId, doc.createdOn, doc.settlementStatus, doc.drcId, doc.roId)]
      ensures old(UniqueSettlementIds(caseSettlements)) ==> UniqueSettlementIds(caseSettlements)
    {
      if FindSettlement(caseSettlements, doc.settlementId).Some? {
        return ReturnedException(CONFLICT, TakenSettlementDetail(doc.settlementId));
      }
      caseSettlements := caseSettlements + [doc.(casePhase := Absent)];
      settlements := settlements + [SettlementSummary(doc.settlementId, doc.createdOn, doc.settlementStatus, doc.drcId, doc.roId)];
      r := Ok(MSG_SETTLEMENT_CREATED);
    }
  }
}
