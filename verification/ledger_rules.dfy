/**
 * The decisions of the money-transaction ledger that depend only on
 * values: which instalment a payment reaches, its commission category, the
 * commissioned amount, the bonus and commission records to write.
 */
module LedgerRules {
  import opened Wrappers
  import opened Calendar
  import opened Balance
  import opened SettlementPlan
  import opened LedgerDocs

  const COMMISSIONED := "Commissioned"
  const UNRESOLVED := "Unresolved Commission"
  const NO_COMMISSION := "No Commission"
  const PENDING := "Pending Commission"
  /** The literal the bonus and commission gate compares with; note the lower-case "c". */
  const GATE_LITERAL := "No commission"

  /** The phases in which a transaction can earn commission. */
  predicate CommissionPhase(p: string)
  {
    p == "Negotiation" || p == "Mediation Board"
  }

  /** The same test on an optional value, as `x not in [...]` treats None. */
  predicate InCommissionPhase(p: Option<string>)
  {
    p.Some? && CommissionPhase(p.value)
  }

  // ---------------------------------------------------------------------
  // Instalment matching

  /** Index of the first plan entry (stored order) whose running total is at least `x`. */
  function FirstCovering(plan: seq<Installment>, x: int): (r: Option<nat>)
    ensures r.Some? ==> r.value < |plan| && x <= plan[r.value].accumulated
    ensures r.Some? ==> forall j :: 0 <= j < r.value ==> plan[j].accumulated < x
    ensures r.None? <==> forall j :: 0 <= j < |plan| ==> plan[j].accumulated < x
  {
    if plan == [] then None
    else if x <= plan[0].accumulated then Some(0)
    else
      match FirstCovering(plan[1..], x)
      case None => None
      case Some(k) => Some(k + 1)
  }

  /** The `for plan in ...: if x <= accumulated: ...; break` loop of both ledger paths. */
  method FindCoveringInstallment(plan: seq<Installment>, x: int) returns (k: Option<nat>)
    ensures k.Some? ==> k.value < |plan| && x <= plan[k.value].accumulated
    ensures k.Some? ==> forall j :: 0 <= j < k.value ==> plan[j].accumulated < x
    ensures k.None? ==> forall j :: 0 <= j < |plan| ==> plan[j].accumulated < x
  {
    k := None;
    var i := 0;
    while i < |plan|
      invariant 0 <= i <= |plan|
      invariant forall j :: 0 <= j < i ==> plan[j].accumulated < x
    {
      if x <= plan[i].accumulated {
        k := Some(i);
        break;
      }
      i := i + 1;
    }
  }

  /**
   * Commission category once a covering instalment is found: Commissioned
   * when eligible and either the first instalment is met exactly or a later
   * instalment is reached; otherwise Unresolved (eligible) or No Commission.
   */
  function CategoryOnMatch(balance: int, entry: Installment, eligible: bool): (c: string)
    ensures c == COMMISSIONED <==>
      eligible && ((entry.installmentSeq == 1 && balance == entry.accumulated) || entry.installmentSeq > 1)
    ensures c == UNRESOLVED <==>
      eligible && !((entry.installmentSeq == 1 && balance == entry.accumulated) || entry.installmentSeq > 1)
    ensures c == NO_COMMISSION <==> !eligible
  {
    if balance == entry.accumulated && entry.installmentSeq == 1 && eligible then COMMISSIONED
    else if entry.installmentSeq > 1 && eligible then COMMISSIONED
    else if eligible then UNRESOLVED else NO_COMMISSION
  }

  datatype InstallmentMatch = InstallmentMatch(installmentSeq: int, commissionType: string)

  /**
   * Existing-case matching: the seq of the first covering instalment and its
   * category, or seq 0 and the incoming category when no instalment covers
   * the balance.
   */
  function ExistingCaseMatch(plan: seq<Installment>, balance: int, eligible: bool, incoming: string): (m: InstallmentMatch)
    ensures FirstCovering(plan, balance).None? ==> m == InstallmentMatch(0, incoming)
    ensures FirstCovering(plan, balance).Some? ==>
      var e := plan[FirstCovering(plan, balance).value];
      m.installmentSeq == e.installmentSeq && m.commissionType == CategoryOnMatch(balance, e, eligible)
  {
    match FirstCovering(plan, balance)
    case None => InstallmentMatch(0, incoming)
    case Some(i) => InstallmentMatch(plan[i].installmentSeq, CategoryOnMatch(balance, plan[i], eligible))
  }

  /** On a plan built by the generator, the matched seq is the 1-based position of the covering instalment. */
  lemma MatchedSeqIsPosition(plan: seq<Installment>, balance: int, eligible: bool, incoming: string)
    requires NumberedFromOne(plan)
    ensures var m := ExistingCaseMatch(plan, balance, eligible, incoming);
      FirstCovering(plan, balance).Some? ==> m.installmentSeq == FirstCovering(plan, balance).value + 1
  {
  }

  /** With running totals that never fall, a larger balance never matches an earlier instalment. */
  lemma FirstCoveringMonotone(plan: seq<Installment>, x: int, y: int)
    requires x <= y
    requires FirstCovering(plan, y).Some?
    ensures FirstCovering(plan, x).Some? && FirstCovering(plan, x).value <= FirstCovering(plan, y).value
  {
  }

  // ---------------------------------------------------------------------
  // Existing-case amounts

  /** Bill and Return Cheque store a settled balance of 0. */
  function StoredBalance(balance: int, t: TransactionType): (r: int)
    ensures IsDebitType(t) ==> r == 0
    ensures !IsDebitType(t) ==> r == balance
  {
    if IsDebitType(t) then 0 else balance
  }

  /**
   * `commissioned_amount` before the Bill / Return Cheque override: the
   * growth of the settled balance since the previous payment entry.
   */
  function CommissionedAmount(stored: int, prior: LedgerEntry, latestPayment: Option<LedgerEntry>, eligible: bool): (r: int)
    ensures !eligible ==> r == 0
    ensures eligible && !IsDebitType(prior.request.txType) ==> r == stored - prior.cumulativeSettledBalance
    ensures eligible && IsDebitType(prior.request.txType) && latestPayment.Some? ==>
      r == stored - latestPayment.value.cumulativeSettledBalance
    ensures eligible && IsDebitType(prior.request.txType) && latestPayment.None? ==> r == stored
  {
    if !IsDebitType(prior.request.txType) && eligible then stored - prior.cumulativeSettledBalance
    else if IsDebitType(prior.request.txType) && eligible then
      (if latestPayment.Some? then stored - latestPayment.value.cumulativeSettledBalance else stored)
    else 0
  }

  /**
   * When the previous entry is itself the latest payment entry, both
   * branches of CommissionedAmount measure against the same reference.
   */
  lemma CommissionedAmountAgainstLatestPayment(stored: int, prior: LedgerEntry, eligible: bool)
    requires eligible && !IsDebitType(prior.request.txType)
    ensures CommissionedAmount(stored, prior, Some(prior), eligible) == stored - prior.cumulativeSettledBalance
  {
  }

  // ---------------------------------------------------------------------
  // New-case category

  datatype NewCaseDecision =
    | Decided(commissionType: string, effectiveAmount: int)
    | TermsUnavailable   // settlement_plan_received missing or None

  /** `settlement_plan_received[0]`, when the settlement carries terms. */
  function InitialAmount(s: CaseSettlement): Option<int>
  {
    if s.planReceived.Present? then Some(s.planReceived.value.initial) else None
  }

  /**
   * New case, negotiation known: Pending before the negotiation, and after it
   * Unresolved (with the amount as effective amount) when the amount is below
   * the initial amount, else Commissioned. Equal times or an ineligible
   * transaction keep the incoming category with effective amount 0.
   */
  function NewCaseCategory(txDate: DateTime, negotiationDtm: DateTime, eligible: bool,
                           initial: Option<int>, amount: int, incoming: string): (d: NewCaseDecision)
    ensures eligible && Before(txDate, negotiationDtm) ==> d == Decided(PENDING, 0)
    ensures eligible && Before(negotiationDtm, txDate) && initial.Some? ==>
      d == if initial.value > amount then Decided(UNRESOLVED, amount) else Decided(COMMISSIONED, 0)
    ensures eligible && Before(negotiationDtm, txDate) && initial.None? ==> d == TermsUnavailable
    ensures !eligible || txDate == negotiationDtm ==> d == Decided(incoming, 0)
  {
    if Before(txDate, negotiationDtm) && eligible then Decided(PENDING, 0)
    else if Before(negotiationDtm, txDate) && eligible then
      match initial
      case None => TermsUnavailable
      case Some(i) => if i > amount then Decided(UNRESOLVED, amount) else Decided(COMMISSIONED, 0)
    else Decided(incoming, 0)
  }

  /** The categories either path can produce never equal the gate's literal, so the gate always opens. */
  lemma GateAlwaysOpen(plan: seq<Installment>, balance: int, eligible: bool,
                       txDate: DateTime, negotiationDtm: DateTime, initial: Option<int>, amount: int)
    ensures ExistingCaseMatch(plan, balance, eligible, NO_COMMISSION).commissionType != GATE_LITERAL
    ensures var d := NewCaseCategory(txDate, negotiationDtm, eligible, initial, amount, NO_COMMISSION);
      d.Decided? ==> d.commissionType != GATE_LITERAL
  {
  }

  // ---------------------------------------------------------------------
  // Bonus decision

  /** What `add_to_drc_bonus` writes, once the latest payment entry is known. */
  datatype BonusDecision = BonusDecision(positive: bool, negative: bool, firstSettlement: bool)

  function DecideBonus(t: TransactionType, commissionType: string, latestPaymentSeq: int, completion: bool): (d: BonusDecision)
    ensures d.positive <==> IsPlusType(t) && ((latestPaymentSeq == 1 && commissionType == COMMISSIONED) || completion)
    ensures d.negative <==> t == ReturnCheque
    ensures d.firstSettlement <==> d.positive && !completion
    ensures !(d.positive && d.negative)
    ensures t == Bill ==> !d.positive && !d.negative
  {
    var positive := ((latestPaymentSeq == 1 && commissionType == COMMISSIONED) || completion) && IsPlusType(t);
    BonusDecision(positive, t == ReturnCheque, positive && !completion)
  }

  /** The bonus document written for a decision, with the next bonus sequence number. */
  function BonusRecordsFor(d: BonusDecision, bonusSeq: int, createdDtm: DateTime, caseId: int, roId: Option<int>,
                           commissionedAmount: int, agentMonth: int, moneyTransactionId: int, completion: bool): (r: seq<BonusRecord>)
    ensures |r| == (if d.positive || d.negative then 1 else 0)
    ensures |r| == 1 ==>
      r[0].bonusSeq == bonusSeq && r[0].bonusStatus == d.positive
      && r[0].commissioningAmount == commissionedAmount
      && r[0].bonusType == (if completion then "completion rate" else "success rate")
  {
    var rec := BonusRecord(bonusSeq, createdDtm, caseId, roId, commissionedAmount, agentMonth,
                           if !completion then "success rate" else "completion rate",
                           moneyTransactionId, true, createdDtm);
    if d.positive then [rec]
    else if d.negative then [rec.(bonusStatus := false)]
    else []
  }

  // ---------------------------------------------------------------------
  // Commission

  /**
   * `find_one({field: want}, sort=[(key, DESCENDING)])`: the position of the
   * matching document with the highest key; among equal keys the one stored first.
   */
  function ArgMaxWhere<T, K(==)>(s: seq<T>, field: T -> K, want: K, key: T -> int): (r: Option<nat>)
    ensures r.None? <==> forall j :: 0 <= j < |s| ==> field(s[j]) != want
    ensures r.Some? ==> r.value < |s| && field(s[r.value]) == want
    ensures r.Some? ==> forall j :: 0 <= j < |s| && field(s[j]) == want ==> key(s[j]) <= key(s[r.value])
  {
    if s == [] then None
    else
      var n := |s| - 1;
      var earlier := ArgMaxWhere(s[..n], field, want, key);
      assert forall j :: 0 <= j < n ==> s[..n][j] == s[j];
      if field(s[n]) == want && (earlier.None? || key(s[earlier.value]) < key(s[n])) then Some(n)
      else earlier
  }

  function ActionOf(c: CatalogueEntry): string { c.commissionAction }
  function CaterlogIdOf(c: CatalogueEntry): int { c.caterlogId }
  function RateCaterlogIdOf(r: PaymentRate): int { r.caterlogId }
  function RateIdOf(r: PaymentRate): int { r.commissionPaymentRateId }

  /** The rate for a case's commission rule; a rule with no rate (or a None rule) earns 0. */
  function RateFor(rates: map<string, real>, rule: Option<string>): (r: real)
    ensures rule.Some? && rule.value in rates ==> r == rates[rule.value]
    ensures rule.None? || rule.value !in rates ==> r == 0.0
  {
    if rule.Some? && rule.value in rates then rates[rule.value] else 0.0
  }

  /** `commissioning_amount * commission_rate`. */
  function CommissionOn(amount: int, rate: real): real
  {
    amount as real * rate
  }

  /** Errors the ledger steps raise; each ends the request with a server error. */
  datatype LedgerError =
    | NoPaymentEntry         // add_to_drc_bonus subscripts a missing latest payment entry
    | NoCatalogueEntry       // no "payment" catalogue entry
    | NoRateEntry            // no rate entry for the catalogue id (subscript of None)
    | NoCommissionRate       // the rate entry has no `commission_rate`
    | CaseNotFound           // add_to_commission subscripts a missing case
    | CommissionRuleMissing  // the case has no `drc_commision_rule` key
    | SettlementTermsMissing // `settlement_plan_received` missing or None

  /**
   * The document `add_to_commission` inserts, or the error it raises: the
   * latest "payment" catalogue entry, its latest rate entry, the case's
   * commission rule, amount times rate, and the next commission number.
   */
  function CommissionRecordFor(catalogue: seq<CatalogueEntry>, rates: seq<PaymentRate>, cases: seq<CaseRecord>,
                               commissions: seq<CommissionRecord>, caseId: int, moneyTransactionId: int,
                               commissionType: string, commissioningAmount: int,
                               drcId: Option<int>, roId: Option<int>, now: DateTime): (r: Result<CommissionRecord, LedgerError>)
    ensures ArgMaxWhere(catalogue, ActionOf, "payment", CaterlogIdOf).None? ==> r == Failure(NoCatalogueEntry)
    ensures r.Success? ==>
      var c := ArgMaxWhere(catalogue, ActionOf, "payment", CaterlogIdOf);
      c.Some? &&
      var k := ArgMaxWhere(rates, RateCaterlogIdOf, catalogue[c.value].caterlogId, RateIdOf);
      k.Some? && rates[k.value].commissionRate.Some? &&
      var ci := FirstWhere(cases, CaseIdOf, caseId);
      ci.Some? && !cases[ci.value].drcCommisionRule.Absent? &&
      var rule := if cases[ci.value].drcCommisionRule.Present? then Some(cases[ci.value].drcCommisionRule.value) else None;
      r.value.commissionSeq == NextSeq(CommissionSeqs(commissions))
      && r.value.caterlogId == catalogue[c.value].caterlogId
      && r.value.commissionPaymentRateId == rates[k.value].commissionPaymentRateId
      && r.value.commissionAmount == CommissionOn(commissioningAmount, RateFor(rates[k.value].commissionRate.value, rule))
      && r.value.commissionRef == rule
      && r.value.transactionRef == moneyTransactionId && r.value.caseId == caseId
      && r.value.commissionType == commissionType && r.value.commissionStatus == "Pending"
      && r.value.commissionAction == "payment"
    ensures r.Failure? ==> r.error in {NoCatalogueEntry, NoRateEntry, NoCommissionRate, CaseNotFound, CommissionRuleMissing}
  {
    match ArgMaxWhere(catalogue, ActionOf, "payment", CaterlogIdOf)
    case None => Failure(NoCatalogueEntry)
    case Some(c) =>
      var caterlogId := catalogue[c].caterlogId;
      match ArgMaxWhere(rates, RateCaterlogIdOf, caterlogId, RateIdOf)
      case None => Failure(NoRateEntry)
      case Some(k) =>
        match rates[k].commissionRate
        case None => Failure(NoCommissionRate)
        case Some(table) =>
          match FirstWhere(cases, CaseIdOf, caseId)
          case None => Failure(CaseNotFound)
          case Some(ci) =>
            if cases[ci].drcCommisionRule.Absent? then Failure(CommissionRuleMissing)
            else
              var rule := if cases[ci].drcCommisionRule.Present? then Some(cases[ci].drcCommisionRule.value) else None;
              Success(CommissionRecord(NextSeq(CommissionSeqs(commissions)), now, "payment", caterlogId,
                                       rates[k].commissionPaymentRateId, rule, moneyTransactionId, caseId, drcId, roId,
                                       CommissionOn(commissioningAmount, RateFor(table, rule)), commissionType, "Pending", now))
  }

  /** A case without a commission rule, or with a rule the rate table lacks, earns a commission of zero. */
  lemma CommissionWithoutRateIsZero(catalogue: seq<CatalogueEntry>, rates: seq<PaymentRate>, cases: seq<CaseRecord>,
                                    commissions: seq<CommissionRecord>, caseId: int, moneyTransactionId: int,
                                    commissionType: string, commissioningAmount: int,
                                    drcId: Option<int>, roId: Option<int>, now: DateTime)
    ensures var r := CommissionRecordFor(catalogue, rates, cases, commissions, caseId, moneyTransactionId,
                                         commissionType, commissioningAmount, drcId, roId, now);
      r.Success? && r.value.commissionRef.None? ==> r.value.commissionAmount == 0.0
  {
  }

  // ---------------------------------------------------------------------
  // Existing-case step

  /** Everything `existing_case_transaction` computes before it calls the bonus and commission steps. */
  datatype ExistingStep = ExistingStep(
    credit: int, debt: int, balance: int,
    installmentSeq: int, commissionType: string,
    stored: int, commissioned: int, completion: bool)

  function ExistingCaseStep(prior: LedgerEntry, latestPayment: Option<LedgerEntry>, plan: seq<Installment>,
                            eligible: bool, t: TransactionType, amount: int, settlementAmount: int,
                            incoming: string): ExistingStep
  {
    var figures := RunningFigures(Some(Running(prior.runningCredit, prior.runningDebt)), t, amount);
    var m := ExistingCaseMatch(plan, figures.balance, eligible, incoming);
    var stored := StoredBalance(figures.balance, t);
    ExistingStep(figures.credit, figures.debt, figures.balance, m.installmentSeq, m.commissionType,
                 stored, CommissionedAmount(stored, prior, latestPayment, eligible), stored >= settlementAmount)
  }

  /**
   * The settled balance is the previous entry's credit minus debit moved by
   * the absolute amount; a Bill or Return Cheque stores 0 and so never
   * completes a settlement whose amount is positive.
   */
  lemma ExistingStepBalance(prior: LedgerEntry, latestPayment: Option<LedgerEntry>, plan: seq<Installment>,
                            eligible: bool, t: TransactionType, amount: int, settlementAmount: int, incoming: string)
    ensures var s := ExistingCaseStep(prior, latestPayment, plan, eligible, t, amount, settlementAmount, incoming);
      var before := prior.runningCredit - prior.runningDebt;
      s.balance == (if IsDebitType(t) then before - Abs(amount) else before + Abs(amount))
      && (IsDebitType(t) ==> s.stored == 0 && (settlementAmount > 0 ==> !s.completion))
      && (!IsDebitType(t) ==> s.stored == s.balance)
      && (incoming != GATE_LITERAL ==> s.commissionType != GATE_LITERAL)
  {
  }
}
