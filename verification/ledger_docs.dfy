/**
 * Documents of the money-transaction ledger and the store queries the
 * ledger code relies on: "the latest document by created_dtm" and "the
 * highest sequence number plus one".
 */
module LedgerDocs {
  import opened Wrappers
  import opened Calendar
  import opened Balance
  import opened SettlementPlan

  /** An entry of a case's `case_status` history. */
  datatype CaseStatusEntry = CaseStatusEntry(
    caseStatus: string,
    statusReason: Option<string>,
    createdDtm: DateTime,
    createdBy: string,
    notifiedDtm: DateTime,
    expireDtm: Option<string>)

  /** A `Case_details` document, reduced to the fields the ledger reads or writes. */
  datatype CaseRecord = CaseRecord(
    caseId: int,
    currentCasePhase: Slot<string>,
    caseCurrentStatus: string,
    drcCommisionRule: Slot<string>,
    caseStatus: seq<CaseStatusEntry>)

  /**
   * A `Case_Settlements` document. `casePhase` is the `case_phase` key the
   * newer gate reads; the creation routes write `settlement_phase` only.
   */
  datatype CaseSettlement = CaseSettlement(
    settlementId: int,
    caseId: int,
    createdOn: DateTime,
    settlementPhase: string,
    settlementStatus: string,
    casePhase: Slot<string>,
    settlementType: string,
    settlementAmount: int,
    drcId: Option<int>,
    roId: Option<int>,
    planReceived: Slot<PlanReceived>,
    settlementPlan: Slot<seq<Installment>>,
    expireDate: Option<DateTime>,
    lastMonitoringDtm: Option<DateTime>)

  /** A `Settlements` summary document. */
  datatype SettlementSummary = SettlementSummary(
    settlementId: int,
    settlementCreatedDtm: DateTime,
    status: string,
    drcId: Option<int>,
    roId: Option<int>)

  /** The fields of an incoming money transaction the ledger code reads. */
  datatype TransactionRequest = TransactionRequest(
    caseId: int,
    accountNum: string,
    settlementId: int,
    txType: TransactionType,
    ref: int,
    amount: int,
    txDate: DateTime,
    casePhase: Option<string>,
    drcId: Option<int>,
    roId: Option<int>,
    commissioningAmount: Option<int>,
    bonus1: Option<int>,
    bonus2: Option<int>)

  /** A `Money_Transactions` document: the request fields plus what the ledger computes. */
  datatype LedgerEntry = LedgerEntry(
    request: TransactionRequest,
    createdDtm: DateTime,
    moneyTransactionId: int,
    installmentSeq: int,
    commissionType: string,
    runningCredit: int,
    runningDebt: int,
    cumulativeSettledBalance: int,
    commissionedAmount: Option<int>,
    commissioningAmount: Option<int>,
    drcId: Option<int>,
    roId: Option<int>,
    bonus1: Option<int>,
    bonus2: Option<int>)

  /** A `Money_Transactions_Rejected` document: the raw request and its arrival time. */
  datatype RejectedTransaction = RejectedTransaction(request: TransactionRequest, createdDtm: DateTime)

  /** A DRC bonus document. */
  datatype BonusRecord = BonusRecord(
    bonusSeq: int,
    createdDtm: DateTime,
    caseId: int,
    billingCenter: Option<int>,
    commissioningAmount: int,
    agentMonth: int,
    bonusType: string,
    moneyTransactionId: int,
    bonusStatus: bool,
    bonusStatusOn: DateTime)

  /** A `Commission` document. */
  datatype CommissionRecord = CommissionRecord(
    commissionSeq: int,
    createdDtm: DateTime,
    commissionAction: string,
    caterlogId: int,
    commissionPaymentRateId: int,
    commissionRef: Option<string>,
    transactionRef: int,
    caseId: int,
    drcId: Option<int>,
    roId: Option<int>,
    commissionAmount: real,
    commissionType: string,
    commissionStatus: string,
    commissionStatusOn: DateTime)

  /** A `Commission_Caterlogue` document. */
  datatype CatalogueEntry = CatalogueEntry(commissionAction: string, caterlogId: int)

  /** A `Commission_Payment_Rate` document; the rates map a commission rule to a rate. */
  datatype PaymentRate = PaymentRate(
    caterlogId: int,
    commissionPaymentRateId: int,
    commissionRate: Option<map<string, real>>)

  /** An RO negotiation document. */
  datatype Negotiation = Negotiation(drcId: Option<int>, createdDtm: DateTime)

  /** The payload of the outbound cheque-monitoring order. */
  datatype MonitoringRequest = MonitoringRequest(caseId: int, accountNum: string, endDate: DateTime)

  // ---------------------------------------------------------------------
  // Queries

  /** Ledger filters used with "sort by created_dtm descending, take one". */
  datatype LedgerQuery =
    | ForSettlement(caseId: int, settlementId: int)         // same case and settlement
    | PaymentsForSettlement(caseId: int, settlementId: int) // ... and not Bill / Return Cheque

  predicate Matches(q: LedgerQuery, e: LedgerEntry)
  {
    e.request.caseId == q.caseId && e.request.settlementId == q.settlementId
    && (q.PaymentsForSettlement? ==> !IsDebitType(e.request.txType))
  }

  /**
   * `find_one(query, sort=[("created_dtm", DESCENDING)])`: the position of a
   * matching entry with the latest `created_dtm`; among equal timestamps the
   * one stored first.
   */
  function LatestMatch(entries: seq<LedgerEntry>, q: LedgerQuery): (r: Option<nat>)
    ensures r.None? <==> forall j :: 0 <= j < |entries| ==> !Matches(q, entries[j])
    ensures r.Some? ==> r.value < |entries| && Matches(q, entries[r.value])
    ensures r.Some? ==> forall j :: 0 <= j < |entries| && Matches(q, entries[j]) ==>
              !Before(entries[r.value].createdDtm, entries[j].createdDtm)
    ensures r.Some? ==> forall j :: 0 <= j < r.value && Matches(q, entries[j]) ==>
              entries[j].createdDtm != entries[r.value].createdDtm
  {
    if entries == [] then None
    else
      var n := |entries| - 1;
      var earlier := LatestMatch(entries[..n], q);
      if Matches(q, entries[n])
         && (earlier.None? || Before(entries[earlier.value].createdDtm, entries[n].createdDtm))
      then
        assert earlier.Some? ==> forall j :: 0 <= j < n && Matches(q, entries[j]) ==>
          !Before(entries[earlier.value].createdDtm, entries[..n][j].createdDtm);
        LatestAfterLater(entries, q, earlier, n);
        Some(n)
      else
        if earlier.Some? then
          BeforeTotal(entries[earlier.value].createdDtm, entries[n].createdDtm);
          assert entries[..n][earlier.value] == entries[earlier.value];
          Some(earlier.value)
        else None
  }

  /** Helper of LatestMatch: a strictly later last entry beats every earlier match. */
  lemma LatestAfterLater(entries: seq<LedgerEntry>, q: LedgerQuery, earlier: Option<nat>, n: nat)
    requires n == |entries| - 1
    requires earlier.None? ==> forall j :: 0 <= j < n ==> !Matches(q, entries[j])
    requires earlier.Some? ==>
      (earlier.value < n
       && Before(entries[earlier.value].createdDtm, entries[n].createdDtm)
       && forall j :: 0 <= j < n && Matches(q, entries[j]) ==>
            !Before(entries[earlier.value].createdDtm, entries[j].createdDtm))
    ensures forall j :: 0 <= j < n && Matches(q, entries[j]) ==>
              !Before(entries[n].createdDtm, entries[j].createdDtm)
              && entries[j].createdDtm != entries[n].createdDtm
  {
    if earlier.Some? {
      var e := entries[earlier.value].createdDtm;
      forall j | 0 <= j < n && Matches(q, entries[j])
        ensures !Before(entries[n].createdDtm, entries[j].createdDtm)
        ensures entries[j].createdDtm != entries[n].createdDtm
      {
        BeforeTotal(e, entries[j].createdDtm);
        BeforeTotal(entries[j].createdDtm, entries[n].createdDtm);
        if Before(entries[n].createdDtm, entries[j].createdDtm) {
          BeforeTransitive(e, entries[n].createdDtm, entries[j].createdDtm);
        }
      }
    }
  }

  /**
   * `find_one({field: want})` without a sort: the first stored document
   * whose selected field equals `want`.
   */
  function FirstWhere<T, K(==)>(s: seq<T>, field: T -> K, want: K): (r: Option<nat>)
    ensures r.None? <==> forall j :: 0 <= j < |s| ==> field(s[j]) != want
    ensures r.Some? ==> r.value < |s| && field(s[r.value]) == want
    ensures r.Some? ==> forall j :: 0 <= j < r.value ==> field(s[j]) != want
  {
    if s == [] then None
    else if field(s[0]) == want then Some(0)
    else
      match FirstWhere(s[1..], field, want)
      case None => None
      case Some(k) => Some(k + 1)
  }

  function CaseIdOf(c: CaseRecord): int { c.caseId }
  function SettlementIdOf(s: CaseSettlement): int { s.settlementId }
  function SummaryIdOf(s: SettlementSummary): int { s.settlementId }
  function NegotiationDrcOf(n: Negotiation): Option<int> { n.drcId }

  /** The largest of a non-empty list of numbers. */
  function MaxOf(s: seq<int>): (m: int)
    requires |s| > 0
    ensures m in s && forall x :: x in s ==> x <= m
  {
    if |s| == 1 then s[0]
    else
      var m' := MaxOf(s[1..]);
      assert forall x :: x in s ==> x == s[0] || x in s[1..];
      if s[0] >= m' then s[0] else m'
  }

  /**
   * "Highest existing value + 1, or 1 when there is none": the next number
   * is larger than every number already used.
   */
  function NextSeq(s: seq<int>): (r: int)
    ensures forall x :: x in s ==> x < r
    ensures s == [] ==> r == 1
    ensures s != [] ==> r - 1 in s
  {
    if s == [] then 1 else MaxOf(s) + 1
  }

  function BonusSeqs(bs: seq<BonusRecord>): (r: seq<int>)
    ensures |r| == |bs| && forall i :: 0 <= i < |bs| ==> r[i] == bs[i].bonusSeq
  {
    seq(|bs|, i requires 0 <= i < |bs| => bs[i].bonusSeq)
  }

  function CommissionSeqs(cs: seq<CommissionRecord>): (r: seq<int>)
    ensures |r| == |cs| && forall i :: 0 <= i < |cs| ==> r[i] == cs[i].commissionSeq
  {
    seq(|cs|, i requires 0 <= i < |cs| => cs[i].commissionSeq)
  }

  function TransactionIds(es: seq<LedgerEntry>): (r: seq<int>)
    ensures |r| == |es| && forall i :: 0 <= i < |es| ==> r[i] == es[i].moneyTransactionId
  {
    seq(|es|, i requires 0 <= i < |es| => es[i].moneyTransactionId)
  }

  function SettlementIds(ss: seq<CaseSettlement>): (r: seq<int>)
    ensures |r| == |ss| && forall i :: 0 <= i < |ss| ==> r[i] == ss[i].settlementId
  {
    seq(|ss|, i requires 0 <= i < |ss| => ss[i].settlementId)
  }

  /** Numbers that strictly increase in storage order (so no two are equal). */
  predicate StrictlyIncreasing(s: seq<int>)
  {
    forall i, j :: 0 <= i < j < |s| ==> s[i] < s[j]
  }

  /** Appending the next number keeps a list strictly increasing. */
  lemma AppendNextKeepsIncreasing(s: seq<int>)
    requires StrictlyIncreasing(s)
    ensures StrictlyIncreasing(s + [NextSeq(s)])
  {
    var t := s + [NextSeq(s)];
    forall i, j | 0 <= i < j < |t| ensures t[i] < t[j] {
      if j == |s| {
        assert t[i] in s;
      }
    }
  }

  /** No two entries share an (account, reference) pair. */
  predicate UniqueReferences(es: seq<LedgerEntry>)
  {
    forall i, j :: 0 <= i < j < |es| ==>
      !(es[i].request.accountNum == es[j].request.accountNum && es[i].request.ref == es[j].request.ref)
  }

  /** Whether a stored entry already carries the account and reference of a request. */
  predicate HasReference(es: seq<LedgerEntry>, accountNum: string, ref: int)
  {
    exists i :: 0 <= i < |es| && es[i].request.accountNum == accountNum && es[i].request.ref == ref
  }

  /**
   * Appending an entry that carries the next transaction id and a fresh
   * (account, reference) pair keeps ids increasing and references unique.
   */
  lemma AppendFreshEntry(es: seq<LedgerEntry>, e: LedgerEntry)
    requires StrictlyIncreasing(TransactionIds(es)) && UniqueReferences(es)
    requires e.moneyTransactionId == NextSeq(TransactionIds(es))
    requires !HasReference(es, e.request.accountNum, e.request.ref)
    ensures StrictlyIncreasing(TransactionIds(es + [e])) && UniqueReferences(es + [e])
  {
    assert TransactionIds(es + [e]) == TransactionIds(es) + [NextSeq(TransactionIds(es))];
    AppendNextKeepsIncreasing(TransactionIds(es));
    var t := es + [e];
    forall i, j | 0 <= i < j < |t|
      ensures !(t[i].request.accountNum == t[j].request.accountNum && t[i].request.ref == t[j].request.ref)
    {
      if j == |es| {
        assert t[i] == es[i];
      }
    }
  }

  /** No two settlement documents share an id. */
  predicate UniqueSettlementIds(ss: seq<CaseSettlement>)
  {
    forall i, j :: 0 <= i < j < |ss| ==> ss[i].settlementId != ss[j].settlementId
  }
}
