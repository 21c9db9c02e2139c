/**
 * Running credit, debt and settled balance of a money transaction
 * (`variables_by_money_transaction_type`).
 */
module Balance {
  import opened Wrappers

  /** `money_transaction_type`. */
  datatype TransactionType = Bill | Adjustment | Dispute | Cash | Cheque | ReturnCheque

  /** Bill and Return Cheque count against the debtor; every other type is a payment. */
  predicate IsDebitType(t: TransactionType)
  {
    t == Bill || t == ReturnCheque
  }

  /** The types that can earn a DRC bonus. */
  predicate IsPlusType(t: TransactionType)
  {
    t == Adjustment || t == Dispute || t == Cash || t == Cheque
  }

  lemma DebitAndPlusPartition(t: TransactionType)
    ensures IsDebitType(t) != IsPlusType(t)
  {
  }

  function Abs(x: int): (r: nat)
    ensures r == x || r == -x
  {
    if x < 0 then -x else x
  }

  /** The running figures stored on the previous ledger entry. */
  datatype Running = Running(credit: int, debt: int)

  /** With a prior entry the calculator returns a triple; without one, a pair. */
  datatype Figures =
    | Triple(credit: int, debt: int, balance: int)
    | Pair(credit: int, debt: int)

  /**
   * `variables_by_money_transaction_type(existing_case, request)`: the
   * transaction's absolute amount is added to the running credit (payment
   * types) or to the running debt (Bill, Return Cheque).
   */
  function RunningFigures(prior: Option<Running>, t: TransactionType, amount: int): (r: Figures)
    ensures prior.Some? <==> r.Triple?
    ensures prior.Some? ==> r.balance == r.credit - r.debt
    ensures prior.Some? && !IsDebitType(t) ==> r.credit == prior.value.credit + Abs(amount) && r.debt == prior.value.debt
    ensures prior.Some? && IsDebitType(t) ==> r.debt == prior.value.debt + Abs(amount) && r.credit == prior.value.credit
    ensures prior.None? ==> r == if IsDebitType(t) then Pair(0, Abs(amount)) else Pair(Abs(amount), 0)
  {
    match prior
    case Some(p) =>
      var credit := if !IsDebitType(t) then p.credit + Abs(amount) else p.credit;
      var debt := if !IsDebitType(t) then p.debt else p.debt + Abs(amount);
      Triple(credit, debt, credit - debt)
    case None =>
      Pair(if !IsDebitType(t) then Abs(amount) else 0, if !IsDebitType(t) then 0 else Abs(amount))
  }

  /**
   * Neither running figure ever decreases, whatever the sign of the amount,
   * and together they grow by exactly the absolute amount.
   */
  lemma RunningFiguresMonotone(prior: Running, t: TransactionType, amount: int)
    ensures var r := RunningFigures(Some(prior), t, amount);
      r.credit >= prior.credit && r.debt >= prior.debt
      && (r.credit - prior.credit) + (r.debt - prior.debt) == Abs(amount)
  {
  }

  /** A payment never lowers the settled balance and a debit never raises it. */
  lemma BalanceDirection(prior: Running, t: TransactionType, amount: int)
    ensures var r := RunningFigures(Some(prior), t, amount);
      if IsDebitType(t) then r.balance <= prior.credit - prior.debt
      else r.balance >= prior.credit - prior.debt
  {
  }
}
