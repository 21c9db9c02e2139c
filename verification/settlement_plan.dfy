/**
 * Instalment schedule of a settlement (the `generate_settlement_plan` model
 * validator of the settlement request model) and the field validator of the
 * received plan terms.
 *
 * Amounts are whole currency units; the source's float arithmetic and
 * `math.floor(x / 100) * 100` become integer floor division.
 */
module SettlementPlan {
  import opened Wrappers
  import opened Calendar

  /** One entry of `settlement_plan`. */
  datatype Installment = Installment(
    installmentSeq: int,
    settleAmount: int,
    accumulated: int,
    planDate: DateTime)

  /** The second component of `settlement_plan_received`: a month count or a list of amounts. */
  datatype PlanShape = TotalMonths(months: int) | InstallmentAmounts(amounts: seq<int>)

  /** `settlement_plan_received`: (initial amount, month count or instalment list). */
  datatype PlanReceived = PlanReceived(initial: int, shape: PlanShape)

  /** Why the request model refuses the terms. */
  datatype PlanError =
    | MonthsNotInteger       // Type A terms whose second component is not a month count
    | MonthsBelowOne         // Type A with total_months < 1
    | TermsMissing           // list branch: the key is absent
    | TermsNull              // list branch: the key holds None
    | AmountsNotIterable     // list branch: the second component is a month count

  datatype PlanResult = Plan(installments: seq<Installment>) | Refused(error: PlanError)

  // ---------------------------------------------------------------------
  // Dates

  /** The last day of `t`'s month at `t`'s time of day (`dt.replace(day=last_day)`). */
  function LastDayOfMonthAt(t: DateTime): (r: DateTime)
    requires ValidDateTime(t)
    ensures ValidDateTime(r) && r.second == t.second
    ensures MonthIndex(r.date) == MonthIndex(t.date)
    ensures r.date.day == DaysInMonth(r.date.year, r.date.month)
  {
    DateTime(LastDayOfMonth(t.date), t.second)
  }

  /**
   * First due date: the end of the creation month when the settlement is
   * created on the 1st, otherwise the end of the following month.
   */
  function FirstInstallmentDate(createdOn: DateTime): (r: DateTime)
    requires ValidDateTime(createdOn)
    ensures ValidDateTime(r) && r.second == createdOn.second
    ensures r.date.day == DaysInMonth(r.date.year, r.date.month)
    ensures MonthIndex(r.date) == MonthIndex(createdOn.date) + (if createdOn.date.day == 1 then 0 else 1)
    ensures Before(createdOn, r)
  {
    if createdOn.date.day == 1 then LastDayOfMonthAt(createdOn)
    else LastDayOfMonthAt(AddMonthsAt(createdOn, 1))
  }

  /** Due date of the instalment at index `i` (0-based): the end of the i-th month after the first. */
  function DueDate(first: DateTime, i: nat): (r: DateTime)
    requires ValidDateTime(first)
    ensures ValidDateTime(r) && r.second == first.second
    ensures MonthIndex(r.date) == MonthIndex(first.date) + i
    ensures r.date.day == DaysInMonth(r.date.year, r.date.month)
  {
    LastDayOfMonthAt(AddMonthsAt(first, i))
  }

  // ---------------------------------------------------------------------
  // Type A arithmetic

  /** `math.floor(remaining / (months - 1) / 100) * 100`, or 0 for a single month. */
  function MonthlyInstallment(settlementAmount: int, initial: int, months: int): int
  {
    if months > 1 then ((settlementAmount - initial) / (100 * (months - 1))) * 100 else 0
  }

  /** `math.floor((remaining - monthly * (months - 1)) / 100) * 100`, or 0 for a single month. */
  function LastAdjustment(settlementAmount: int, initial: int, months: int): int
  {
    if months > 1 then
      ((settlementAmount - initial - MonthlyInstallment(settlementAmount, initial, months) * (months - 1)) / 100) * 100
    else 0
  }

  /** The amount added to the running total for instalment `i` of a Type A plan. */
  function TypeAIncrement(settlementAmount: int, initial: int, months: int, i: int): int
  {
    (if i == 0 then initial else MonthlyInstallment(settlementAmount, initial, months))
    + (if i == months - 1 then LastAdjustment(settlementAmount, initial, months) else 0)
  }

  /**
   * Reference definition of the Type A schedule, entry by entry in closed
   * form: seq i+1, stored amount (the initial amount for the first entry),
   * running total and due date.
   */
  function TypeAPlan(settlementAmount: int, initial: int, months: nat, first: DateTime): (plan: seq<Installment>)
    requires ValidDateTime(first)
    ensures |plan| == months
  {
    seq(months, i requires 0 <= i < months =>
      Installment(
        i + 1,
        if i == 0 then initial else TypeAIncrement(settlementAmount, initial, months, i),
        initial + i * MonthlyInstallment(settlementAmount, initial, months)
          + (if i == months - 1 then LastAdjustment(settlementAmount, initial, months) else 0),
        DueDate(first, i)))
  }

  /** Sum of a list of amounts. */
  function Sum(s: seq<int>): int
  {
    if s == [] then 0 else Sum(s[..|s| - 1]) + s[|s| - 1]
  }

  /**
   * Reference definition of the list (Type B) schedule: the initial amount
   * due at the first date, then one entry per listed amount, each a month
   * later, with the running total including the initial amount.
   */
  function ListPlan(initial: int, amounts: seq<int>, first: DateTime): (plan: seq<Installment>)
    requires ValidDateTime(first)
    ensures |plan| == |amounts| + 1
  {
    seq(|amounts| + 1, i requires 0 <= i <= |amounts| =>
      if i == 0 then Installment(1, initial, initial, first)
      else Installment(i + 1, amounts[i - 1], initial + Sum(amounts[..i]), DueDate(first, i)))
  }

  /** The whole model validator as a function of the request fields it reads. */
  function SettlementPlanFor(
    settlementType: string, received: Slot<PlanReceived>, createdOn: DateTime, settlementAmount: int): (r: PlanResult)
    requires ValidDateTime(createdOn)
    ensures settlementType == "Type A" && received.Present? && received.value.shape.TotalMonths?
            && received.value.shape.months >= 1
            ==> r.Plan? && |r.installments| == received.value.shape.months
    ensures settlementType != "Type A" && received.Present? && received.value.shape.InstallmentAmounts?
            ==> r.Plan? && |r.installments| == |received.value.shape.amounts| + 1
    ensures r.Refused? <==>
              received.Absent? || received.Null?
              || (received.Present? && settlementType == "Type A"
                  && (received.value.shape.InstallmentAmounts? || received.value.shape.months < 1))
              || (received.Present? && settlementType != "Type A" && received.value.shape.TotalMonths?)
  {
    if settlementType == "Type A" && received.Present? then
      match received.value.shape
      case InstallmentAmounts(_) => Refused(MonthsNotInteger)
      case TotalMonths(n) =>
        if n < 1 then Refused(MonthsBelowOne)
        else Plan(TypeAPlan(settlementAmount, received.value.initial, n, FirstInstallmentDate(createdOn)))
    else
      match received
      case Absent => Refused(TermsMissing)
      case Null => Refused(TermsNull)
      case Present(terms) =>
        match terms.shape
        case TotalMonths(_) => Refused(AmountsNotIterable)
        case InstallmentAmounts(amounts) => Plan(ListPlan(terms.initial, amounts, FirstInstallmentDate(createdOn)))
  }

  /** Each Type A running total is the previous one plus that month's increment. */
  lemma TypeAAccumulatedStep(settlementAmount: int, initial: int, months: nat, first: DateTime, i: nat)
    requires ValidDateTime(first) && i < months
    ensures var plan := TypeAPlan(settlementAmount, initial, months, first);
      plan[i].accumulated
        == (if i == 0 then 0 else plan[i - 1].accumulated) + TypeAIncrement(settlementAmount, initial, months, i)
  {
    var f := MonthlyInstallment(settlementAmount, initial, months);
    if i > 0 {
      assert i * f == (i - 1) * f + f;
    } else if months == 1 {
      assert LastAdjustment(settlementAmount, initial, months) == 0;
    }
  }

  // ---------------------------------------------------------------------
  // The generator, step by step as the source builds the list

  /** The Type A loop: running total kept in a variable, one entry appended per month. */
  method BuildTypeAPlan(settlementAmount: int, initial: int, months: nat, first: DateTime)
    returns (plan: seq<Installment>)
    requires ValidDateTime(first)
    ensures plan == TypeAPlan(settlementAmount, initial, months, first)
  {
    var remaining := settlementAmount - initial;
    var monthly, adjustment := 0, 0;
    if months > 1 {
      monthly := (remaining / (100 * (months - 1))) * 100;
      adjustment := ((remaining - monthly * (months - 1)) / 100) * 100;
    }
    assert monthly == MonthlyInstallment(settlementAmount, initial, months);
    assert adjustment == LastAdjustment(settlementAmount, initial, months);
    ghost var spec := TypeAPlan(settlementAmount, initial, months, first);
    var accumulated := 0;
    plan := [];
    var i := 0;
    while i < months
      invariant 0 <= i <= months
      invariant plan == spec[..i]
      invariant accumulated == if i == 0 then 0 else spec[i - 1].accumulated
    {
      var amount := if i == 0 then initial else monthly;
      if i == months - 1 {
        amount := amount + adjustment;
      }
      assert amount == TypeAIncrement(settlementAmount, initial, months, i);
      TypeAAccumulatedStep(settlementAmount, initial, months, first, i);
      accumulated := accumulated + amount;
      var entry := Installment(i + 1, if i == 0 then initial else amount, accumulated, DueDate(first, i));
      assert entry == spec[i] by {
        assert spec[i].settleAmount == if i == 0 then initial else TypeAIncrement(settlementAmount, initial, months, i);
      }
      plan := plan + [entry];
      i := i + 1;
    }
    assert spec[..months] == spec;
  }

  /** The list loop: the first entry from the initial amount, then one entry per listed amount. */
  method BuildListPlan(initial: int, amounts: seq<int>, first: DateTime) returns (plan: seq<Installment>)
    requires ValidDateTime(first)
    ensures plan == ListPlan(initial, amounts, first)
  {
    ghost var spec := ListPlan(initial, amounts, first);
    var accumulated := initial;
    plan := [Installment(1, initial, accumulated, first)];
    var k := 0;
    while k < |amounts|
      invariant 0 <= k <= |amounts|
      invariant plan == spec[..k + 1]
      invariant accumulated == initial + Sum(amounts[..k])
    {
      assert amounts[..k + 1][..k] == amounts[..k];
      accumulated := accumulated + amounts[k];
      plan := plan + [Installment(k + 2, amounts[k], accumulated, DueDate(first, k + 1))];
      k := k + 1;
    }
    assert spec[..|amounts| + 1] == spec;
  }

  /** `generate_settlement_plan`: picks the branch and runs its loop. */
  method GenerateSettlementPlan(
    settlementType: string, received: Slot<PlanReceived>, createdOn: DateTime, settlementAmount: int)
    returns (r: PlanResult)
    requires ValidDateTime(createdOn)
    ensures r == SettlementPlanFor(settlementType, received, createdOn, settlementAmount)
  {
    if settlementType == "Type A" && received.Present? {
      var terms := received.value;
      if !terms.shape.TotalMonths? {
        return Refused(MonthsNotInteger);
      }
      if terms.shape.months < 1 {
        return Refused(MonthsBelowOne);
      }
      var plan := BuildTypeAPlan(settlementAmount, terms.initial, terms.shape.months, FirstInstallmentDate(createdOn));
      return Plan(plan);
    }
    match received
    case Absent => r := Refused(TermsMissing);
    case Null => r := Refused(TermsNull);
    case Present(terms) =>
      if terms.shape.TotalMonths? {
        r := Refused(AmountsNotIterable);
      } else {
        var plan := BuildListPlan(terms.initial, terms.shape.amounts, FirstInstallmentDate(createdOn));
        r := Plan(plan);
      }
  }

  // ---------------------------------------------------------------------
  // Properties of the schedules

  /** Instalments are numbered 1, 2, ... in list order. */
  predicate NumberedFromOne(plan: seq<Installment>)
  {
    forall i :: 0 <= i < |plan| ==> plan[i].installmentSeq == i + 1
  }

  /** Every due date is the last day of its month, and each is later than the one before. */
  predicate MonthEndsInOrder(plan: seq<Installment>)
  {
    (forall i :: 0 <= i < |plan| ==>
       ValidDateTime(plan[i].planDate)
       && plan[i].planDate.date.day == DaysInMonth(plan[i].planDate.date.year, plan[i].planDate.date.month))
    && (forall i, j :: 0 <= i < j < |plan| ==> Before(plan[i].planDate, plan[j].planDate))
  }

  /** Each running total is the previous one plus the stored instalment amount. */
  predicate RunningTotals(plan: seq<Installment>)
  {
    (|plan| > 0 ==> plan[0].accumulated == plan[0].settleAmount)
    && (forall i :: 0 < i < |plan| ==> plan[i].accumulated == plan[i - 1].accumulated + plan[i].settleAmount)
  }

  /** The stored instalment amounts in order. */
  function SettleAmounts(plan: seq<Installment>): (r: seq<int>)
    ensures |r| == |plan|
    ensures forall i :: 0 <= i < |plan| ==> r[i] == plan[i].settleAmount
  {
    seq(|plan|, i requires 0 <= i < |plan| => plan[i].settleAmount)
  }

  /** With running totals, each accumulated amount is the sum of the instalments up to and including it. */
  lemma {:induction false} AccumulatedIsPrefixSum(plan: seq<Installment>, i: nat)
    requires RunningTotals(plan) && i < |plan|
    ensures plan[i].accumulated == Sum(SettleAmounts(plan[..i + 1]))
  {
    var amounts := SettleAmounts(plan[..i + 1]);
    if i == 0 {
      assert amounts[..0] == [];
    } else {
      AccumulatedIsPrefixSum(plan, i - 1);
      assert amounts[..i] == SettleAmounts(plan[..i]);
    }
  }

  /** Due dates built from a month-end start are month ends, one month apart. */
  lemma DueDatesInOrder(first: DateTime, i: nat, j: nat)
    requires ValidDateTime(first) && i < j
    ensures Before(DueDate(first, i), DueDate(first, j))
  {
    MonthIndexOrdersDates(DueDate(first, i).date, DueDate(first, j).date);
  }

  lemma TypeAPlanWellFormed(settlementAmount: int, initial: int, months: nat, first: DateTime)
    requires ValidDateTime(first)
    ensures var plan := TypeAPlan(settlementAmount, initial, months, first);
      NumberedFromOne(plan) && MonthEndsInOrder(plan) && RunningTotals(plan)
  {
    var plan := TypeAPlan(settlementAmount, initial, months, first);
    forall i, j | 0 <= i < j < |plan| ensures Before(plan[i].planDate, plan[j].planDate) {
      DueDatesInOrder(first, i, j);
    }
    if months > 0 {
      TypeAAccumulatedStep(settlementAmount, initial, months, first, 0);
    }
    forall i | 0 < i < |plan|
      ensures plan[i].accumulated == plan[i - 1].accumulated + plan[i].settleAmount
    {
      TypeAAccumulatedStep(settlementAmount, initial, months, first, i);
    }
  }

  lemma ListPlanWellFormed(initial: int, amounts: seq<int>, first: DateTime)
    requires ValidDateTime(first) && first.date.day == DaysInMonth(first.date.year, first.date.month)
    ensures var plan := ListPlan(initial, amounts, first);
      NumberedFromOne(plan) && MonthEndsInOrder(plan) && RunningTotals(plan)
  {
    var plan := ListPlan(initial, amounts, first);
    forall i, j | 0 <= i < j < |plan| ensures Before(plan[i].planDate, plan[j].planDate) {
      if i == 0 {
        MonthIndexOrdersDates(first.date, DueDate(first, j).date);
      } else {
        DueDatesInOrder(first, i, j);
      }
    }
    forall i | 0 < i < |plan|
      ensures plan[i].accumulated == plan[i - 1].accumulated + plan[i].settleAmount
    {
      assert amounts[..i][..i - 1] == amounts[..i - 1];
    }
  }

  /** (a + 100 k) mod 100 is a mod 100. */
  lemma ModHundredShift(a: int, k: int)
    ensures (a + 100 * k) % 100 == a % 100
  {
    var q, t := a / 100, a % 100;
    assert a + 100 * k == 100 * (q + k) + t;
  }

  /**
   * The Type A schedule ends `(S - I) mod 100` below the settlement amount:
   * the monthly amount and the final adjustment are both rounded down to
   * hundreds, so any remainder below 100 is never scheduled.
   */
  lemma TypeAFinalTotal(settlementAmount: int, initial: int, months: nat, first: DateTime)
    requires ValidDateTime(first) && months >= 1
    ensures var plan := TypeAPlan(settlementAmount, initial, months, first);
      plan[months - 1].accumulated
        == if months > 1 then settlementAmount - (settlementAmount - initial) % 100 else initial
  {
    if months > 1 {
      var f := MonthlyInstallment(settlementAmount, initial, months);
      assert (months - 1) * f == f * (months - 1);
      RoundedSplit(settlementAmount - initial, months - 1);
    }
  }

  /** Rounding the monthly amount and the adjustment down to hundreds loses exactly `rem mod 100`. */
  lemma RoundedSplit(rem: int, k: int)
    requires k >= 1
    ensures var f := (rem / (100 * k)) * 100;
      f * k + ((rem - f * k) / 100) * 100 == rem - rem % 100
  {
    var q, t := rem / (100 * k), rem % (100 * k);
    var f := q * 100;
    assert rem == (100 * k) * q + t;
    assert f * k == 100 * (q * k);
    assert rem - f * k == t;
    assert (t / 100) * 100 == t - t % 100;
    ModHundredShift(t, q * k);
  }

  /** Consequence for callers: the last running total never exceeds S, is within 100 of it, and equals it exactly when S - I is a multiple of 100. */
  lemma TypeAFinalTotalBounds(settlementAmount: int, initial: int, months: nat, first: DateTime)
    requires ValidDateTime(first) && months > 1
    ensures var last := TypeAPlan(settlementAmount, initial, months, first)[months - 1].accumulated;
      settlementAmount - 100 < last <= settlementAmount
      && (last == settlementAmount <==> (settlementAmount - initial) % 100 == 0)
  {
    TypeAFinalTotal(settlementAmount, initial, months, first);
  }

  /** The list schedule's last running total is the initial amount plus every listed amount. */
  lemma ListFinalTotal(initial: int, amounts: seq<int>, first: DateTime)
    requires ValidDateTime(first)
    ensures ListPlan(initial, amounts, first)[|amounts|].accumulated == initial + Sum(amounts)
  {
    assert amounts[..|amounts|] == amounts;
  }

  /**
   * Every schedule the generator produces is non-empty, numbered from one,
   * keeps running totals, and falls due on month ends strictly after the
   * creation time and one month apart.
   */
  lemma GeneratedPlanWellFormed(
    settlementType: string, received: Slot<PlanReceived>, createdOn: DateTime, settlementAmount: int)
    requires ValidDateTime(createdOn)
    requires SettlementPlanFor(settlementType, received, createdOn, settlementAmount).Plan?
    ensures var plan := SettlementPlanFor(settlementType, received, createdOn, settlementAmount).installments;
      |plan| > 0 && NumberedFromOne(plan) && MonthEndsInOrder(plan) && RunningTotals(plan)
      && Before(createdOn, plan[0].planDate)
      && MonthIndex(plan[0].planDate.date) == MonthIndex(createdOn.date) + (if createdOn.date.day == 1 then 0 else 1)
  {
    var first := FirstInstallmentDate(createdOn);
    var terms := received.value;
    if settlementType == "Type A" {
      TypeAPlanWellFormed(settlementAmount, terms.initial, terms.shape.months, first);
    } else {
      ListPlanWellFormed(terms.initial, terms.shape.amounts, first);
    }
  }

  // ---------------------------------------------------------------------
  // Field validator of the received terms

  datatype TermsCheck = Accepted(terms: PlanReceived) | TypeATermsMalformed | TypeBTermsMalformed

  /**
   * `validate_settlement_plan_recieved`: checks the terms' shape against the
   * settlement type, but compares with "TypeA" / "TypeB", which are not the
   * values the type field admits ("Type A" / "Type B"), so it accepts the
   * terms of every settlement the model lets through.
   */
  function ValidatePlanReceived(settlementType: Option<string>, value: PlanReceived): (r: TermsCheck)
    ensures settlementType in {Some("Type A"), Some("Type B"), None} ==> r == Accepted(value)
    ensures r.Accepted? ==> r.terms == value
    ensures r == TypeATermsMalformed <==> settlementType == Some("TypeA") && !value.shape.TotalMonths?
    ensures r == TypeBTermsMalformed <==> settlementType == Some("TypeB") && !value.shape.InstallmentAmounts?
    ensures settlementType !in {Some("TypeA"), Some("TypeB")} ==> r == Accepted(value)
  {
    if settlementType == Some("TypeA") then
      if value.shape.TotalMonths? then Accepted(value) else TypeATermsMalformed
    else if settlementType == Some("TypeB") then
      if value.shape.InstallmentAmounts? then Accepted(value) else TypeBTermsMalformed
    else Accepted(value)
  }
}
