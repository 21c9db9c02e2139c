# Debt-recovery core: settlement ledger, incident intake and product utilities

This project models in Dafny the core of a debt-recovery back end, in four parts.

**Settlement plans.** Generating a settlement plan turns the agreed terms into a list of instalments. The terms are an initial amount plus either a month count ("Type A") or a list of amounts. Each instalment has a sequence number, an amount, a running total and a due date on the last day of a month.

**The money-transaction ledger.** Each incoming payment or bill passes two checks:
- a gate that rejects an unknown case or a duplicate reference;
- a step that finds the instalment the new settled balance reaches, picks a commission category, and appends one ledger entry.

The step may also append a DRC (debt-recovery company) bonus record and a commission record. When the balance reaches the settlement amount it closes the settlement and the case, or starts cheque monitoring. Creating a settlement plan (both revisions of the route) is modelled too.

**Incident intake.** Intake runs these steps in order:
- link the customer's other open accounts;
- assign an arrears band;
- run the F1 rejection filters (current and older revision);
- apply the arrears thresholds ("select criteria").

Mapping an accepted incident to a case document is modelled too.

**Product utilities.** These cover:
- listing a case's products by attribute filters, and a histogram of one attribute;
- changing a product's status, and adding a product, in an incident's product list;
- the two accumulate-every-error request validators.

Modules, one per file:

| file | module | what it holds |
|---|---|---|
| wrappers.dfy | Wrappers | `Option`, `Result`, and `Slot`, which separates a missing key, a key holding `None` and a value |
| py_values.dfy | PyValues | dynamic values and the string built-ins the rules use (`strip`, `lower`, `split`, `replace`, `float()`) |
| calendar.dfy | Calendar | dates, month lengths, both last-day-of-month algorithms, `relativedelta` months, `timedelta` days, the `%Y%m` tag |
| settlement_plan.dfy | SettlementPlan | the schedule generator and its properties |
| balance.dfy | Balance | the running credit, debt and balance calculator |
| ledger_docs.dfy | LedgerDocs | the stored documents, "latest by `created_dtm`", "first match" and "max + 1" queries |
| ledger_rules.dfy | LedgerRules | the pure decisions of a ledger step: instalment matching, category, commissioned amount, bonus and commission records |
| ledger_store.dfy | LedgerStore | class `DocumentStore`, holding the collections, with the gates, both ledger paths, the completion cascade and settlement creation |
| incident.dfy | Incidents | the incident dictionary (class `IncidentDict`) and its status marks |
| arrears_band.dfy | ArrearsBands | band parsing and first-match scanning, both revisions |
| select_criteria.dfy | SelectCriteria | the three-way arrears thresholds, both revisions |
| f1_rules.dfy | F1Rules | what each of the six F1 filters decides |
| f1_filters.dfy | F1Filters | the current filter functions, their dispatcher and the filter loop |
| f1_legacy.dfy | F1Legacy | the older filters, their dispatcher, loop and `get_f1_filter_result` |
| check_account.dfy | CheckAccount | the open-case check and the linked-accounts list |
| intake_pipeline.dfy | IntakePipeline | `get_modified_incident_dict` |
| case_mapping.dfy | CaseMapping | incident-to-case mapping |
| product_listing.dfy | ProductListing | the product list filter and the attribute histogram |
| product_manager.dfy | ProductManager | class `ProductStore`, with product status change and product addition |
| product_validation.dfy | ProductValidation | the two request validators |

How the model is built:
- **Collections are sequences in storage order.** A MongoDB collection the code updates is a `seq` field of a class, and each route that writes is a method with a `modifies` clause. Each such method is proved against a specification function of the old state, and properties of that function are proved as lemmas. `find_one` is the first match in storage order. `find_one(..., sort=...)` is the matching document with the largest key, the first stored among equals.
- **The incident is a shared object.** An intake step receives the incident dictionary and updates it in place, so it is the class `IncidentDict`. The module-level linked-accounts list is the class `LinkedAccounts`: every incident linked holds that same object.
- **Amounts are unbounded integers.** `math.floor(x / 100) * 100` is Dafny's floor division, and commission rates are exact reals.
- **Parameters replace what the model cannot see.** Clocks, store queries in the intake code, and configuration documents are all parameters.

Where the code and the design description of the system disagree, the model follows the code:
- **Final Type A running total.** The design description says a Type A plan's last running total equals the settlement amount. With more than one month, the code rounds both the monthly amount and the final adjustment down to hundreds. The last running total is therefore S − ((S − I) mod 100), where S is the settlement amount and I the initial amount. With one month it is I.
- **Bonus and commission gate.** The description says "No Commission" transactions produce no bonus or commission records. The existing-case path compares the category with "No commission" (lower-case "c"), which no category equals. The bonus and commission steps therefore always run (`LedgerRules.GateAlwaysOpen`).
- **Bill and Return Cheque categories.** The description says Bill and Return Cheque are never commission-eligible. The code derives eligibility from the phases only. It does store a settled balance and a commissioned amount of 0 for these types.
- **Type validator.** The terms validator compares the type with "TypeA" and "TypeB". The type field's values are "Type A" and "Type B", so the validator never rejects.
- **Newer gate and `case_phase`.** The newer ledger gate reads a settlement's `case_phase`, which neither creation route writes. Every transaction for a settlement created through those routes therefore ends in a server error (`LedgerStore.NewerGateFailsOnCreatedSettlement`).
- **Open-case check.** The intake's open-case check compares the string "True" with `is True`, so it never rejects.

## Model

| member | source | states |
|---|---|---|
| Calendar.DaysInMonth | Settlement_Manager/openApi/models/create_settlement_class.py:72 | A month has 28 to 31 days; February has 29 exactly in a leap year and 28 otherwise |
| Calendar.LastDayOfMonth | Settlement_Manager/openApi/models/create_settlement_class.py:69-73 | Same year and month as the input, never earlier than it, and no date of that month is later |
| Calendar.LastDayOfMonthByProbe | utils/get_last_day_of_month/get_last_day_of_month.py:3-6 | The shared utility's algorithm; always yields a valid date. What it computes is stated by the two lemmas below |
| Calendar.LastDayOfMonthByProbeCorrect | utils/get_last_day_of_month/get_last_day_of_month.py:3-6 | The shared utility's "day 28, plus four days, back by the day reached" algorithm equals the month-length table |
| Calendar.LastDayOfMonthByProbeProperties | utils/get_last_day_of_month/get_last_day_of_month.py:3-6 | The utility keeps year and month, returns the month's length as the day (29 for a leap February), is never earlier than the input, and is idempotent |
| Calendar.AddMonths | openApi/routes/create_Settlement.py:112 | `relativedelta(months=k)`: exactly k months later, with the day kept when the new month has it and clipped otherwise |
| Calendar.AddMonthsAt | openApi/routes/create_Settlement.py:112 | The same on a timestamp, keeping the time of day |
| Calendar.AddDaysAt | openApi/routes/manage_cheque_payment_for_completing_settlement.py:36 | `timedelta(days=n)` keeps the time of day and, for n > 0, is strictly later |
| Calendar.YearMonth | openApi/routes/existing_transaction.py:58 | `int(strftime("%Y%m"))`: the tag divided by 100 is the year and its remainder is the month |
| Calendar.YearMonthMonotone | openApi/routes/existing_transaction.py:58 | One tag is smaller than another exactly when its month is earlier |
| SettlementPlan.LastDayOfMonthAt | Settlement_Manager/openApi/models/create_settlement_class.py:69-73 | `dt.replace(day=last_day)`: same month, the month's length as the day, the time of day kept |
| SettlementPlan.FirstInstallmentDate | Settlement_Manager/openApi/models/create_settlement_class.py:93-98 | The end of the creation month when created on the 1st, otherwise the end of the next month; always after creation |
| SettlementPlan.DueDate | Settlement_Manager/openApi/models/create_settlement_class.py:118 | Instalment i falls on the last day of the i-th month after the first due date |
| SettlementPlan.TypeAPlan | Settlement_Manager/openApi/models/create_settlement_class.py:100-131 | The reference Type A schedule has one instalment per month; its shape and totals are stated by `TypeAPlanWellFormed` and `TypeAFinalTotal` |
| SettlementPlan.ListPlan | Settlement_Manager/openApi/models/create_settlement_class.py:137-168 | The reference list schedule has one instalment for the initial amount plus one per listed amount; its shape and total are stated by `ListPlanWellFormed` and `ListFinalTotal` |
| SettlementPlan.SettlementPlanFor | Settlement_Manager/openApi/models/create_settlement_class.py:76-172 | "Type A" with terms and N ≥ 1 months gives N instalments. Any other type gives one more instalment than listed amounts. For a valid creation time and an integer amount, it refuses exactly when: the terms are absent or null; a Type A plan has fewer than one month or has a list; or a list plan has a month count |
| SettlementPlan.BuildTypeAPlan | Settlement_Manager/openApi/models/create_settlement_class.py:100-131 | The Type A loop, with its running total, builds exactly the closed-form schedule `TypeAPlan` |
| SettlementPlan.BuildListPlan | Settlement_Manager/openApi/models/create_settlement_class.py:134-170 | The list loop builds exactly the schedule `ListPlan` |
| SettlementPlan.GenerateSettlementPlan | Settlement_Manager/openApi/models/create_settlement_class.py:75-172 | `generate_settlement_plan` picks its branch and returns what `SettlementPlanFor` specifies, including the refusal for fewer than one month |
| SettlementPlan.TypeAAccumulatedStep | Settlement_Manager/openApi/models/create_settlement_class.py:119-124 | Each running total is the previous one plus that month's amount: the initial amount first, then the floored monthly amount, with the floored adjustment added to the last |
| SettlementPlan.SettleAmounts | Settlement_Manager/openApi/models/create_settlement_class.py:126 | The stored `settle_amount` of each instalment, in order |
| SettlementPlan.AccumulatedIsPrefixSum | Settlement_Manager/openApi/models/create_settlement_class.py:124-128 | Each running total is the sum of the instalment amounts up to and including it |
| SettlementPlan.DueDatesInOrder | Settlement_Manager/openApi/models/create_settlement_class.py:118 | Later instalments fall due strictly later |
| SettlementPlan.TypeAPlanWellFormed | Settlement_Manager/openApi/models/create_settlement_class.py:113-131 | The Type A schedule is numbered 1..N, due on month ends in strictly increasing order, and keeps running totals |
| SettlementPlan.ListPlanWellFormed | Settlement_Manager/openApi/models/create_settlement_class.py:151-168 | The list schedule has the same three properties |
| SettlementPlan.TypeAFinalTotal | Settlement_Manager/openApi/models/create_settlement_class.py:101-124 | The last running total is S − ((S − I) mod 100) for N > 1, and I for N = 1 |
| SettlementPlan.RoundedSplit | Settlement_Manager/openApi/models/create_settlement_class.py:104-107 | Flooring the monthly amount and the adjustment to hundreds loses exactly the remainder mod 100 |
| SettlementPlan.TypeAFinalTotalBounds | Settlement_Manager/openApi/models/create_settlement_class.py:101-124 | For N > 1 the last running total lies in (S − 100, S], and equals S exactly when S − I is a multiple of 100 |
| SettlementPlan.ListFinalTotal | Settlement_Manager/openApi/models/create_settlement_class.py:138-161 | The list schedule's last running total is the initial amount plus every listed amount |
| SettlementPlan.GeneratedPlanWellFormed | Settlement_Manager/openApi/models/create_settlement_class.py:93-170 | Every generated schedule is non-empty, numbered from 1, keeps running totals, and falls due on month ends in strictly increasing order. Its first date follows the day-1 rule and is after creation |
| SettlementPlan.ValidatePlanReceived | Settlement_Manager/openApi/models/create_settlement_class.py:58-67 | The validator returns the terms unchanged whenever the type is "Type A", "Type B" or missing. It rejects "TypeA" exactly when the shape is not a month count, and "TypeB" exactly when it is not an amount list. It accepts the terms unchanged for every other type string |
| Balance.DebitAndPlusPartition | openApi/routes/money_transaction_type.py:31-32 | Every transaction type is exactly one of debit (Bill, Return Cheque) or payment |
| Balance.RunningFigures | openApi/routes/money_transaction_type.py:29-43 | With a prior entry, a triple: a payment adds \|amount\| to credit, a debit adds it to debt, and the balance is credit − debt. Without one, the pair (\|a\|, 0) or (0, \|a\|) |
| Balance.RunningFiguresMonotone | openApi/routes/money_transaction_type.py:35-36 | Neither running figure decreases, even for a negative amount, and together they grow by exactly \|amount\| |
| Balance.BalanceDirection | openApi/routes/money_transaction_type.py:35-37 | A payment never lowers the balance, and a debit never raises it |
| LedgerDocs.LatestMatch | openApi/routes/existing_transaction.py:42-47 | "Sort by `created_dtm` descending, take one": a matching entry that no matching entry postdates, and none exactly when nothing matches |
| LedgerDocs.FirstWhere | openApi/routes/process_money_transaction.py:87 | `find_one` without sort: the first stored document whose field equals the wanted value |
| LedgerDocs.NextSeq | openApi/routes/process_money_transaction.py:136-144 | "Highest + 1, or 1": larger than every number used, 1 for none, and one more than an existing number otherwise |
| LedgerDocs.MaxOf | openApi/routes/add_drc_bonus.py:41-45 | The largest number of a non-empty list, and a member of it |
| LedgerDocs.AppendNextKeepsIncreasing | openApi/routes/add_drc_bonus.py:41-45 | Appending the next number keeps a numbering strictly increasing |
| LedgerDocs.AppendFreshEntry | openApi/routes/process_money_transaction.py:100-144 | Appending an entry with the next id and an unseen (account, reference) pair keeps ids increasing and references unique |
| LedgerRules.FirstCovering | openApi/routes/existing_transaction.py:17-28 | The first plan entry, in stored order, whose running total is at least the balance, or none |
| LedgerRules.FindCoveringInstallment | openApi/routes/existing_transaction.py:19-28 | The scan loop with `break` finds exactly that entry |
| LedgerRules.CategoryOnMatch | openApi/routes/existing_transaction.py:22-27 | "Commissioned" iff eligible and either the first instalment is met exactly or a later one is reached. "Unresolved Commission" iff eligible otherwise. "No Commission" iff ineligible |
| LedgerRules.ExistingCaseMatch | openApi/routes/existing_transaction.py:17-28 | The first covering instalment's seq and category, or seq 0 with the incoming category kept |
| LedgerRules.MatchedSeqIsPosition | openApi/routes/existing_transaction.py:21 | On a generated plan, the matched seq is the covering instalment's 1-based position |
| LedgerRules.FirstCoveringMonotone | openApi/routes/existing_transaction.py:19-20 | A larger balance never matches an earlier instalment |
| LedgerRules.StoredBalance | openApi/routes/existing_transaction.py:29 | Bill and Return Cheque store 0; other types store the balance |
| LedgerRules.CommissionedAmount | openApi/routes/existing_transaction.py:31-56 | 0 when ineligible. Otherwise the balance minus the previous entry's balance, or, after a Bill or Return Cheque, minus the latest payment entry's balance (the whole balance when there is none) |
| LedgerRules.CommissionedAmountAgainstLatestPayment | openApi/routes/existing_transaction.py:33-50 | Both branches measure against the same reference when the previous entry is the latest payment |
| LedgerRules.ExistingStepBalance | openApi/routes/existing_transaction.py:15-73 | The balance is the previous credit − debit moved by \|amount\|. A Bill or Return Cheque stores 0 and so never completes a positive settlement |
| LedgerRules.NewCaseCategory | openApi/routes/new_case_transaction.py:36-48 | Eligible and before the negotiation gives "Pending Commission". Eligible and after it gives "Unresolved Commission" with the amount when the initial amount is larger, else "Commissioned" with 0. At the same instant, or when ineligible, the incoming category is kept |
| LedgerRules.GateAlwaysOpen | openApi/routes/existing_transaction.py:76 | No category either path produces equals the gate's literal "No commission" |
| LedgerRules.DecideBonus | openApi/routes/add_drc_bonus.py:47-87 | A positive record iff the type is a payment type and either the latest payment was instalment 1 and "Commissioned" or the step completes. A negative record iff Return Cheque. The result is true iff positive and not completing. Never both; never for Bill |
| LedgerRules.BonusRecordsFor | openApi/routes/add_drc_bonus.py:55-86 | At most one record, numbered with the next bonus seq. Its status is the positive flag, its amount the passed commissioned amount, its type "completion rate" or "success rate" |
| LedgerRules.ArgMaxWhere | openApi/routes/add_commission.py:52-54 | `find_one` sorted descending: a matching document whose key no match exceeds |
| LedgerRules.RateFor | openApi/routes/add_commission.py:97 | The rate for the case's rule, or 0 when the rule is None or has no rate |
| LedgerRules.CommissionRecordFor | openApi/routes/add_commission.py:49-126 | The record uses the latest "payment" catalogue entry, its latest rate entry, and amount × the rule's rate. It has the next commission seq, status "Pending", the given type, and the transaction id as reference. Otherwise it names the lookup that failed |
| LedgerRules.CommissionWithoutRateIsZero | openApi/routes/add_commission.py:96-97 | A case whose rule is None earns a commission of 0 |
| LedgerStore.LatestEntry | openApi/routes/process_money_transaction.py:148-151 | The latest ledger entry for a (case, settlement), as a document |
| LedgerStore.FindCase | openApi/routes/process_money_transaction.py:87-92 | The case with the id, or none exactly when no case has it |
| LedgerStore.FindSettlement | openApi/routes/process_money_transaction.py:112 | The settlement with the id, or none exactly when no settlement has it |
| LedgerStore.CompleteCaseSettlement | openApi/routes/update_db_status.py:8 | Only the first settlement document with the id changes, and only to status "Completed"; the ids are kept |
| LedgerStore.CompleteSummary | openApi/routes/update_db_status.py:9 | Only the first summary with the id changes, to status "Completed" |
| LedgerStore.CloseCase | openApi/routes/update_db_status.py:10-24 | Only the first case with the id changes: its status becomes "Complete" and one "Closed" entry is appended to its history |
| LedgerStore.CloseCaseEffect | openApi/routes/update_db_status.py:10-24 | After the cascade, the case is "Complete" and its history is the old one plus exactly one "Closed" entry; every other case is unchanged |
| LedgerStore.SideRecordsAppendAtMostOne | openApi/routes/add_drc_bonus.py:41-87 | One request appends at most one bonus and at most one commission record, each numbered above every existing one. The first-settlement flag implies a positive "success rate" record. Bill never writes a bonus |
| LedgerStore.AfterCompletionKeepsSettlementIds | openApi/routes/existing_transaction.py:85-102 | The cascade and cheque monitoring exclude each other and never add or drop a settlement. The monitoring deadline is strictly after creation |
| LedgerStore.LedgerGrowthKeepsValid | openApi/routes/existing_transaction.py:82 | Appending one fresh entry with the next id keeps ids increasing and references unique |
| LedgerStore.NewerGateAdmission | openApi/routes/process_money_transaction.py:86-165 | The checks run in order: unknown case, then missing case phase (error), then duplicate reference. Admission requires a settlement whose `case_phase` is present and in the commission phases, and a stored plan. It then carries the case-phase eligibility, the settlement's DRC and RO, the next id and the latest prior entry |
| LedgerStore.OlderGateAdmission | openApi/routes/obtain_money_transaction.py:84-148 | Duplicate reference first, then unknown case. A missing settlement is an error. Eligibility needs both the request's and the settlement's phase in the set. Admission carries the next id and the latest prior entry |
| LedgerStore.NewerGateFailsOnCreatedSettlement | openApi/routes/process_money_transaction.py:127-133 | A settlement without `case_phase` makes every transaction past the checks end in a server error |
| LedgerStore.AdmittedRequestsAreFresh | openApi/routes/process_money_transaction.py:100-144 | Both gates admit only an unseen reference, with the next transaction id |
| LedgerStore.DocumentStore.constructor | openApi/routes/process_money_transaction.py:58-61 | The named collections: a store with the given reference data and empty ledger collections satisfies the store invariant |
| LedgerStore.DocumentStore.AddToDrcBonus | openApi/routes/add_drc_bonus.py:38-87 | Without a latest payment entry the step fails and writes nothing. Otherwise it appends exactly the records `DecideBonus` and `BonusRecordsFor` give, and answers the first-settlement flag |
| LedgerStore.DocumentStore.AddToCommission | openApi/routes/add_commission.py:45-126 | Appends exactly the record `CommissionRecordFor` gives, or writes nothing and reports its error |
| LedgerStore.DocumentStore.UpdateDbStatus | openApi/routes/update_db_status.py:6-24 | The three collections become `CompleteCaseSettlement`, `CompleteSummary` and `CloseCase` of their old contents |
| LedgerStore.DocumentStore.BonusAndCommissionStep | openApi/routes/existing_transaction.py:76-80 | Bonus then commission, as `SideRecordsFor` specifies; a failing bonus step skips the commission |
| LedgerStore.DocumentStore.FinishExisting | openApi/routes/existing_transaction.py:85-102 | A completing non-cheque runs the cascade; a completing cheque records monitoring until 14 days after creation; otherwise nothing changes. The message matches the branch |
| LedgerStore.DocumentStore.InsertAndFinish | openApi/routes/existing_transaction.py:82-102 | Exactly one entry is appended, then the completion branch runs |
| LedgerStore.DocumentStore.ExistingCaseTransaction | openApi/routes/existing_transaction.py:12-102 | The entry holds the matched seq, the category, the calculator's running figures, the stored balance and the commissioned amount. The bonus and commission steps run first, and an error there writes no entry. Completion then closes the settlement or starts monitoring |
| LedgerStore.DocumentStore.NewCaseTransaction | openApi/routes/new_case_transaction.py:12-84 | Without a negotiation for the DRC, it writes nothing and says so. Otherwise it inserts one entry with the decided category and the raw amount. Completion is amount ≥ initial amount. The bonus and commission steps run after the insert; there is no cascade |
| LedgerStore.DocumentStore.RunLedgerStep | openApi/routes/process_money_transaction.py:158-165 | The existing-case path when there is a prior entry, else the new-case path; without one the cascade collections are untouched |
| LedgerStore.DocumentStore.Dispatch | openApi/routes/process_money_transaction.py:158-173 | An admitted request keeps the store invariant and grows the ledger by at most its own fresh entry; the answer is 200 or 500 |
| LedgerStore.DocumentStore.ProcessMoneyTransaction | openApi/routes/process_money_transaction.py:63-177 | A rejection appends the raw request to the rejected collection, answers 400 and changes nothing else. A fault answers 500 and changes nothing. An admitted request is dispatched; the ledger invariant is kept |
| LedgerStore.DocumentStore.ObtainMoneyTransaction | openApi/routes/obtain_money_transaction.py:74-156 | The same for the earlier gate |
| LedgerStore.DocumentStore.CreateSettlementPlan | openApi/routes/create_Settlement.py:81-132 | An unknown case writes nothing. It answers 200, and the body is the returned exception with 409 and a detail naming the case id. Otherwise the plan is stored with the next settlement id, an expiry 12 months after creation and its first monitoring time, followed by a summary with the same id. Settlement ids stay unique |
| LedgerStore.DocumentStore.CreateSettlementPlanChecked | Settlement_Manager/openApi/routes/create_Settlement.py:96-129 | An existing id writes nothing. It answers 200, and the body is the returned exception with 409 and a detail naming the settlement id. Otherwise the plan, then the summary copying id, creation time, status, DRC and RO. Settlement ids stay unique |
| Incidents.LinkedAccounts.constructor | openAPI_IDC/coreFunctions/DatabaseOparations/CheckAccount.py:31 | The module-level list starts empty |
| Incidents.IncidentDict.constructor | openAPI_IDC/coreFunctions/ModifyIncidentDict.py:99 | The mutable incident dictionary holds the document it is given |
| Incidents.MarkError | openAPI_IDC/coreFunctions/AssignArrearsBand.py:112-117 | The three writes of every intake `except`: status "Error", the time, the description; nothing else changes |
| Incidents.MarkRejectPending | openAPI_IDC/coreFunctions/ModifyIncidentDict.py:74-79 | Status "reject pending" with its time; nothing else changes |
| ArrearsBands.ParseBandOfAtLeast | openAPI_IDC/coreFunctions/AssignArrearsBand.py:73-77 | "X<" reads as arrears ≥ X |
| ArrearsBands.ParseBandOfBelow | openAPI_IDC/coreFunctions/AssignArrearsBand.py:80-84 | "<X" reads as arrears < X |
| ArrearsBands.ParseBandOfBetween | openAPI_IDC/coreFunctions/AssignArrearsBand.py:87-94 | "a-b" reads as a ≤ arrears < b |
| ArrearsBands.ParseBandOfRange | openAPI_IDC/coreFunctions/AssignArrearsBand.py:87-94 | Any range text that splits into two numbers is read as that half-open range |
| ArrearsBands.RangeNeedsOneDash | openAPI_IDC/coreFunctions/AssignArrearsBand.py:88-97 | A range with other than one dash cannot unpack, so it is skipped |
| ArrearsBands.BandStepMeaning | openAPI_IDC/coreFunctions/AssignArrearsBand.py:73-94 | For numeric arrears, each of the three formats hits exactly when its inequality holds |
| ArrearsBands.SpecStepMeaning | openAPI_IDC/coreFunctions/AssignArrearsBand.py:73-94 | Once read, each kind of range holds exactly the numeric arrears inside it |
| ArrearsBands.FirstBandIsScan | openAPI_IDC/coreFunctions/AssignArrearsBand.py:68-97 | The band loop is the generic first-match scan with each entry read by the three formats |
| ArrearsBands.ScanDecidedAt | openAPI_IDC/coreFunctions/AssignArrearsBand.py:68-97 | For any reading of the entries, the first entry that does not miss decides the scan |
| ArrearsBands.ScanNone | openAPI_IDC/coreFunctions/AssignArrearsBand.py:68-97 | For any reading of the entries, the scan finds nothing exactly when every entry misses |
| ArrearsBands.ScanFoundIsFirstHit | openAPI_IDC/coreFunctions/AssignArrearsBand.py:68-97 | For any reading of the entries, a found band is the first entry that hits |
| ArrearsBands.ScanSkipsMissedEntries | openAPI_IDC/coreFunctions/AssignArrearsBand.py:69 | When non-string values always miss, dropping them leaves the scan unchanged |
| ArrearsBands.AbortedScanMarksError | openAPI_IDC/coreFunctions/AssignArrearsBand.py:112-117 | An exception raised in the scan marks the incident "Error" with that exception |
| ArrearsBands.FirstBandDecidedAt | openAPI_IDC/coreFunctions/AssignArrearsBand.py:68-97 | The scan is decided by the first entry that does not miss: a hit there names its band, and an error there aborts |
| ArrearsBands.FirstBandNone | openAPI_IDC/coreFunctions/AssignArrearsBand.py:63-100 | No band is found exactly when every entry misses |
| ArrearsBands.FirstBandFoundIsFirstHit | openAPI_IDC/coreFunctions/AssignArrearsBand.py:68-97 | A found band belongs to an entry that holds the arrears, after entries that all missed |
| ArrearsBands.StringEntries | openAPI_IDC/coreFunctions/AssignArrearsBand.py:69 | Only string-valued entries are kept |
| ArrearsBands.NonStringEntriesIgnored | openAPI_IDC/coreFunctions/AssignArrearsBand.py:69 | Dropping non-string entries never changes the scan |
| ArrearsBands.ScanBands | openAPI_IDC/coreFunctions/AssignArrearsBand.py:68-97 | The loop with `break` computes exactly the first-match scan |
| ArrearsBands.AssignArrearsBand | openAPI_IDC/coreFunctions/AssignArrearsBand.py:38-117 | The incident becomes what `AssignedBand` specifies |
| ArrearsBands.AssignedBandErrors | openAPI_IDC/coreFunctions/AssignArrearsBand.py:56-117 | "Error" exactly when there are no bands, a bound is unreadable, or the arrears cannot be compared. No bands is reported as not found |
| ArrearsBands.AssignedBandWrites | openAPI_IDC/coreFunctions/AssignArrearsBand.py:99-102 | Otherwise only `Arrears_Band` is written: the band found, or None |
| ArrearsBands.MissingArrearsCountsAsZero | openAPI_IDC/coreFunctions/AssignArrearsBand.py:63 | A missing `Arrears` is scanned as 0 |
| ArrearsBands.InsertArrearsBand | openAPI_IDC/coreFunctions/Insert_arrears_band.py:9-60 | The older revision writes `arrears_band`, or returns `{}` and leaves the incident alone |
| ArrearsBands.RevisionsAgree | openAPI_IDC/coreFunctions/Insert_arrears_band.py:13-60 | The older revision returns `{}` exactly where the newer marks "Error", and otherwise writes the same band under its own key |
| SelectCriteria.Classify | openAPI_IDC/coreFunctions/F1_Filter/SelectCriteria.py:50-58 | > 5000 gives "Open No agent", (1000, 5000] gives "Direct LOD", ≤ 1000 gives "Open CPE Collect"; no real arrears value reaches "Unknown" |
| SelectCriteria.SelectCriteriaForIncident | openAPI_IDC/coreFunctions/F1_Filter/SelectCriteria.py:27-77 | The incident becomes what `SelectedCriteria` specifies |
| SelectCriteria.SelectedCriteriaOutcome | openAPI_IDC/coreFunctions/F1_Filter/SelectCriteria.py:47-76 | The status time is always set. Numeric arrears get one of the three statuses; anything else is "Error". Only status, time and description change |
| SelectCriteria.DoF1FilterLevel02 | openAPI_IDC/coreFunctions/F1_Filter/f1_filter_level_02.py:11-45 | The incident and return value become what `Level02` specifies |
| SelectCriteria.Level02AgreesWithSelectCriteria | openAPI_IDC/coreFunctions/F1_Filter/f1_filter_level_02.py:13-41 | Where the older revision classifies, it writes the same status and description. A falsy or non-numeric arrears returns `{}` untouched |
| F1Rules.DecideEquals | openAPI_IDC/coreFunctions/F1_Filter/F1FilterLogic.py:46-58 | Filters 11, 12 and 14: a falsy value passes. Otherwise the incident is rejected iff the operator is "equal" and the value is a rule value. A missing configuration raises |
| F1Rules.MatchingStatuses | openAPI_IDC/coreFunctions/F1_Filter/F1FilterLogic.py:146-155 | The listed products' statuses, in product order |
| F1Rules.MatchingStatusesAppend | openAPI_IDC/coreFunctions/F1_Filter/F1FilterLogic.py:146-155 | That list distributes over concatenation, so product order is kept |
| F1Rules.DecideMainProductStatus | openAPI_IDC/coreFunctions/F1_Filter/F1FilterLogic.py:124-175 | Filter 13: with products, the incident is rejected iff the operator is "equal" and some status is a rule value; the reason lists the matching statuses |
| F1Rules.WholeWordMatchIgnoresNameCase | openAPI_IDC/coreFunctions/F1_Filter/F1FilterLogic.py:245-253 | Changing the name's letter case never changes a match |
| F1Rules.WholeWordMatchIgnoresWordCase | openAPI_IDC/coreFunctions/F1_Filter/F1FilterLogic.py:245-253 | Changing the rule's letter case never changes a match |
| F1Rules.SpacedWordMatches | openAPI_IDC/coreFunctions/F1_Filter/F1FilterLogic.py:245-253 | A word between spaces is found; a word glued to a letter is not found there |
| F1Rules.NameScan | openAPI_IDC/coreFunctions/F1_Filter/F1FilterLogic.py:245-253 | `any(...)` over the rules, left to right: a match rejects, and a non-string raises before later rules |
| F1Rules.NameScanFindsWord | openAPI_IDC/coreFunctions/F1_Filter/F1FilterLogic.py:245-253 | For strings, the scan rejects iff some rule occurs as a whole word |
| F1Rules.DecideCustomerName | openAPI_IDC/coreFunctions/F1_Filter/F1FilterLogic.py:223-271 | Filter 15: a truthy name is rejected iff some rule value occurs in it as a whole word, ignoring case |
| F1Rules.CustomerNameIgnoresOperator | openAPI_IDC/coreFunctions/F1_Filter/F1FilterLogic.py:245-253 | Filter 15 never reads the operator |
| F1Rules.FirstListed | openAPI_IDC/coreFunctions/F1_Filter/F1FilterLogic.py:296-299 | The first product whose status is a rule value |
| F1Rules.DecideSpecificProductStatus | openAPI_IDC/coreFunctions/F1_Filter/F1FilterLogic.py:272-321 | Filter 16: the first listed product decides. Rejected iff `Source_Type` is falsy (`None` included), or is a string that, ignoring case, is not among all-string configured types. A truthy non-string `Source_Type` or a non-string configured type is a failure (`.lower()` raises, and the run marks the incident Error). No listed product passes |
| F1Rules.SpecificProductStatusIgnoresLaterProducts | openAPI_IDC/coreFunctions/F1_Filter/F1FilterLogic.py:296-307 | Products after the first listed one never change filter 16's verdict |
| F1Rules.DecideReasons | openAPI_IDC/coreFunctions/F1_Filter/F1Filter.py:48-70 | Every rejection carries a truthy reason naming its filter; ids outside 11..16 pass |
| F1Filters.FilterConfig.constructor | openAPI_IDC/coreFunctions/ModifyIncidentDict.py:55-58 | The active-filter configuration holds the entries given |
| F1Filters.FirstEntryFor | openAPI_IDC/coreFunctions/F1_Filter/F1FilterLogic.py:39-42 | The first entry whose `new_filter_id` is the filter's own id |
| F1Filters.FindEntry | openAPI_IDC/coreFunctions/F1_Filter/F1FilterLogic.py:39-42 | The lookup loop with `break` finds exactly that entry |
| F1Filters.FilterStep | openAPI_IDC/coreFunctions/F1_Filter/F1Filter.py:35-70 | Ids outside 11..16 change nothing. A filter changes only the status marks and the reason, and empties the entry it found (the `finally` clear) |
| F1Filters.RunFilter | openAPI_IDC/coreFunctions/F1_Filter/F1FilterLogic.py:28-74 | Find the entry, decide, write the verdict, then empty the entry; this is `FilterStep` |
| F1Filters.DoF1Filter | openAPI_IDC/coreFunctions/F1_Filter/F1Filter.py:35-70 | The dispatch's result is the selected filter's result; other ids change nothing |
| F1Filters.DoF1FilterForIncident | openAPI_IDC/coreFunctions/ModifyIncidentDict.py:40-95 | No filter ids gives "Error" with "Missing Filter IDs". Otherwise filters run in order: the first "Error" stops the run, and the first reason marks "reject pending" and stops it |
| F1Filters.FilterRunOutcome | openAPI_IDC/coreFunctions/ModifyIncidentDict.py:64-81 | A run ends "Error", or "reject pending" with a truthy reason, or with the incident's own status and a falsy reason; other keys are untouched |
| F1Filters.CarriedReasonRejects | openAPI_IDC/coreFunctions/ModifyIncidentDict.py:74-79 | An incident arriving with a truthy reason ends "reject pending" or "Error" |
| F1Filters.FilterRunOnlyClears | openAPI_IDC/coreFunctions/F1_Filter/F1FilterLogic.py:72-74 | A run only ever empties configuration entries |
| F1Filters.UnknownIdsChangeNothing | openAPI_IDC/coreFunctions/F1_Filter/F1Filter.py:67-70 | Ids naming no filter leave the incident and the configuration unchanged |
| F1Filters.FirstRejectionWins | openAPI_IDC/coreFunctions/ModifyIncidentDict.py:64-79 | A run whose first filter rejects ends "reject pending" with that filter's reason, whatever follows |
| F1Filters.SecondRunFindsNoEntry | openAPI_IDC/coreFunctions/F1_Filter/F1FilterLogic.py:39-74 | After the clear, a second run of the same filter finds no entry |
| F1Legacy.LineByNewFilterId | openAPI_IDC/coreFunctions/F1_Filter/get_f1_filter_details.py:123-135 | The first active filter line for the id, or nothing |
| F1Legacy.LegacyStep | openAPI_IDC/coreFunctions/F1_Filter/f1_filter_logic.py:14-52 | A rejection writes the reason. A pass, and every error (a missing configuration line included), leaves the incident unchanged. It never writes a status |
| F1Legacy.LegacyFilter | openAPI_IDC/coreFunctions/F1_Filter/f1_filter_logic.py:14-299 | The six older filters act as `LegacyStep` |
| F1Legacy.DoF1FilterLevel01 | openAPI_IDC/coreFunctions/F1_Filter/fi_filter_level_01.py:13-30 | Routes 11..16 to the older filters, leaves other ids unchanged, and returns the incident itself |
| F1Legacy.AsEntries | openAPI_IDC/coreFunctions/F1_Filter/get_f1_filter_details.py:123-135 | The same active filters, as the newer configuration |
| F1Legacy.LookupsAgree | openAPI_IDC/coreFunctions/F1_Filter/get_f1_filter_details.py:123-135 | Both lookups find the same line |
| F1Legacy.LegacyAgreesWithCurrent | openAPI_IDC/coreFunctions/F1_Filter/f1_filter_logic.py:14-299 | The older filter leaves the incident as the newer does, except where the newer marks "Error" |
| F1Legacy.DoF1FilterForIncidentLegacy | openAPI_IDC/coreFunctions/modifyIncidentDict.py:16-58 | No ids returns `{}`. The first truthy reason rejects; otherwise the level-2 thresholds run |
| F1Legacy.LegacyRunOutcome | openAPI_IDC/coreFunctions/modifyIncidentDict.py:24-50 | An older run ends "reject pending" with a truthy reason, or gives the level-2 outcome of the incident as it arrived |
| F1Legacy.GetF1FilterResult | openAPI_IDC/coreFunctions/modifyIncidentDict.py:60-91 | The band is inserted first, and `{}` from it is passed on; then the older filter run |
| F1Legacy.F1ResultOutcome | openAPI_IDC/coreFunctions/modifyIncidentDict.py:60-91 | The result is `{}`, or the banded incident "reject pending" or in one of the three level-2 statuses |
| CheckAccount.FindOpenCase | openAPI_IDC/coreFunctions/DatabaseOparations/CheckAccount.py:73-90 | The first case of the account whose lowered status is none of the four closed statuses |
| CheckAccount.HasOpenCase | openAPI_IDC/coreFunctions/DatabaseOparations/CheckAccount.py:35-105 | The string "True" exactly when some case of the account is open; "False" otherwise or when the store is unreachable |
| CheckAccount.ClosedCasesIgnored | openAPI_IDC/coreFunctions/DatabaseOparations/CheckAccount.py:78-83 | A closed case, in any letter case, never changes the answer |
| CheckAccount.IncidentEntries | openAPI_IDC/coreFunctions/DatabaseOparations/CheckAccount.py:142-149 | One entry per open incident, in query order |
| CheckAccount.CaseEntries | openAPI_IDC/coreFunctions/DatabaseOparations/CheckAccount.py:152-159 | One entry per open case, in query order |
| CheckAccount.LinkedEntries | openAPI_IDC/coreFunctions/DatabaseOparations/CheckAccount.py:131-159 | The root account first, then the incidents, then the cases; length 1 + \|incidents\| + \|cases\|. Incident entries have an empty `Case_Id` and case entries an empty `Incident_Id` |
| CheckAccount.LinkAccounts | openAPI_IDC/coreFunctions/DatabaseOparations/CheckAccount.py:116-170 | The incident and the module-level list become what `Linked` specifies |
| CheckAccount.LinkedOutcome | openAPI_IDC/coreFunctions/DatabaseOparations/CheckAccount.py:118-170 | Linking changes only `Account_Cross_Details`, which is the module-level list. A missing `Customer_Ref` leaves the list empty and changes only the status marks |
| CheckAccount.LinkInTurn | openAPI_IDC/coreFunctions/DatabaseOparations/CheckAccount.py:118-161 | Two incidents linked in turn hold the same list, which then lists the second incident's accounts |
| IntakePipeline.NotModified | openAPI_IDC/coreFunctions/ModifyIncidentDict.py:162-167 | "Error" with the time and the exception naming the failing step |
| IntakePipeline.GetModifiedIncidentDict | openAPI_IDC/coreFunctions/ModifyIncidentDict.py:99-174 | The incident, list and configuration become what `Modified` specifies |
| IntakePipeline.BandStepOutcome | openAPI_IDC/coreFunctions/ModifyIncidentDict.py:126-130 | The band step fails, or writes a band and nothing else |
| IntakePipeline.FilterStepOutcome | openAPI_IDC/coreFunctions/ModifyIncidentDict.py:133-142 | The F1 step fails, rejects with a truthy reason, or keeps the status and leaves a falsy reason |
| IntakePipeline.ModifiedOutcome | openAPI_IDC/coreFunctions/ModifyIncidentDict.py:119-174 | Intake ends in exactly one of three ways: "Error" naming the failing step, "reject pending", or one of the three criteria statuses |
| IntakePipeline.ModifiedKeepsIntake | openAPI_IDC/coreFunctions/ModifyIncidentDict.py:119-174 | Only the status marks, reason, band and linked accounts can change |
| IntakePipeline.MissingCustomerRefStopsAtLinking | openAPI_IDC/coreFunctions/ModifyIncidentDict.py:119-123 | A missing `Customer_Ref` stops intake at linking, with no band and no filter run |
| IntakePipeline.CarriedReasonSkipsCriteria | openAPI_IDC/coreFunctions/ModifyIncidentDict.py:140-142 | A truthy carried reason never reaches the criteria step |
| IntakePipeline.SuccessfulIntakeIsLinkedAndBanded | openAPI_IDC/coreFunctions/ModifyIncidentDict.py:119-152 | A successful intake has linked the accounts and written a band |
| CaseMapping.CaseDict.constructor | openAPI_IDC/services/create_cases_from_incident_services.py:53-55 | The case dictionary starts as the template |
| CaseMapping.ContactOf | openAPI_IDC/services/create_cases_from_incident_services.py:80-87 | "Mob", "email" and "Land" fill mob, email and lan respectively; other types are dropped |
| CaseMapping.ContactList | openAPI_IDC/services/create_cases_from_incident_services.py:78-87 | The contacts of known types, in input order |
| CaseMapping.BuildContacts | openAPI_IDC/services/create_cases_from_incident_services.py:78-87 | The loop builds exactly that list |
| CaseMapping.ContactListAppend | openAPI_IDC/services/create_cases_from_incident_services.py:78-87 | The list distributes over concatenation |
| CaseMapping.ContactListKeepsKnown | openAPI_IDC/services/create_cases_from_incident_services.py:78-87 | Every known-typed contact appears |
| CaseMapping.ContactListAllKnown | openAPI_IDC/services/create_cases_from_incident_services.py:78-87 | With only known types, contacts map one to one, in order |
| CaseMapping.WithAddress | openAPI_IDC/services/create_cases_from_incident_services.py:89-94 | A truthy address fills the first contact, or becomes the only contact |
| CaseMapping.AssignCaseDetailsValues | openAPI_IDC/services/create_cases_from_incident_services.py:58-109 | The case becomes `Assigned`. On failure, the keys written before the failing expression stay written: two before an empty product list, and all keys up to `drc_commision_rule` before a `Last_Actions` that is not a dictionary |
| CaseMapping.AssignedOutcome | openAPI_IDC/services/create_cases_from_incident_services.py:62-107 | It fails exactly on an empty product list or a `Last_Actions` that is not a dictionary, such as the list the intake model declares. The last payment date is `Last_Actions.Payment_Created`, or None when either key is missing. Both arrears amounts are the incident's arrears (0.0 if absent), and exactly one status entry is appended, with no expiry |
| CaseMapping.FirstProductDecides | openAPI_IDC/services/create_cases_from_incident_services.py:62-72 | With a non-empty product list, mapping fails exactly on a non-dictionary `Last_Actions`. Otherwise `customer_ref` and area come from the first product, and the defaults apply only when the list is absent |
| CaseMapping.CaseContacts | openAPI_IDC/services/create_cases_from_incident_services.py:72-94 | With products present, mapping fails exactly on a non-dictionary `Last_Actions`. Otherwise the case's contacts are the known-typed contacts, with the address placed |
| CaseMapping.MapIncidentToCaseDetails | openAPI_IDC/services/create_cases_from_incident_services.py:111-117 | Fills the template, then writes `case_id`. It gives no case exactly when filling fails: an empty product list, or a `Last_Actions` that is not a dictionary |
| CaseMapping.MappedCaseId | openAPI_IDC/services/create_cases_from_incident_services.py:111-117 | The mapped case carries the allocated id and otherwise equals the filled template |
| PyValues.IntTextInjective | openApi/routes/get_list_case_product.py:67 | Different integers have different `str()` texts |
| ProductListing.TextNamesOneInt | openApi/routes/get_list_case_product.py:67 | A string filter value matches at most one integer value |
| ProductListing.MatchingProducts | openApi/routes/get_list_case_product.py:65-68 | Every kept product matches every non-None filter as text, and every matching product is kept |
| ProductListing.MatchingProductsAppend | openApi/routes/get_list_case_product.py:65-68 | Filtering distributes over concatenation, so order is kept |
| ProductListing.InactiveFiltersKeepAll | openApi/routes/get_list_case_product.py:65-68 | Empty or all-None filters keep every product in order |
| ProductListing.MissingAttributeReadsNone | openApi/routes/get_list_case_product.py:67 | A product lacking a filtered key matches only the string "None" |
| ProductListing.Handled | openApi/routes/get_list_case_product.py:144-150 | A `ValidationError` answers 400; anything else reaches the catch-all and answers 500 |
| ProductListing.HttpStatusAsWritten | openApi/routes/get_list_case_product.py:115-150 | As written, every failure of the count endpoint answers 500, the unknown attribute included (see Findings) |
| ProductListing.HttpStatus | openApi/routes/get_list_case_product.py:115-150 | As intended: not found answers 500, and an unknown attribute answers 400 |
| ProductListing.CountFailureStatus | openApi/routes/get_list_case_product.py:115-150 | As written, every failed count answers 500. As intended, a failed count answers 400 exactly when there are products but none holds the attribute, and 500 otherwise |
| ProductListing.ListingOutcome | openApi/routes/get_list_case_product.py:65-86 | The listing fails exactly when no product matches, and then answers 500 |
| ProductListing.CountAttribute | openApi/routes/get_list_case_product.py:127-131 | The counting loop builds exactly `AttributeCounts` |
| ProductListing.CountsAreOccurrences | openApi/routes/get_list_case_product.py:127-131 | The histogram's keys are the values held, and each count is the number of products holding that value |
| ProductListing.OccurrencesOfHeld | openApi/routes/get_list_case_product.py:129-131 | A held value is counted at least once |
| ProductListing.CountsSumToHolders | openApi/routes/get_list_case_product.py:127-131 | The histogram's counts add up to the number of products that hold the attribute |
| ProductListing.CountOutcome | openApi/routes/get_list_case_product.py:115-131 | If some product holds the attribute, the count succeeds and counts that product's value |
| ProductManager.FirstCase | openApi/routes/product_manager.py:62-72 | `find_one` on cases: the first with the case id and account number |
| ProductManager.FirstIncident | openApi/routes/product_manager.py:86-92 | The first incident with the id |
| ProductManager.Located | openApi/routes/product_manager.py:62-98 | On success, an incident whose `product_details` key is present |
| ProductManager.FindFrom | openApi/routes/product_manager.py:111-117 | `next()` over the generator: the first product with the requested `customer_ref` and `product_seq`. A missing key raises at the first product that lacks it; a miss means every product was readable and none matched |
| ProductManager.ProductStore.constructor | openApi/routes/product_manager.py:62 | A store holding the given cases and incidents |
| ProductManager.ProductStore.ChangeExternalProductStatus | openApi/routes/product_manager.py:49-171 | The reply and incidents become what `Changed` specifies; cases are untouched |
| ProductManager.ProductStore.AddExternalProductDetails | openApi/routes/product_manager.py:200-310 | The reply and incidents become what `Added` specifies; cases are untouched |
| ProductManager.ChangeTouchesOnlyMatch | openApi/routes/product_manager.py:119-167 | A change rewrites only the first matching product of the case's incident, and only its status and `last_updated_on`. A miss or the same status writes nothing |
| ProductManager.ChangeIsIdempotent | openApi/routes/product_manager.py:134-167 | A second identical request finds the status in place, answers so and writes nothing |
| ProductManager.AddAppendsOnlyNew | openApi/routes/product_manager.py:264-306 | An addition appends exactly the stamped product at the end, and only when none matches; otherwise nothing changes |
| ProductManager.AddedProductIsFound | openApi/routes/product_manager.py:264-298 | A product just added is what a search for it finds |
| ProductManager.AddTwiceAddsOnce | openApi/routes/product_manager.py:264-306 | A second identical addition writes nothing and answers that the product already exists |
| ProductManager.CaseLookupFailures | openApi/routes/product_manager.py:62-81 | No matching case, then a falsy `incident_id`, fail in that order |
| ProductManager.LookupFailureWritesNothing | openApi/routes/product_manager.py:70-171 | Any failed lookup answers 500 and writes nothing |
| ProductManager.OnlyFirstProductCounts | openApi/routes/product_manager.py:103-167 | Only the request's first product matters |
| ProductValidation.Collected | openApi/models/product_manager_class.py:49-91 | The `errors` list has at most one message per check; `CollectedExact` states that it holds exactly the failing checks' messages |
| ProductValidation.CollectedExact | openApi/models/product_manager_class.py:63-91 | One message per failure, none when all pass |
| ProductValidation.JoinedHoldsEach | openApi/models/product_manager_class.py:94-97 | Every message occurs in the ", "-joined text |
| ProductValidation.VerdictOutcome | openApi/models/product_manager_class.py:94-100 | A validator accepts iff no check fails, returning the input unchanged; otherwise its one error names every failure |
| ProductValidation.ProductChecks | openApi/models/product_manager_class.py:63-91 | There are ten checks; what passing them means is stated by `ProductAccepted` |
| ProductValidation.ValidateProductDetails | openApi/models/product_manager_class.py:47-100 | The error-accumulating sequence computes exactly `Verdict(ProductChecks)` |
| ProductValidation.ProductAccepted | openApi/models/product_manager_class.py:63-91 | A product passes iff `customer_ref` is truthy, the status is OK, SU, PE or TX, and every other required field is present and not None |
| ProductValidation.ExpectedChecks | openApi/models/product_manager_class.py:109-131 | There are three checks; `ExpectedAccepted` states when all pass, and `ExpectedReportsAll` gives the messages of an all-failing request |
| ProductValidation.ValidateExpectedProductDetails | openApi/models/product_manager_class.py:109-131 | Computes exactly `Verdict(ExpectedChecks)` |
| ProductValidation.ExpectedAccepted | openApi/models/product_manager_class.py:109-131 | A request passes exactly when the case id and account number are truthy and the product list is present and not empty |
| ProductValidation.ExpectedReportsAll | openApi/models/product_manager_class.py:109-131 | A request failing all three checks is refused with all three messages, in order |

## Left out

- **Infrastructure.** MongoDB connections, the `PyMongoError`/`DatabaseError` translations, logging, INI/JSON configuration loading and the HTTP layer beyond status codes are left out. Store failures are outside the model.
- **Concurrency.** "Find max then insert max + 1" and "find latest then insert" are modelled as sequential transitions. Races between concurrent requests are not modelled.
- **Clocks and time zones.** `datetime.now()` is a parameter. Time-zone normalisation in `new_case_transaction` is not modelled: timestamps are a date and a second of the day.
- **Floating point.** Amounts are integers and commission rates exact reals. The Type A floors follow Python's `math.floor` on exact quotients, not float rounding. Float values are reals, so NaN and the infinities are not modelled.
- SelectCriteria.Classify: takes the arrears as a real number, so it does not model a NaN `Arrears`. A float field accepts NaN, every comparison with NaN is false, and the source then writes "Unknown" / "Arrears amount invalid". That branch is kept in `Classify` but no real reaches it.
- PyValues.ParseNumber: reads plain decimal notation only. `float()` also accepts exponents ("1e5"), underscores between digits ("1_000"), "inf", "infinity" and "nan". A band such as "1e5<" therefore reads as a bound in the source but as an unreadable bound, and so "Error", in the model.
- **Cheque monitoring.** The outbound call in `openApi/routes/manage_cheque_payment_for_completing_settlement.py` is kept only as a recorded order with its 14-day deadline.
- **Pydantic models.** Field validation beyond the two validators modelled is left out, as are `model_dump` key layouts.
- LedgerRules.CommissionRecordFor and LedgerStore.DocumentStore.AddToCommission: do not model `Commission_Model`'s `Literal["Payment","CPE","Non-Settlement"]` check on `commission_action`. `add_to_commission` passes "payment" in lower case (`openApi/routes/add_commission.py:104-107`), so in the code building the record always raises pydantic's `ValidationError`. `except PyMongoError` does not catch it. The gates' `except ValidationError` names the project's own exception class, so the error falls to the catch-all and the route answers 500. No commission record is ever written. The model instead writes the record it describes, with action "payment".
- LedgerStore.NewerGateAdmission: treats a stored `settlement_plan: null` like a missing plan and answers with a server error. The code passes `None` on (`openApi/routes/process_money_transaction.py:154-155`). When there has been no negotiation, `new_case_transaction` then answers 200 "Negotiation has not happened yet" before it reads the plan. No route of this model writes a null plan.
- **Message wording.** The wording of f-string reasons, log messages and exception texts is not modelled, except for the conflict details of the settlement routes and the unknown-attribute message of the count endpoint. A reason names its filter, rule and matched values. The `str()` text of floats and datetimes is also not modelled: a float or datetime never matches a string, whether it is the filter value or the field value.
- **Regular expressions and Unicode.** `re`'s Unicode `\b` and `IGNORECASE` are modelled for ASCII letters, digits and `_` only.
- **`$toLower` on a non-string.** A missing or null status lowers to the empty string. Other non-string statuses are not modelled.
- **Incident persistence and case distribution.** Incident persistence, case distribution, ID allocators and the configuration loaders are not part of this model. The configuration documents and query results they produce are parameters.
- **Open-case check.** `get_modified_incident_dict` compares its result with `is True`, which never holds, so the check has no effect and no branch in `IntakePipeline.Modified`.
- **Unreachable handler.** The unreachable `except` in the filter dispatcher is not modelled. Neither is non-dict input to the older `get_f1_filter_result`: the incident is always a dictionary here.
- **Product routes.** Only the first requested product is processed, because every branch returns inside the loop; this is modelled (`ProductManager.OnlyFirstProductCounts`). The positional `$` update is modelled as an update of the first matching product of the first incident with the id. The filter puts two separate conditions on the `Product_Details` array without `$elemMatch`. For such a filter, MongoDB does not say which matching position `$` stands for, so the first matching product is a choice of this model.
- **Mismatched call sites in the ledger routes.** Several calls pass a different number of arguments than the callee declares. In the code each raises `TypeError`, which the route's catch-all answers with 500 "An unexpected error occurred.". The model does not follow the code here. It binds every argument by the meaning of the callee's parameter, so these paths complete as their callees describe. The calls are:
  - `openApi/routes/process_money_transaction.py:161` passes 14 arguments to the 13 parameters of `existing_case_transaction`. The newer gate's existing-case path therefore fails before any write.
  - `openApi/routes/new_case_transaction.py:76` passes 12 arguments to the 11 parameters of `add_to_drc_bonus`. Line 77 passes 7 arguments to the 8 parameters of `add_to_commission`. The new-case path therefore fails after its ledger entry is inserted (line 71) and before any bonus or commission record.
  - `openApi/routes/existing_transaction.py:77` binds its 11 arguments to `add_to_drc_bonus`. Line 78 passes 6 arguments to the 8 parameters of `add_to_commission`. If this path were reached, it would fail after the bonus record is written and before the ledger entry (line 82).
  - `openApi/routes/obtain_money_transaction.py:144` and `:148`, in the older gate, pass 11 and 10 arguments to the 13 parameters of the two path functions. Every older-gate transaction that reaches a path therefore fails before any write. The model passes the request's own `drc_id` and `ro_id` there.

  The members affected are `LedgerStore.DocumentStore.ProcessMoneyTransaction`, `ObtainMoneyTransaction`, `Dispatch`, `RunLedgerStep`, `ExistingCaseTransaction`, `NewCaseTransaction` and `BonusAndCommissionStep`.
- SettlementPlan.SettlementPlanFor: takes the creation time as a valid date-time and the settlement amount as an integer. It therefore does not model three further failures of `generate_settlement_plan`:
  - a missing or null `created_on`, whose `.day` raises `AttributeError`;
  - a `created_on` string not in the form `%m/%d/%Y %H:%M:%S`, on which `strptime` raises `ValueError`;
  - on the Type A branch, a missing `settlement_amount`, which raises `KeyError` at line 89.

  `SettlementPlan.GenerateSettlementPlan` has the same input types.
- ProductListing.DictKey: always writes an integral number key as an integer. The source's dictionary keeps the first key inserted among equal keys, so a histogram whose first value was `1.0` has the key `1.0` where the model has `1`. The counts are the same.
- LedgerStore.DocumentStore.ProcessMoneyTransaction: for an admitted request it states the ledger growth, the kept invariants and a 200-or-500 answer. The exact writes are stated by `ExistingCaseTransaction` and `NewCaseTransaction`, which it runs.
- LedgerStore.DocumentStore.ObtainMoneyTransaction: the same for the earlier gate.
- LedgerStore.DocumentStore.Dispatch: states the answer's kind and the ledger growth. The writes are stated by the path it takes.
- LedgerStore.DocumentStore.RunLedgerStep: states the ledger growth, the kept numbering and that the new-case path leaves the cascade collections alone. The rest is stated by the two paths.
- ProductManager.Located: states only what a success guarantees. Which lookup failed is stated by `CaseLookupFailures` and `LookupFailureWritesNothing`.
- SettlementPlan.TypeAPlan: its own contract states only the length; numbering, due dates, running totals and the final total are separate lemmas.
- SettlementPlan.ListPlan: its own contract states only the length; the other properties are separate lemmas.
- Calendar.LastDayOfMonthByProbe: its own contract states only validity; `LastDayOfMonthByProbeCorrect` and `LastDayOfMonthByProbeProperties` state its result.
- ProductValidation.ProductChecks: states only the number of checks; `ProductAccepted` states the acceptance condition.
- ProductValidation.ExpectedChecks: states only the number of checks. `ExpectedAccepted` states the acceptance condition, and `ExpectedReportsAll` the messages of an all-failing request.

## Findings

| source | as written | input that shows it | evidently intended | confidence | as-written member | corrected member |
|---|---|---|---|---|---|---|
| openApi/routes/get_list_case_product.py:124 | `raise ValidationError(message)` with pydantic's `ValidationError`, which has no one-message constructor. The call raises `TypeError`, which the catch-all at lines 148-150 turns into 500 "An unexpected error occurred." | a case whose products exist but none holds the requested attribute | a validation error carrying the message, which the handler at lines 144-146 answers with 400 and that message | not executed; follows from pydantic's constructor signature | ProductListing.HttpStatusAsWritten (ProductListing.CountFailureStatus) | ProductListing.HttpStatus |
