# Timon household-finance back end, modelled in Dafny

Timon keeps a household's bills, savings goals, categories and advances.
An advance ("anticipo") is a sum that is paid back in installments. This
project models the parts of the back end and the front end that compute
something. Each one is modelled together with what it promises:

- **The advance engine.** It creates the payment plan, debits and credits
  the advance as payments change state, and moves an edited payment's
  difference onto the later pending payments. It splits the balance
  pro rata and reads the enum column of periodicities.
- **The bills module.** It builds the search query from the request
  filters, validates and normalises a bill and its charge dates before
  they are written, and decides what deleting a charge date deletes.
- **The savings module.** Every movement written or deleted adjusts the
  saved amount of its goal.
- **The categories module.** It lists "Otros" last, creates or updates a
  category by name, and deletes categories by id.
- **The role checks of the front end** (`useAuth`).
- **The version-bump script** (`incrementVersion`).

Amounts are integer cents. A due date is an absolute month index plus a
day of the month. The database tables are values in the model:

- sequences of rows, in the order the queries ask for;
- maps from goal id to saved amount;
- a set of bill ids.

Absent values are modelled as follows:

- a missing (null) text is `""`;
- a missing numeric id is `0`;
- a NULL suggested installment of an advance is `None`, which the plan
  loop reads as 0 and the post-edit redistribution as `NaN`;
- elsewhere a missing value is `None`.

This way JavaScript truthiness is kept where the source tests it.

Operations that change state in place are methods of classes whose
fields are those tables:

- `Advances.AdvanceLedger`;
- `Bills.BillStore`;
- `Savings.SavingsStore`;
- `Categories.CategoryStore`;
- `Auth.Session`.

Each method is specified by a pure function of the old state. The
properties the source promises are proved as lemmas about those
functions. Loops in the source are methods with loop invariants, proved
equal to their specification function:

- the plan generation `while` loop;
- the pending-balance loop;
- the top-up, trim and spread loops of the redistribution;
- the pro-rata loop;
- the filter loops of `getRecibos`;
- the charge loop of `pushRecibo`;
- the update loop of `pushCategoria`.

The in-place `splice`/`push` of `getCategorias` works on an `array`.

Modules, one per file:

| module | file |
|---|---|
| `Common` | `common.dfy` |
| `Text` | `text.dfy` |
| `Payments` | `payments.dfy` |
| `PaymentPlan` | `plan.dfy` |
| `ProRata` | `prorata.dfy` |
| `Redistribution` | `redistribution.dfy` |
| `Advances` | `advances.dfy` |
| `EnumColumn` | `enum_column.dfy` |
| `Bills` | `bills.dfy` |
| `Savings` | `savings.dfy` |
| `Categories` | `categories.dfy` |
| `Auth` | `auth.dfy` |
| `Version` | `version.dfy` |

## Model

| member | source | states |
|---|---|---|
| Text.SplitJoin | backend/src/db/db_utilsAdv.mjs:227-229 | splitting a list joined by a separator that none of its items contains gives the list back |
| Text.JoinSplit | backend/src/db/db_utilsAdv.mjs:228 | joining the pieces of a split with the same separator gives the text back |
| Text.Number | scripts/incrementVersion.js:13 | `Number` gives a value exactly for texts made only of digits |
| Text.ValueOfDigits | scripts/incrementVersion.js:25 | reading the decimal digits printed for a number gives the number back |
| Text.Lower | backend/src/db/db_utilsCats.mjs:20 | lower-casing keeps the length and folds each letter A-Z to a-z, other characters unchanged |
| Text.Remove | backend/src/db/db_utilsAdv.mjs:229 | removing a character keeps exactly the other characters |
| Payments.InsertByDate | backend/src/db/db_utilsAdv.mjs:311-320 | a new payment joins the payments ordered by due date: one more row, same multiset plus the new one, pending sum grows by its pending part |
| Payments.InsertByDateOrdered | backend/src/db/db_utilsAdv.mjs:127 | inserting by date keeps the list in due-date order |
| Payments.InsertByDateAt | backend/src/db/db_utilsAdv.mjs:127 | the new payment lands after every payment not later than it; the payments before and after it keep their order |
| Payments.RemoveAtFacts | backend/src/db/db_utilsAdv.mjs:589 | removing a payment drops one row, keeps the others in order and lowers the pending sum by its pending part |
| Payments.RemoveAtOrdered | backend/src/db/db_utilsAdv.mjs:589 | removing a payment keeps the list in due-date order |
| Payments.IndexOf | backend/src/db/db_utilsAdv.mjs:581-584 | finds the payment with the id, or reports that no payment has it |
| Payments.Positions | backend/src/db/db_utilsAdv.mjs:385 | selects exactly the positions whose payment satisfies the condition, in increasing order |
| Payments.LastPending | backend/src/db/db_utilsAdv.mjs:546 | the chronologically last pending payment, or none when no payment is pending |
| Payments.SumPendingUpdate | backend/src/db/db_utilsAdv.mjs:535-537 | replacing one payment changes the pending total by the difference of the two contributions |
| Payments.Reconcile | backend/src/db/db_utilsAdv.mjs:542-554 | when the pending payments miss the balance by more than a cent, only the last pending payment changes, by the whole discrepancy but not below one cent; otherwise nothing changes |
| Payments.ReconcileWithin | backend/src/db/db_utilsAdv.mjs:542-554 | after reconciliation the pending payments are within a cent of the balance, unless the last one was floored at one cent |
| PaymentPlan.MonthsFromPeriodicityTable | backend/src/db/db_utilsAdv.mjs:183-196 | mensual 1, bimestral 2, trimestral 3, anual 12 months; every other periodicity 0 |
| PaymentPlan.PlanShape | backend/src/db/db_utilsAdv.mjs:152-166 | each created installment is regular and pending, its amount is min(balance left, suggested), each is `months` after the previous one, ids count up; there are ceil(balance / suggested) of them |
| PaymentPlan.PlanSum | backend/src/db/db_utilsAdv.mjs:152-166 | the created installments add up to the balance (nothing when it is not positive) |
| PaymentPlan.PlanOrdered | backend/src/db/db_utilsAdv.mjs:143-166 | created installments never run backwards in time |
| PaymentPlan.PlanExample | backend/src/db/db_utilsAdv.mjs:152-166 | 1000.00 at 300.00 monthly gives 300, 300, 300, 100 a month apart |
| ProRata.RoundDiv | backend/src/db/db_utilsAdv.mjs:663 | the quotient rounded to the cent is within half a cent per payment of the exact share |
| ProRata.InstallmentsShape | backend/src/db/db_utilsAdv.mjs:666-671 | with the remainder in exact cents, the first abs(ajuste) payments carry a one-cent correction towards it, the others get exactly the rounded share |
| ProRata.InstallmentsSum | backend/src/db/db_utilsAdv.mjs:664-671 | with the remainder in exact cents, when it fits in the payments, the corrections use it up |
| ProRata.SplitFacts | backend/src/db/db_utilsAdv.mjs:660-671 | the split in exact cents adds up to the balance, no two payments differ by more than a cent, and the extra cents go to the earliest |
| ProRata.SplitExample | backend/src/db/db_utilsAdv.mjs:660-671 | in exact cents, 100.00 over three payments splits as 33.34, 33.33, 33.33 |
| ProRata.SplitInOrder | backend/src/db/db_utilsAdv.mjs:664-671 | the adjustment loop, run on an exact remainder in cents, computes the split |
| Redistribution.SortBy | backend/src/db/db_utilsAdv.mjs:415 | the sort returns a permutation of the positions |
| Redistribution.SortByOrders | backend/src/db/db_utilsAdv.mjs:414-415 | the positions come out in ascending (or descending) order of amount |
| Redistribution.InsertSortedStable | backend/src/db/db_utilsAdv.mjs:415 | inserting a position puts it before the positions of equal amount and reorders none of them |
| Redistribution.SortByStable | backend/src/db/db_utilsAdv.mjs:414-415 | the sort is stable: positions of equal amount keep their date order, so the earlier one is topped up or trimmed first |
| Redistribution.TopUpConserves | backend/src/db/db_utilsAdv.mjs:417-428 | what phase 1 adds to the payments is exactly what it uses of the surplus |
| Redistribution.TopUpLeft | backend/src/db/db_utilsAdv.mjs:422-424 | the surplus only shrinks and never below zero |
| Redistribution.TopUpChanges | backend/src/db/db_utilsAdv.mjs:421-423 | phase 1 raises only listed payments that were below the suggested installment, never above it, and lowers nothing |
| Redistribution.TopUpGreedy | backend/src/db/db_utilsAdv.mjs:417-428 | surplus is left over only when every listed payment has reached the suggested installment |
| Redistribution.TopUpExhausted | backend/src/db/db_utilsAdv.mjs:418 | once the surplus is used up, phase 1 changes nothing more |
| Redistribution.TrimConserves | backend/src/db/db_utilsAdv.mjs:479-490 | what the deficit phase 1 takes from the payments is exactly what it counts as taken |
| Redistribution.TrimTaken | backend/src/db/db_utilsAdv.mjs:480-488 | the amount taken only grows and never past the deficit |
| Redistribution.TrimChanges | backend/src/db/db_utilsAdv.mjs:479-486 | the deficit phase 1 lowers only listed payments above the suggested installment, never below it, and raises nothing |
| Redistribution.TrimTouched | backend/src/db/db_utilsAdv.mjs:479-486 | every payment changed by the deficit phase 1 is marked touched, and only listed ones are |
| Redistribution.TrimShort | backend/src/db/db_utilsAdv.mjs:479-490 | the deficit phase 1 stops short only when every listed payment is down to the suggested installment |
| Redistribution.TrimSettled | backend/src/db/db_utilsAdv.mjs:488 | once the whole deficit is taken, nothing more changes |
| Redistribution.ShareTotalClosed | backend/src/db/db_utilsAdv.mjs:436-457 | the spread shares add up to the whole units per payment, the extra units and the extra cents handed out |
| Redistribution.EvenSpreadUpSum | backend/src/db/db_utilsAdv.mjs:431-466 | spreading upwards hands out the whole amount, except the cents beyond one per payment |
| Redistribution.EvenSpreadUpFrame | backend/src/db/db_utilsAdv.mjs:444-465 | spreading upwards lowers no payment and changes only the listed ones |
| Redistribution.EvenSpreadDownSum | backend/src/db/db_utilsAdv.mjs:494-524 | spreading downwards takes at most the amount, and gains nothing when each listed payment holds a cent |
| Redistribution.EvenSpreadDownFrame | backend/src/db/db_utilsAdv.mjs:503-520 | spreading downwards changes only the listed payments and each keeps at least one cent |
| Redistribution.TopUpInOrder | backend/src/db/db_utilsAdv.mjs:417-428 | the top-up loop with its `break` computes phase 1 |
| Redistribution.TrimInOrder | backend/src/db/db_utilsAdv.mjs:479-490 | the trim loop with its skip and `break` computes the deficit phase 1 |
| Redistribution.SpreadEvenly | backend/src/db/db_utilsAdv.mjs:444-465 | the spread loop with its running `resto` computes the even spread |
| Redistribution.RedistributeDifference | backend/src/db/db_utilsAdv.mjs:408-524 | the surplus and deficit loops compute the redistribution |
| Redistribution.RedistributeSurplus | backend/src/db/db_utilsAdv.mjs:408-466 | surplus: no payment goes down, only candidates change, and the payments gain the difference less the cents that do not fit one per candidate |
| Redistribution.RedistributeSurplusGreedy | backend/src/db/db_utilsAdv.mjs:417-466 | with a numeric suggested installment, surplus left after phase 1 means every candidate reached it |
| Redistribution.RedistributeDeficitFrame | backend/src/db/db_utilsAdv.mjs:476-524 | deficit: only candidates change; phase 1 changes a payment only for a numeric suggested installment and keeps it at or above it; phase 2 leaves phase 1's payments alone and keeps at least a cent |
| Redistribution.DeficitSpreadFrame | backend/src/db/db_utilsAdv.mjs:494-524 | deficit phase 2 changes only the candidates phase 1 left untouched |
| Redistribution.DeficitSpreadFloor | backend/src/db/db_utilsAdv.mjs:518 | a payment deficit phase 2 changes keeps at least one cent |
| Redistribution.RedistributeDeficitSum | backend/src/db/db_utilsAdv.mjs:476-524 | deficit: the payments lose at most the difference, exactly it when phase 1 absorbs it, and never gain when every candidate holds a cent |
| Redistribution.RedistributeExample | backend/src/db/db_utilsAdv.mjs:408-466 | 300, 200(edited), 300, 100 with suggested 300: the 100 absorbs the freed 100 |
| Redistribution.RedistributeWithoutSuggested | backend/src/db/db_utilsAdv.mjs:379-524 | with a NULL suggested installment (`NaN`) neither phase 1 changes anything: a surplus is spread whole over the candidates, a deficit of more than a cent is taken whole from all of them |
| Redistribution.NullSuggestedExample | backend/src/db/db_utilsAdv.mjs:379-524 | later payments of 100.00 and 50.00, NULL suggested installment, edit up by 60.00: they become 70.00 and 20.00 |
| Advances.Debit | backend/src/db/db_utilsAdv.mjs:279-289 | paying debits the amount and completes the advance exactly when the balance reaches zero; nothing else changes |
| Advances.Credit | backend/src/db/db_utilsAdv.mjs:292-302 | reverting credits the previous amount and reopens a completed advance whose balance becomes positive; nothing else changes |
| Advances.StatusSameState | backend/src/db/db_utilsAdv.mjs:278-302 | an edit that keeps the payment's state leaves the advance alone |
| Advances.StatusRoundTrip | backend/src/db/db_utilsAdv.mjs:279-302 | paying and then reverting the same amount restores the balance |
| Advances.DebitCompletes | backend/src/db/db_utilsAdv.mjs:285-288 | paying completes the advance iff the balance reaches zero or it was completed |
| Advances.CreditReopens | backend/src/db/db_utilsAdv.mjs:298-301 | reverting reopens iff the advance was completed and its balance becomes positive |
| Advances.TransitionsKeepConsistent | backend/src/db/db_utilsAdv.mjs:279-302 | debit and credit keep "a completed advance has no positive balance" |
| Advances.DeletionCreditAsWritten | backend/src/db/db_utilsAdv.mjs:593-596 | deleting a paid payment credits its amount and leaves the status as it is |
| Advances.DeletionLeavesCompleted | backend/src/db/db_utilsAdv.mjs:593-596 | a completed advance that loses a paid payment stays completed with a positive balance |
| Advances.DeletionCreditExample | backend/src/db/db_utilsAdv.mjs:593-596 | deleting a paid 300.00 from 700.00 outstanding brings the balance back to 1000.00 |
| Advances.EffectiveTerms | backend/src/db/db_utilsAdv.mjs:108-115 | the given plan terms are used when all are truthy, otherwise all four stored ones |
| Advances.FirstDue | backend/src/db/db_utilsAdv.mjs:143-148 | the first new installment is due on the start date without payments (the epoch when absent), else `months` after the last payment |
| Advances.FirstDueAfterAll | backend/src/db/db_utilsAdv.mjs:143-148 | no existing payment is due after the first new installment |
| Advances.PlanAppendValid | backend/src/db/db_utilsAdv.mjs:143-166 | appending the generated plan keeps the payments in date order with fresh distinct ids |
| Advances.LaterPositions | backend/src/db/db_utilsAdv.mjs:385 | the candidates are exactly the pending payments dated after the edited payment's old date |
| Advances.MoveDifference | backend/src/db/db_utilsAdv.mjs:407-531 | only the later pending payments change, and only in amount |
| Advances.Difference | backend/src/db/db_utilsAdv.mjs:364-372 | the freed amount is zero iff the amount did not change, positive iff the payment shrank |
| Advances.PostEdit | backend/src/db/db_utilsAdv.mjs:352-571 | no difference or no later pending payment: nothing changes; otherwise only later pending payments and the last pending one change, only in amount, and the pending total ends within a cent of the balance unless floored; a NULL suggested installment is passed on as `NaN` |
| Advances.PostEditExample | backend/src/db/db_utilsAdv.mjs:352-571 | editing the second of 300, 300, 300, 100 to 200 gives 300, 200, 300, 200 |
| Advances.PostEditInOrder | backend/src/db/db_utilsAdv.mjs:395-554 | the update steps compute the post-edit payments, with a NULL suggested installment as `NaN`, and change amounts only |
| Advances.SumPendingAmounts | backend/src/db/db_utilsAdv.mjs:132-138 | the pending total is the sum of the pending amounts |
| Advances.ReplacePendingAmounts | backend/src/db/db_utilsAdv.mjs:666-671 | the pending payments receive exactly the new amounts, in order |
| Advances.ProRataOutcome | backend/src/db/db_utilsAdv.mjs:640-680 | after the pro-rata recalculation in exact cents the pending payments add up to the balance and differ by at most a cent |
| Advances.ApplyPendingAmounts | backend/src/db/db_utilsAdv.mjs:666-671 | the update loop gives the pending payments the new amounts in date order and changes nothing else |
| Advances.AmountsOnlyValid | backend/src/db/db_utilsAdv.mjs:528-531 | changing amounts only keeps the ledger's date order and ids |
| Advances.InsertFreshValid | backend/src/db/db_utilsAdv.mjs:311-320 | inserting a payment with a fresh id keeps the ledger invariant |
| Advances.RemoveValid | backend/src/db/db_utilsAdv.mjs:589 | removing a payment keeps the ledger invariant and no payment keeps its id |
| Advances.ReplaceValid | backend/src/db/db_utilsAdv.mjs:267-275 | rewriting a payment (possibly with a new date) keeps the ledger invariant |
| Advances.AdvanceRow | backend/src/db/db_utilsAdv.mjs:45-57 | the stored row has the given values and is completed when the total is zero |
| Advances.PendingBalance | backend/src/db/db_utilsAdv.mjs:135-138 | the loop leaves the total minus every pending amount |
| Advances.GenerateInstallments | backend/src/db/db_utilsAdv.mjs:151-166 | the `while` loop creates exactly the plan and reports the date of its last installment |
| Advances.ReplanCovers | backend/src/db/db_utilsAdv.mjs:126-166 | after a regeneration the pending payments add up to the total, unless they already exceeded it and nothing is added |
| Advances.WithPlanEnd | backend/src/db/db_utilsAdv.mjs:169-172 | the expected end date moves to the last new installment, and stays when none is created |
| Advances.EditSum | backend/src/db/db_utilsAdv.mjs:261-275 | an edit replaces the edited payment's pending contribution and keeps every other payment |
| Advances.AdvanceLedger.RecalculatePaymentPlan | backend/src/db/db_utilsAdv.mjs:99-181 | a missing advance fails and changes nothing; otherwise the regenerated plan is appended after the payments, the ids advance and the end date moves |
| Advances.AdvanceLedger.ExtendPlan | backend/src/db/db_utilsAdv.mjs:126-172 | appends the plan for the uncovered balance and moves the end date |
| Advances.AdvanceLedger.Create | backend/src/db/db_utilsAdv.mjs:63-89 | a new advance row, completed at zero total, with its first plan when periodicity and suggested installment are truthy |
| Advances.AdvanceLedger.PushAdvance | backend/src/db/db_utilsAdv.mjs:45-62 | the row is overwritten (missing row untouched), completed at zero, and re-planned when periodicity and suggested installment are truthy, which fails for a missing row |
| Advances.AdvanceLedger.RecalculatePostEditPayments | backend/src/db/db_utilsAdv.mjs:352-571 | no difference: nothing; missing advance: fails; an undefined previous date (the unknown payment's) fails at the bind of the later-payments query; otherwise the payments become `PostEdit` of the old ones |
| Advances.AdvanceLedger.UpdatePago | backend/src/db/db_utilsAdv.mjs:259-308 | the payment is rewritten, the advance debited or credited by the state change, and a changed pending amount redistributed (failing without the advance, and failing for an unknown payment id, whose date is undefined) |
| Advances.PriorOf | backend/src/db/db_utilsAdv.mjs:261-264 | the date read before an edit is absent exactly when no payment has the id, and then the payment reads as unpaid with amount 0; otherwise it is that payment's state, amount and date |
| Advances.AdvanceLedger.RewritePago | backend/src/db/db_utilsAdv.mjs:261-302 | returns what the payment was; rewrites it and applies the status change |
| Advances.AdvanceLedger.InsertPago | backend/src/db/db_utilsAdv.mjs:309-342 | the payment is inserted by date; a paid one debits; an extraordinary one re-plans from the stored terms when the advance exists |
| Advances.AdvanceLedger.PushPago | backend/src/db/db_utilsAdv.mjs:254-350 | id 0 inserts (the new payment by date, the debit, the regenerated plan for an extraordinary payment); any other id updates, applies the status change and redistributes, with the same outcomes and payment lists as the update path |
| Advances.AdvanceLedger.DeletePago | backend/src/db/db_utilsAdv.mjs:573-603 | an unknown id fails and changes nothing; otherwise the payment goes, the pending total drops by its part, and a paid amount is credited with the corrected `Credit` of the first finding |
| Advances.AdvanceLedger.HandlePaymentDeletion | backend/src/db/db_utilsAdv.mjs:605-638 | as the deletion: the payment goes and the advance becomes the corrected `Credit` of a paid amount; the balance returned is the old balance plus a paid amount (0 without the advance row) |
| Advances.AdvanceLedger.RecalculatePendingPayments | backend/src/db/db_utilsAdv.mjs:640-680 | no pending payment: nothing; missing advance: fails; otherwise the pending payments get the pro-rata split of the balance in exact cents, in date order |
| Advances.AdvanceLedger.DeleteAdvances | backend/src/db/db_utilsAdv.mjs:198-220 | a single id is a one-element list; an empty list fails; a listed advance loses its payments and its row; others are untouched |
| EnumColumn.EnumBody | backend/src/db/db_utilsAdv.mjs:227 | no body exactly when the pattern matches nowhere; a body is a non-empty text without `)` |
| EnumColumn.ParseEnum | backend/src/db/db_utilsAdv.mjs:227-229 | fails exactly when the pattern does not match; otherwise at least one value, none holding a quote, comma or `)` |
| EnumColumn.ParseEnumType | backend/src/db/db_utilsAdv.mjs:222-236 | reading the column type printed for a list of plain values gives the list back |
| EnumColumn.PeriodicitiesExample | backend/src/db/db_utilsAdv.mjs:222-236 | the periodicity column reads as mensual, bimestral, trimestral, anual |
| EnumColumn.NotAnEnum | backend/src/db/db_utilsAdv.mjs:227 | an empty or unclosed enum body does not match |
| Bills.RenderHoles | backend/src/db/db_utils.mjs:51-71 | the query text has exactly one `?` per placeholder when the fixed words hold none |
| Bills.FirstInvalid | backend/src/db/db_utils.mjs:44-48 | reports the first key not among the valid filters, or none when all are valid |
| Bills.ActivoFlag | backend/src/db/db_utils.mjs:61-65 | `activo` binds 1 exactly for true, 'true', 1 and '1', else 0 |
| Bills.ClauseFor | backend/src/db/db_utils.mjs:52-70 | null and undefined add nothing; a non-text fecha is a TypeError; every clause binds one value per placeholder |
| Bills.Search | backend/src/db/db_utils.mjs:25-71 | a successful search binds exactly one parameter per placeholder |
| Bills.SearchInvalidIff | backend/src/db/db_utils.mjs:41-48 | the search fails as invalid iff a key other than the request id is not a valid filter |
| Bills.BuildErrors | backend/src/db/db_utils.mjs:57 | valid filters can only fail on a fecha that is not text |
| Bills.NullFilterAddsNothing | backend/src/db/db_utils.mjs:52 | an undefined or null filter adds neither words nor parameters |
| Bills.RequestIdIgnored | backend/src/db/db_utils.mjs:41 | the request id parameter makes no difference |
| Bills.ColumnClauses | backend/src/db/db_utils.mjs:54-68 | año compares the charge's year, estado the charge's column, other keys the bill's column |
| Bills.FechaClauses | backend/src/db/db_utils.mjs:57-68 | a fecha with an 'a' is a range of its first two pieces, otherwise it is compared whole |
| Bills.FechaRange | backend/src/db/db_utils.mjs:57-60 | `from` + 'a' + `to` binds `from` and `to` as the range |
| Bills.GetRecibos | backend/src/db/db_utils.mjs:40-71 | the validation and build loops compute the search |
| Bills.DropNullFechas | backend/src/db/db_utils.mjs:130 | keeps exactly the charges whose date is not strictly null |
| Bills.FieldError | backend/src/db/db_utils.mjs:143-154 | no error iff concepto is text of at most 30, periodicidad and categoria are valid, importe is a non-negative number |
| Bills.NormalActivo | backend/src/db/db_utils.mjs:164-169 | `activo` becomes 0 or 1, and 0 exactly for false, 0 and '' |
| Bills.CheckCargo | backend/src/db/db_utils.mjs:156-169 | a charge passes iff its truthy date converts and its status is valid; it passes with `activo` normalised |
| Bills.CheckCargos | backend/src/db/db_utils.mjs:155-170 | all charges pass iff each passes, and each comes out normalised in place |
| Bills.CheckCargosFirstError | backend/src/db/db_utils.mjs:155-170 | a failure is the error of the first failing charge |
| Bills.ValidateRecibo | backend/src/db/db_utils.mjs:122-170 | success implies the required fields, a non-empty array, valid fields and every `activo` 0 or 1 |
| Bills.RequiredIff | backend/src/db/db_utils.mjs:123-125 | the missing-fields error is raised iff some field is falsy or cargo is not an array |
| Bills.ZeroImporteMissing | backend/src/db/db_utils.mjs:123 | an importe of 0 is reported as missing |
| Bills.MensualKeepsFirst | backend/src/db/db_utils.mjs:131-134 | a monthly bill writes exactly its first charge, normalised |
| Bills.OthersDropNullDates | backend/src/db/db_utils.mjs:129-130 | other bills write the charges whose date is not null, in order, normalised |
| Bills.NormaliseCargos | backend/src/db/db_utils.mjs:155-170 | the charge loop computes the checked charges |
| Bills.ChargesOf | backend/src/db/db_utils.mjs:272 | the count is zero iff no charge of the bill is left |
| Bills.ParentDeletedIff | backend/src/db/db_utils.mjs:248-287 | the bill row goes iff the bill is monthly or none of its charges is left |
| Bills.ShortcutAgrees | backend/src/db/db_utils.mjs:248-258 | the bimonthly/quarterly shortcut does what the general path does without a date |
| Bills.DeleteKeepsOthers | backend/src/db/db_utils.mjs:260-287 | other bills and their charges stay; charges of the bill stay only on another date of a non-monthly bill |
| Bills.DeleteAnswer | backend/src/db/db_utils.mjs:248-287 | the answer is whether the bill row existed, or true when charges are left |
| Bills.BillStore.DeleteRecibo | backend/src/db/db_utils.mjs:242-295 | the tables and the answer are those of `DeleteBill` |
| Bills.BillStore.PushRecibo | backend/src/db/db_utils.mjs:120-215 | the validation result, except that a truthy id not naming a bill fails as not found; the id names a bill as a number, a boolean (1 or 0) or decimal text |
| Bills.TextIdNamesSameBill | backend/src/db/db_utils.mjs:176-180 | an id sent as the decimal text of a number selects exactly the bill the number selects, and is truthy |
| Savings.Push | backend/src/db/db_utilsSav.mjs:116-144 | missing fecha or tipo fails before any write; otherwise the goal's saved amount grows by the full amount and an insert takes the next id |
| Savings.Delete | backend/src/db/db_utilsSav.mjs:146-172 | an unknown id fails; otherwise the movement goes and its goal loses its amount |
| Savings.InsertThenDelete | backend/src/db/db_utilsSav.mjs:116-172 | inserting a movement and deleting it restores both tables |
| Savings.PushValid | backend/src/db/db_utilsSav.mjs:125-133 | writing a movement keeps the ids distinct and below the next id |
| Savings.DeleteValid | backend/src/db/db_utilsSav.mjs:160 | deleting a movement keeps the book valid |
| Savings.InsertKeepsOffset | backend/src/db/db_utilsSav.mjs:130-136 | an insert moves the saved amount with the movement sum |
| Savings.DeleteKeepsOffset | backend/src/db/db_utilsSav.mjs:152-164 | a deletion moves the saved amount with the movement sum |
| Savings.UpdateCountsTwice | backend/src/db/db_utilsSav.mjs:125-136 | editing 100.00 to 150.00 leaves the goal 100.00 above its movements |
| Savings.PushCorrected | backend/src/db/db_utilsSav.mjs:125-136 | the movements are written as the source writes them, and an update moves the saved amount by the difference |
| Savings.PushCorrectedKeepsOffset | backend/src/db/db_utilsSav.mjs:125-136 | with the corrected update every push keeps the saved amount in step with the movements |
| Savings.DeleteGoals | backend/src/db/db_utilsSav.mjs:67-84 | an empty list fails; otherwise exactly the listed goals go and the movements stay |
| Savings.SavingsStore.PushMovimiento | backend/src/db/db_utilsSav.mjs:116-144 | the store becomes `PushCorrected` of the old contents (the corrected update of the second finding), or is unchanged on failure |
| Savings.SavingsStore.DeleteMovimiento | backend/src/db/db_utilsSav.mjs:146-172 | the store becomes `Delete` of the old contents, or is unchanged on failure |
| Savings.SavingsStore.DeleteSavings | backend/src/db/db_utilsSav.mjs:67-84 | the store becomes `DeleteGoals` of the old contents, or is unchanged on failure |
| Categories.FindOtros | backend/src/db/db_utilsCats.mjs:20 | the first row named "otros" in any case, or none |
| Categories.IsOtrosLower | backend/src/db/db_utilsCats.mjs:20 | the name test is exactly `toLowerCase() === 'otros'` |
| Categories.OtrosLastPermutation | backend/src/db/db_utilsCats.mjs:20-24 | the listing holds the same rows |
| Categories.OtrosLastMoves | backend/src/db/db_utilsCats.mjs:21-24 | the first "otros" row ends last and the others keep their order |
| Categories.OtrosLastAbsent | backend/src/db/db_utilsCats.mjs:21 | without an "otros" row the listing is unchanged |
| Categories.OtrosLastIdempotent | backend/src/db/db_utilsCats.mjs:20-24 | with one "otros" row, listing twice is listing once |
| Categories.MoveOtrosLast | backend/src/db/db_utilsCats.mjs:20-24 | the in-place splice and push give the "otros"-last order |
| Categories.NameOrDefault | backend/src/db/db_utilsCats.mjs:46 | a missing or empty name becomes "Sin nombre", any other is kept |
| Categories.CategoryStore.PushCategoria | backend/src/db/db_utilsCats.mjs:34-55 | an existing name's rows get the new description unless it is missing; otherwise one row is inserted; afterwards the name exists |
| Categories.CategoryStore.DeleteCategorias | backend/src/db/db_utilsCats.mjs:57-75 | an empty list fails; otherwise exactly the rows whose id is listed (read as numbers) go |
| Categories.Keep | backend/src/db/db_utilsCats.mjs:67 | keeps exactly the rows whose id is not listed |
| Categories.DeleteOneIsArray | backend/src/db/db_utilsCats.mjs:61-63 | a single id deletes what the one-element array deletes |
| Auth.IsAuthenticated | src/composables/useAuth.js:69 | authenticated iff a user is loaded |
| Auth.UserRole | src/composables/useAuth.js:70 | no role without a user or with an empty role; otherwise the user's role |
| Auth.HasAnyRole | src/composables/useAuth.js:107-110 | true iff the user has one of the listed roles, and only when authenticated |
| Auth.RoleChain | src/composables/useAuth.js:113-119 | an administrator is a user, a user can read, a reader is authenticated |
| Auth.CanReadExactly | src/composables/useAuth.js:74-119 | reading is allowed exactly for the four defined roles |
| Auth.IsUserExactly | src/composables/useAuth.js:116 | a user is exactly an administrator or a standard user |
| Auth.NoRolesNoAccess | src/composables/useAuth.js:107-110 | an empty role list admits nobody |
| Auth.NoRoleChecks | src/composables/useAuth.js:102-119 | without a role every check fails except asking for the null role |
| Auth.Session.LoadUser | src/composables/useAuth.js:82-99 | local storage first, then session storage; a decoded user replaces the current one, a decode failure clears it, nothing stored keeps it |
| Auth.Session.Logout | src/composables/useAuth.js:122-129 | the user is cleared, so no check passes afterwards |
| Version.Increment | scripts/incrementVersion.js:15-23 | the new version is strictly greater |
| Version.IncrementNoCarry | scripts/incrementVersion.js:15 | a patch below 9 moves up by one |
| Version.IncrementPatchCarry | scripts/incrementVersion.js:16-18 | a patch of 9 wraps to 0 and carries into the minor number |
| Version.IncrementMinorCarry | scripts/incrementVersion.js:19-22 | a minor of 9 wraps too and carries into the major number |
| Version.IncrementKeepsDigits | scripts/incrementVersion.js:15-23 | digit minor and patch numbers stay digits |
| Version.IncrementCounts | scripts/incrementVersion.js:15-23 | on digit versions the bump is the successor of a decimal counter: nothing is skipped |
| Version.ParseShow | scripts/incrementVersion.js:13-25 | reading a printed version gives it back |
| Version.IncrementVersion | scripts/incrementVersion.js:12-26 | a result exists iff the text reads as three numbers |
| Version.IncrementVersionShown | scripts/incrementVersion.js:12-26 | bumping a printed version prints the incremented one, which reads back greater |
| Version.IncrementVersionMinorCarryString | scripts/incrementVersion.js:12-26 | "9.9.9" becomes "10.0.0" |
| Version.IncrementVersionEmptyNumbers | scripts/incrementVersion.js:13 | ".." reads as 0.0.0 and becomes "0.0.1" |

## Left out

- **Not modelled: I/O and the process around it.**
  - The database connection, transactions and rollbacks.
  - Console output, `localStorage` and `sessionStorage` writes.
  - The router redirect on logout.
  - Reading and writing `package.json`.
- **Not modelled: the fixed SQL text.** The fixed `SELECT ... WHERE 1=1`
  text of `getRecibos` and the rows the database returns. The model
  stops at the conditions and their parameters.
- **Floating point is replaced by integer cents.** These effects are lost:
  - `toFixed(2)` rounding;
  - the `1e-10` zero test;
  - the `0.01` thresholds, read as "differs by more than a cent";
  - `parseFloat` of numeric text (of NULL it is `NaN`, which is modelled);
  - remainders that do not reach exactly 0 (the pro-rata split and the
    plan balance, below).
- **JavaScript `Date` is left out.**
  - Time zones and `toISOString` are not modelled.
  - Dates are (month, day), and `setMonth` keeps the day. Overflow into
    the next month is not modelled.
  - The `YYYY-MM-DD` check of `pushRecibo` is the parameter `dateOk`.
  - `deleteRecibo` takes the date as `YYYY-MM-DD` text.
- **JSON parsing is a parameter.** `loadUser` takes it as `decode`.
- **Values read from the database are parameters.** The lists that
  `getValidValues` reads (categories, periodicities, statuses) are
  parameters of `pushRecibo`.
- **`NaN` is modelled as an absent value.**
  - `Number` of text that is not digits gives `None`.
  - Leading and trailing whitespace, signs, decimals and `0x` forms are
    not read.
- **Numbers in requests are integers.**
- **Case folding is ASCII only.**
  - `toLowerCase` folds only A-Z.
  - The database's case-insensitive collation of category names is not
    modelled; names match exactly.
  - The length check on `concepto` counts characters, not UTF-16 units.
- **Object keys keep their insertion order.** JavaScript lists
  integer-like keys first; the model does not.
- **Not all value kinds are modelled.**
  - An array or object passed as a `fecha` filter is not modelled. Any
    non-text value fails as `value.includes` would.
  - A `cargo` argument that is an array-like object is not modelled.
- **`pushRecibo`'s writes after validation are left out.** These are:
  - the `activo` read from `cargo[0]` before normalisation and written to
    every charge;
  - the empty `estado` written as `pendiente`;
  - the update and insert statements.

  The model covers the validation, the normalised charges and the
  not-found error, with the id read as `WHERE id = ?` reads it (`IdKey`):
  a number, a boolean as 1 or 0, or decimal digits as text.
- **An empty id list is a failure.** `deleteAdvances`, `deleteSavings` and
  `deleteCategorias` build `IN ()` from it, which MySQL rejects.
- **Deleting a savings goal keeps its movements.** No cascade is modelled
  (`DeleteGoals`).
- **Savings' own `getPeriodicidades` is not a separate member.** Its parser
  is the same as the advance one (`EnumColumn`).
- **Each advance is a separate ledger.** `AdvanceLedger` holds one
  advance and its payments, and `DeleteAdvances` deletes from that one
  ledger. Payments of other advances are not modelled.
- **Only the rows a deletion leaves are modelled.**
  `Advances.AdvanceLedger.DeleteAdvances` and
  `Categories.CategoryStore.DeleteCategorias` do not model the
  affected-row counts.
- **The pro-rata split is computed in exact cents.** The source computes
  the remainder `ajuste` in doubles, where it need not reach exactly 0.
  Then more payments get +0.01, later ones can get −0.01, and the split
  can miss the balance by a cent. With lines 663-668 in doubles,
  100.00 over three payments gives 33.34, 33.34, 33.32, and 50.00 over
  seven adds up to 50.01. The members below state the exact-cents split
  instead; this drift is not modelled.
- `ProRata.InstallmentsShape`: states the correction pattern for an exact
  remainder; the source's float residual can correct more payments.
- `ProRata.InstallmentsSum`: states that the corrections use up an exact
  remainder; the source's float residual can leave a cent over or under.
- `ProRata.SplitFacts`: the exact sum and the one-cent spread hold for the
  split in cents, not for the source's float loop.
- `ProRata.SplitExample`: 33.34, 33.33, 33.33 is the split in cents; the
  source's float loop gives 33.34, 33.34, 33.32.
- `ProRata.SplitInOrder`: the loop runs on an exact remainder, so it
  computes the split in cents, not the source's float result.
- `Advances.ProRataOutcome`: the exact sum holds for the split in cents,
  not for the amounts the source writes.
- `Advances.AdvanceLedger.RecalculatePendingPayments`: writes the split in
  cents, not the source's float split.
- `Advances.PendingBalance`: the balance left is exact. In doubles, after
  a float split such as 333.34, 333.32, 333.34 of 1000.00, the source's
  `saldoRestante` is a tiny positive residual, and its plan loop then adds
  an installment that is stored as 0.00. The model adds none.
- **DECIMAL columns are read as numbers.** The connection pool is created
  without `decimalNumbers`, so the driver returns DECIMAL columns as text.
  When `recalculatePaymentPlan` re-reads the stored terms and no payment
  is pending, `saldoRestante > pago_sugerido` at line 153 compares two
  texts. For example, "50.00" > "300.00" holds, so 50.00 left gets one
  300.00 installment. The model compares the numbers. Whether the columns
  are DECIMAL is not part of this model.
- `Advances.AdvanceLedger.RecalculatePaymentPlan`: with stored terms, the
  text comparison above is not modelled; the plan is the numeric one.
- `Advances.AdvanceLedger.Create`: when a term is falsy (such as a missing
  start date), the stored terms are re-read as text. 1000.00 at 300.00
  then gives one 1000.00 installment in the source; the model gives 300,
  300, 300, 100.
- `Advances.AdvanceLedger.PushAdvance`: a re-plan with a falsy term re-reads
  the stored terms as text; the text comparison is not modelled.
- `Advances.AdvanceLedger.InsertPago`: the re-plan after an extraordinary
  payment reads the stored terms as text; the text comparison is not
  modelled.
- `Advances.AdvanceLedger.DeletePago`: credits through the corrected
  `Advances.Credit`, which reopens a completed advance whose balance
  becomes positive. Lines 593-596 only add to `importe_total` (first
  finding, as written in `Advances.DeletionCreditAsWritten`).
- `Advances.AdvanceLedger.HandlePaymentDeletion`: credits through the
  corrected `Advances.Credit` like `DeletePago`. Lines 623-625 only add to
  `importe_total`.
- `Savings.SavingsStore.PushMovimiento`: an update moves the goal's saved
  amount by the difference (`Savings.PushCorrected`). Line 136 adds the
  full new amount (second finding, as written in `Savings.Push`).
- `Advances.AdvanceLedger.DeleteAdvances`: ids are numbers. Text ids,
  which MySQL would compare as numbers, are not modelled.
- `PaymentPlan.PlanTerminates`: the plan is generated only when the loop
  ends. That needs a positive suggested installment or nothing left to
  plan. The loop that never ends (suggested installment 0 with a
  positive balance) is excluded by a precondition of the members that
  regenerate the plan.
- `Bills.BillStore.PushRecibo`: a text id is read as a bill id only when
  it is all decimal digits. Text that MySQL would still convert to a
  number (leading spaces, a sign, a decimal point, trailing non-digits
  after a numeric prefix) is read as naming no bill, so the model reports
  it as not found.
- `Redistribution.EvenSpreadUpSum`: the cents that do not fit one per
  payment are lost, as in the source.
  - `centavosExtra` can exceed the number of payments.
  - The model states the exact loss rather than claiming conservation.

## Findings

| source | as written | input that shows it | evidently intended | confidence | as-written member | corrected member |
|---|---|---|---|---|---|---|
| backend/src/db/db_utilsAdv.mjs:593-596 | deleting a paid payment credits its amount but leaves the advance's status as it was | a completed advance (balance 0) whose paid payment of 300.00 is deleted: balance 300.00, still completed | reopen a completed advance whose balance becomes positive, as the paid-to-pending edit at lines 296-301 does | not executed | Advances.DeletionLeavesCompleted | Advances.TransitionsKeepConsistent |
| backend/src/db/db_utilsSav.mjs:125-136 | updating a movement adds the full new amount to the goal's saved amount | a movement of 100.00 edited to 150.00: the goal grows by 150.00 and ends 100.00 above the sum of its movements | add the difference between the new and the old amount | not executed | Savings.UpdateCountsTwice | Savings.PushCorrectedKeepsOffset |
