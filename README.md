# Municipal fiscal management: a verified model

The application tracks a local government's money through one chain.

- The planning office files an Annual Investment Plan (AIP) and its items.
- The budget office opens budget items for a fiscal year and records obligations against them. Each obligation lowers the item's balance.
- Accounting writes double-entry journal entries for obligations and posts them. Posting marks the obligation processed. Accounting also issues vouchers and approves them.
- Treasury disburses approved vouchers, which marks them paid, and records collections.
- HRIS keeps employee records and payrolls.

Every server route sits behind a module check: a user's role names one module, or "admin".

This project models three layers:

- `Store` and the `MemStorage` class in `Storage`: the in-memory store. It has fourteen tables keyed by ids from counters that only grow. Each storage operation is a function on a store value. Each class method performs the same steps in place and is proved equal to that function.
- `Routes`: the module check and the handlers that move money. `Ledger`, `Workflow` and `Dashboard` prove what those handlers keep and promise. The main invariant, `Ledger.Conserved`, says that every budget item's balance equals its amount minus the obligations recorded against it.
- The pages' pure rules: searches and filters, when each button is offered, form defaults, the net-pay and totals arithmetic, the sidebar, and the route guard. Each page module ties its rules to the server model where the two meet.

Amounts are integers (centavos). The clock is a parameter `now`. Strings are sequences of characters, and lowering case is ASCII only.

## Model

| member | source | states |
|---|---|---|
| Seqs.Filter | client/src/pages/treasury/collections.tsx:56-66 | the array filter every page uses: the result holds exactly the elements that pass, never more than the input |
| Seqs.FilterIsSubseq | client/src/pages/accounting/voucher-management.tsx:66-76 | a filtered list keeps the input's order: it is a subsequence of it |
| Store.Get | server/storage.ts:433-435 | a lookup is the row stored under the id, or none when the id is absent |
| Store.InitialState | server/storage.ts:152-191 | the new store is well-formed, every table is empty except roles, and every counter is 1 except the roles counter, which is 12 |
| Store.InitialRoles | server/storage.ts:193-276 | the eleven seeded roles sit under ids 1..11; role 1 is the administrator, and every role belongs to admin or one of the five modules |
| Store.RowsIdsIncrease | server/storage.ts:135-150 | listed ids are at least 1, below the counter and strictly increasing, so insertion order is id order |
| Store.RowsComplete | server/storage.ts:305-307 | listing a table returns exactly its stored rows |
| Store.ListedRowIsStored | server/storage.ts:441-445 | a row found in a listing is the row stored under its own id |
| Store.UserByUsername | server/storage.ts:283-287 | finds a user with that username iff one exists; the user found has that username and is the first such user in insertion order |
| Store.UserByUsernameSmallestId | server/storage.ts:283-287 | under the store invariant the user found has the smallest id among the users with that username |
| Store.UsersByRole | server/storage.ts:309-313 | exactly the users with that role, in table order |
| Store.RolesByModule | server/storage.ts:331-335 | exactly the roles of that module, in table order |
| Store.AipsByFiscalYear | server/storage.ts:359-363 | exactly the AIPs of that year, in table order |
| Store.AipItemsByAipId | server/storage.ts:396-400 | exactly the items of that AIP, in table order |
| Store.BudgetItemsByFiscalYear | server/storage.ts:441-445 | exactly the budget items of that year, in table order |
| Store.BudgetItemsByAipItemId | server/storage.ts:447-451 | exactly the budget items linked to that AIP item; an unlinked item never matches |
| Store.ObligationsByBudgetItemId | server/storage.ts:498-502 | exactly the obligations against that budget item, in table order |
| Store.ObligationsByStatus | server/storage.ts:504-508 | exactly the obligations with that status, in table order |
| Store.JournalEntriesByObligationId | server/storage.ts:545-549 | exactly the entries linked to that obligation, in table order |
| Store.JournalEntryItems | server/storage.ts:577-581 | exactly the items of that entry, in table order |
| Store.VouchersByJournalEntryId | server/storage.ts:605-609 | exactly the vouchers of that entry, in table order |
| Store.VouchersByStatus | server/storage.ts:611-615 | exactly the vouchers with that status, in table order |
| Store.DisbursementsByVoucherId | server/storage.ts:661-665 | exactly the disbursements of that voucher, in table order |
| Store.CollectionsByType | server/storage.ts:702-706 | exactly the collections of that type, in table order |
| Store.EmployeesByDepartment | server/storage.ts:743-747 | exactly the employees of that department, in table order |
| Store.PayrollItems | server/storage.ts:811-815 | exactly the items of that payroll, in table order |
| Store.CreateUserAppends | server/storage.ts:289-294 | the store stays well-formed; the new id is the counter's old value, unused and above every stored id; the user is listed last |
| Store.CreateRoleAppends | server/storage.ts:316-321 | as for users, for roles |
| Store.CreateAipAppends | server/storage.ts:338-349 | as for users, for AIPs |
| Store.CreateAipItemAppends | server/storage.ts:379-390 | as for users, for AIP items |
| Store.CreateBudgetItemAppends | server/storage.ts:420-431 | as for users, for budget items |
| Store.CreateJournalEntryAppends | server/storage.ts:524-535 | as for users, for journal entries |
| Store.CreateJournalEntryItemAppends | server/storage.ts:565-575 | as for users, for journal entry items |
| Store.CreateVoucherAppends | server/storage.ts:584-595 | as for users, for vouchers |
| Store.CreateCollectionAppends | server/storage.ts:681-692 | as for users, for collections |
| Store.CreateEmployeeAppends | server/storage.ts:722-733 | as for users, for employees |
| Store.CreatePayrollAppends | server/storage.ts:763-774 | as for users, for payrolls |
| Store.CreatePayrollItemAppends | server/storage.ts:798-809 | as for users, for payroll items |
| Store.CreateBudgetObligationAppends | server/storage.ts:467-488 | the store stays well-formed and the obligation gets a fresh id and is listed last, including after the balance write-back |
| Store.CreateDisbursementAppends | server/storage.ts:631-651 | the store stays well-formed and the disbursement gets a fresh id and is listed last, including after the voucher is marked paid |
| Store.CreateBudgetObligationEffect | server/storage.ts:467-488 | creating an obligation stores it, lowers the named budget item's balance by the amount and keeps that item's other fields; no other item and no other table changes |
| Store.CreateDisbursementEffect | server/storage.ts:631-651 | creating a disbursement stores it and turns the named voucher "paid", keeping its other fields; nothing else changes |
| Store.JournalEntryItemsAfterCreate | server/storage.ts:565-581 | a new item is listed last among its entry's items, whether or not the entry exists or is posted |
| Store.UpdateUserReplaces | server/storage.ts:296-303 | a missing id changes nothing and returns none; otherwise only that row changes, to the old row with the patch laid over it |
| Store.UpdateAipReplaces | server/storage.ts:365-377 | as for users, and the row's updatedAt becomes now |
| Store.UpdateAipItemReplaces | server/storage.ts:406-418 | as for AIPs, for AIP items |
| Store.UpdateBudgetItemReplaces | server/storage.ts:453-464 | as for AIPs, for budget items |
| Store.UpdateBudgetObligationReplaces | server/storage.ts:510-521 | as for AIPs, for obligations |
| Store.UpdateJournalEntryReplaces | server/storage.ts:551-562 | as for AIPs, for journal entries |
| Store.UpdateVoucherReplaces | server/storage.ts:617-628 | as for AIPs, for vouchers |
| Store.UpdateDisbursementReplaces | server/storage.ts:667-678 | as for AIPs, for disbursements |
| Store.UpdateCollectionReplaces | server/storage.ts:708-719 | as for AIPs, for collections |
| Store.UpdateEmployeeReplaces | server/storage.ts:749-760 | as for AIPs, for employees |
| Store.UpdatePayrollReplaces | server/storage.ts:784-795 | as for AIPs, for payrolls |
| Schema.VoucherStatusPatchKeepsFields | server/storage.ts:617-628 | a status-only patch changes a voucher's status and updatedAt and nothing else |
| Schema.ObligationStatusPatchKeepsFields | server/storage.ts:510-521 | a status-only patch changes an obligation's status and updatedAt and nothing else |
| Schema.BalancePatchKeepsFields | server/storage.ts:453-464 | a balance-only patch changes a budget item's balance and updatedAt and nothing else |
| Storage.MemStorage.constructor | server/storage.ts:152-191 | the new object's tables and counters are the initial store, seeded with the eleven roles |
| Storage.MemStorage.InitializeRoles | server/storage.ts:193-276 | creating the eleven roles one after another on empty tables gives the initial store, which satisfies the store invariant |
| Storage.MemStorage.SeedRole | server/storage.ts:193-276 | one `createRole` call of the seeding: after the first k seed roles, creating the next one gives the store after k + 1, and the invariant is kept |
| Storage.MemStorage.GetRole | server/storage.ts:323-325 | the role stored under the id, or none |
| Storage.MemStorage.GetBudgetItem | server/storage.ts:433-435 | the budget item stored under the id, or none |
| Storage.MemStorage.GetBudgetObligation | server/storage.ts:490-492 | the obligation stored under the id, or none |
| Storage.MemStorage.GetJournalEntry | server/storage.ts:537-539 | the journal entry stored under the id, or none |
| Storage.MemStorage.GetVoucher | server/storage.ts:597-599 | the voucher stored under the id, or none |
| Storage.MemStorage.CreateUser | server/storage.ts:289-294 | takes the counter as the id, bumps it and stores the row; the new state is Store.CreateUser of the old one, so Store.CreateUserAppends applies; like every create and update below, it keeps the store invariant |
| Storage.MemStorage.CreateRole | server/storage.ts:316-321 | the new state is Store.CreateRole of the old one |
| Storage.MemStorage.CreateAip | server/storage.ts:338-349 | the new state is Store.CreateAip of the old one, with both timestamps now |
| Storage.MemStorage.CreateAipItem | server/storage.ts:379-390 | the new state is Store.CreateAipItem of the old one |
| Storage.MemStorage.CreateBudgetItem | server/storage.ts:420-431 | the new state is Store.CreateBudgetItem of the old one |
| Storage.MemStorage.CreateJournalEntry | server/storage.ts:524-535 | the new state is Store.CreateJournalEntry of the old one |
| Storage.MemStorage.CreateJournalEntryItem | server/storage.ts:565-575 | the new state is Store.CreateJournalEntryItem of the old one |
| Storage.MemStorage.CreateVoucher | server/storage.ts:584-595 | the new state is Store.CreateVoucher of the old one |
| Storage.MemStorage.CreateCollection | server/storage.ts:681-692 | the new state is Store.CreateCollection of the old one |
| Storage.MemStorage.CreateEmployee | server/storage.ts:722-733 | the new state is Store.CreateEmployee of the old one |
| Storage.MemStorage.CreatePayroll | server/storage.ts:763-774 | the new state is Store.CreatePayroll of the old one |
| Storage.MemStorage.CreatePayrollItem | server/storage.ts:798-809 | the new state is Store.CreatePayrollItem of the old one |
| Storage.MemStorage.CreateBudgetObligation | server/storage.ts:467-488 | stores the obligation, then writes the lowered balance back to its budget item; the new state is Store.CreateBudgetObligation of the old one (see CreateBudgetObligationEffect) |
| Storage.MemStorage.CreateDisbursement | server/storage.ts:631-651 | stores the disbursement, then marks its voucher paid; the new state is Store.CreateDisbursement of the old one (see CreateDisbursementEffect) |
| Storage.MemStorage.UpdateUser | server/storage.ts:296-303 | the new state and the result are Store.UpdateUser of the old state |
| Storage.MemStorage.UpdateAip | server/storage.ts:365-377 | the new state and the result are Store.UpdateAip of the old state |
| Storage.MemStorage.UpdateAipItem | server/storage.ts:406-418 | the new state and the result are Store.UpdateAipItem of the old state |
| Storage.MemStorage.UpdateBudgetItem | server/storage.ts:453-464 | the new state and the result are Store.UpdateBudgetItem of the old state |
| Storage.MemStorage.UpdateBudgetObligation | server/storage.ts:510-521 | the new state and the result are Store.UpdateBudgetObligation of the old state |
| Storage.MemStorage.UpdateJournalEntry | server/storage.ts:551-562 | the new state and the result are Store.UpdateJournalEntry of the old state |
| Storage.MemStorage.UpdateVoucher | server/storage.ts:617-628 | the new state and the result are Store.UpdateVoucher of the old state |
| Storage.MemStorage.UpdateDisbursement | server/storage.ts:667-678 | the new state and the result are Store.UpdateDisbursement of the old state |
| Storage.MemStorage.UpdateCollection | server/storage.ts:708-719 | the new state and the result are Store.UpdateCollection of the old state |
| Storage.MemStorage.UpdateEmployee | server/storage.ts:749-760 | the new state and the result are Store.UpdateEmployee of the old state |
| Storage.MemStorage.UpdatePayroll | server/storage.ts:784-795 | the new state and the result are Store.UpdatePayroll of the old state |
| Routes.CheckModuleAccess | server/routes.ts:22-48 | lets a request through iff it is signed in with a non-zero role id naming a stored role of the route's module or of admin; a refusal is 401 exactly when there is no session, and 403 otherwise |
| Routes.ServePostBudgetItem | server/routes.ts:205-223 | the store and the response are those of PostBudgetItem: the caller is the creator and the balance starts at the amount |
| Routes.ServePostObligation | server/routes.ts:258-283 | the store and the response are those of PostObligation: 404 for a missing item, 400 when the balance is short, otherwise 201 |
| Routes.ServePutObligation | server/routes.ts:297-317 | the store and the response are those of PutObligation |
| Routes.ServePostJournalEntryItem | server/routes.ts:369-381 | the store and the response are those of PostJournalEntryItem |
| Routes.ServePutJournalEntry | server/routes.ts:383-416 | the store and the response are those of PutJournalEntry, including the posting branch |
| Routes.ServePutVoucher | server/routes.ts:467-493 | the store and the response are those of PutVoucher |
| Routes.ServePostDisbursement | server/routes.ts:509-534 | the store and the response are those of PostDisbursement |
| Routes.Serve | server/routes.ts:22-48 | runs the module check, then the handler; the store and the status code are those of Dispatch |
| Ledger.ObligatedAfterAppend | server/storage.ts:467-488 | a new obligation adds its amount to the total obligated against its own item and leaves every other item's total alone |
| Ledger.NoObligationsOnMissingItem | server/routes.ts:266-268 | while references are intact, an id with no budget item has no obligations against it |
| Ledger.InitialConserved | server/storage.ts:152-191 | the initial store satisfies the conservation invariant |
| Ledger.PostBudgetItemConserves | server/routes.ts:205-223 | a new budget item, whose balance starts at its amount, keeps balance = amount − obligated for every item |
| Ledger.CreateObligationKeepsBalanced | server/storage.ts:467-488 | creating an obligation against a stored item keeps balance = amount − obligated for every item |
| Ledger.CreateObligationKeepsReferences | server/storage.ts:467-488 | an obligation against a stored item keeps every obligation's reference intact |
| Ledger.PostObligationConserves | server/routes.ts:258-283 | the obligation route keeps the invariant: refusals change nothing, and an accepted obligation is against a stored item |
| Ledger.ConservedFrame | server/storage.ts:510-521 | a change that keeps budget items and every obligation's amount and item keeps the invariant |
| Ledger.UpdateObligationKeepsLedger | server/storage.ts:510-521 | a patch without amount or item changes neither budget items nor any obligation's amount or item |
| Ledger.UpdateJournalEntryKeepsLedger | server/storage.ts:551-562 | updating a journal entry leaves the ledger alone |
| Ledger.UpdateVoucherKeepsLedger | server/storage.ts:617-628 | updating a voucher leaves the ledger alone |
| Ledger.CreateJournalEntryItemKeepsLedger | server/storage.ts:565-575 | adding a journal entry item leaves the ledger alone |
| Ledger.CreateDisbursementKeepsLedger | server/storage.ts:631-651 | a disbursement, even though it changes a voucher, leaves the ledger alone |
| Ledger.PutObligationConserves | server/routes.ts:297-317 | processing an obligation without changing its amount or item keeps the invariant |
| Ledger.MarkProcessedConserves | server/routes.ts:401-405 | marking an obligation processed keeps the invariant |
| Ledger.UpdateJournalEntryConserves | server/storage.ts:551-562 | updating a journal entry keeps the invariant |
| Ledger.PutJournalEntryConserves | server/routes.ts:383-416 | the journal entry route, posting or not, keeps the invariant |
| Ledger.PutVoucherConserves | server/routes.ts:467-493 | the voucher route keeps the invariant |
| Ledger.PostDisbursementConserves | server/routes.ts:509-534 | the disbursement route keeps the invariant |
| Ledger.PostJournalEntryItemConserves | server/routes.ts:369-381 | the journal entry item route keeps the invariant |
| Ledger.DispatchConserves | server/routes.ts:22-48 | every request of the fiscal chain, once checked and handled, keeps the invariant (an obligation PUT may not change amount or item) |
| Ledger.DispatchKeepsBalancesNonNegative | server/routes.ts:266-275 | with new items never negative, no request can drive a balance below zero: the 400 guard refuses any obligation larger than the balance |
| Ledger.PostBudgetItemEvolves | server/routes.ts:205-223 | the budget item route adds exactly one item and changes no existing one |
| Ledger.PostObligationEvolves | server/routes.ts:258-283 | the obligation route changes at most the named item, and only its balance |
| Ledger.PutObligationKeepsItems | server/routes.ts:297-317 | updating an obligation leaves the budget items alone |
| Ledger.PostJournalEntryItemKeepsItems | server/routes.ts:369-381 | adding an entry item leaves the budget items alone |
| Ledger.UpdateJournalEntryKeepsItems | server/storage.ts:551-562 | updating an entry leaves the budget items alone |
| Ledger.UpdateObligationKeepsItems | server/storage.ts:510-521 | updating an obligation leaves the budget items alone |
| Ledger.PutJournalEntryKeepsItems | server/routes.ts:383-416 | posting an entry, including marking its obligation processed, leaves the budget items alone |
| Ledger.PutVoucherKeepsItems | server/routes.ts:467-493 | the voucher route leaves the budget items alone |
| Ledger.PostDisbursementKeepsItems | server/routes.ts:509-534 | the disbursement route leaves the budget items alone |
| Ledger.BudgetItemsChangeOnlyThroughObligations | server/routes.ts:205-283 | across every request, budget items appear only through the item route and change only by an obligation lowering a balance |
| Ledger.BalanceAtMostAmount | server/storage.ts:467-488 | under the invariant, with non-negative obligations, no balance exceeds its item's amount |
| Workflow.NewBudgetItemStartsFull | server/routes.ts:205-223 | a new item answers 201, is created by the caller and starts with balance equal to amount |
| Workflow.PostObligationCodes | server/routes.ts:258-283 | the obligation route answers 404 iff the item is missing, 400 iff the balance is below the amount, and 201 otherwise; a refusal changes nothing |
| Workflow.PostObligationAccepted | server/routes.ts:258-283 | an obligation within the balance is stored with the caller as creator, and the item's balance drops by the amount |
| Workflow.ExactBalanceIsAccepted | server/routes.ts:266-275 | an obligation equal to the remaining balance is accepted and leaves the balance at zero |
| Workflow.ObligationsDrawDownOneItem | server/routes.ts:258-283 | on a 1000.00 item, 600.00 is accepted, then 500.00 is refused with 400, then 400.00 is accepted, and the balance ends at zero |
| Workflow.PutObligationStampsProcessor | server/routes.ts:297-317 | a processed obligation records the caller and the time; a missing id answers 404 and changes nothing |
| Workflow.ItemsAcceptedInAnyEntryState | server/routes.ts:369-381 | the item route answers 201 whatever the state of the named entry |
| Workflow.PutJournalEntryMissing | server/routes.ts:383-391 | a missing entry answers 404 and changes nothing |
| Workflow.PostedEntryFields | server/routes.ts:393-398 | posting sets the status, who posted and when, and takes every other field from the body or the entry |
| Workflow.PostingStampsEntry | server/routes.ts:393-411 | posting a stored, unposted entry answers 200 with the entry posted by the caller at now |
| Workflow.PostingProcessesObligation | server/routes.ts:401-405 | posting an entry linked to an obligation marks that obligation processed, and nothing else about it changes |
| Workflow.OtherEntryPutIsPlainPatch | server/routes.ts:410-411 | any other entry update is the body laid over the entry, with no stamps and no obligation change |
| Workflow.PostedEntryCanBeReopened | server/routes.ts:383-416 | the server lets a posted entry go back to draft |
| Workflow.PutVoucherStampsApproval | server/routes.ts:467-493 | approving an unapproved voucher records the caller and the time; any other update is the plain patch; a missing id answers 404 |
| Workflow.ApprovalStampFields | server/routes.ts:477-487 | approval sets the status, who approved and when, and nothing else beyond the body |
| Workflow.ReapprovalKeepsStamps | server/routes.ts:477-487 | re-approving an approved voucher keeps its original approver and time |
| Workflow.PostDisbursementCodes | server/routes.ts:509-534 | the disbursement route answers 404 iff the voucher is missing, 400 iff it is not approved, and 201 otherwise; a refusal changes nothing |
| Workflow.PostDisbursementAccepted | server/routes.ts:509-534 | a disbursement of an approved voucher is stored with the caller as creator, and the voucher becomes paid |
| Workflow.NoSecondDisbursement | server/routes.ts:516-526 | once a voucher is disbursed, a second disbursement of it is refused with 400 |
| Workflow.DeniedRequestChangesNothing | server/routes.ts:22-48 | a request that fails the module check leaves the store unchanged and answers the check's code |
| Workflow.OtherModulesAreClosed | server/routes.ts:38-42 | a user whose role is neither admin nor the route's module gets 403 and changes nothing |
| Workflow.AdminPassesEveryCheck | server/routes.ts:38-42 | an admin role passes every module's check |
| Workflow.RoleIdZeroIsRefused | server/routes.ts:28-30 | role id 0 is refused with 403 "Invalid user role" |
| Dashboard.Percent | server/routes.ts:717-731 | the rounded percentage, within half a point of the exact one, and 0 when the whole is not positive |
| Dashboard.PercentBounds | server/routes.ts:717-731 | a part within the whole gives a percentage between 0 and 100, with 0 for none and 100 for all |
| Dashboard.ItemsOfAipsMembership | server/routes.ts:702-709 | the collected AIP items are exactly the stored items of the listed AIPs |
| Dashboard.CollectAipItems | server/routes.ts:702-709 | the loop over the year's AIPs collects exactly ItemsOfAips |
| Dashboard.ComputeDashboardStats | server/routes.ts:697-743 | reads the store and returns exactly DashboardStats, changing nothing |
| Dashboard.YearItems | server/routes.ts:701-709 | the dashboard counts exactly the items of AIPs of the requested year |
| Dashboard.AipProgressBounds | server/routes.ts:717-721 | the AIP progress is a percentage between 0 and 100 |
| Dashboard.HighPriorityAmongPending | server/routes.ts:732-735 | the high-priority count never exceeds the pending vouchers |
| Dashboard.UsedIsAllocatedLessBalances | server/routes.ts:722-724 | the summed `amount − balance` equals allocated minus the sum of balances |
| Dashboard.UsedIsObligated | server/routes.ts:722-724 | under the ledger invariant, the used amount is the total obligated against the year's items |
| Dashboard.UtilizationBounds | server/routes.ts:722-727 | with non-negative balances and obligations, used lies between 0 and allocated, and the utilization percentage between 0 and 100 |
| JournalEntriesPage.FoldIsSums | client/src/pages/accounting/journal-entries.tsx:221-230 | the reduce over the items gives the sum of debits and the sum of credits |
| JournalEntriesPage.CalculateTotals | client/src/pages/accounting/journal-entries.tsx:216-231 | the totals are the sums of the items' debits and credits, and zero for no items |
| JournalEntriesPage.Imbalance | client/src/pages/accounting/journal-entries.tsx:654-661 | the difference shown is never negative and is zero exactly when the entry is balanced |
| JournalEntriesPage.EmptyEntryIsBalanced | client/src/pages/accounting/journal-entries.tsx:216-234 | an entry without items counts as balanced |
| JournalEntriesPage.TotalsAfterItem | client/src/pages/accounting/journal-entries.tsx:216-231 | one more item adds its debit to the debit total and its credit to the credit total |
| JournalEntriesPage.OneSidedItemUnbalances | client/src/pages/accounting/journal-entries.tsx:216-234 | a one-sided item always unbalances a balanced entry |
| JournalEntriesPage.PostGate | client/src/pages/accounting/journal-entries.tsx:571-575 | Post is enabled exactly for a balanced draft with no post in flight, and shown exactly for drafts |
| JournalEntriesPage.PostedEntryOffersOnlyVoucher | client/src/pages/accounting/journal-entries.tsx:586-591 | a posted entry shows neither Post nor Add Item, only Create Voucher |
| JournalEntriesPage.PostButtonPostsEntry | client/src/pages/accounting/journal-entries.tsx:177-183 | clicking an enabled Post sends a body the server treats as a posting: 200, with the entry posted by the caller at now |
| JournalEntriesPage.ServerPostsUnbalancedEntries | server/routes.ts:383-416 | the server posts any unposted entry whatever its items: the balance rule is enforced only on the page |
| JournalEntriesPage.TypingKeepsOneSided | client/src/pages/accounting/journal-entries.tsx:507-539 | whatever is typed, the item form never holds a positive debit and a positive credit together |
| JournalEntriesPage.LastPositiveInputWins | client/src/pages/accounting/journal-entries.tsx:507-539 | the last positive amount typed stays, and the other side reads 0 |
| JournalEntriesPage.RunOnlyAppends | client/src/pages/accounting/journal-entries.tsx:148-164 | whatever the user does with the Add Item dialog, items are only added at the end, at most one per event |
| JournalEntriesPage.AsWrittenClosedUnbalancedEntryIsStuck | client/src/pages/accounting/journal-entries.tsx:447-569 | as rendered, once the dialog is closed on an unbalanced entry, no sequence of events adds an item or reopens the dialog |
| JournalEntriesPage.AsWrittenFirstItemLocksEntry | client/src/pages/accounting/journal-entries.tsx:447-569 | as rendered, opening the dialog on an empty draft, adding a one-sided item and pressing Cancel adds the item, and Post then stays disabled whatever follows |
| JournalEntriesPage.AsWrittenOpenDialogStillBalances | client/src/pages/accounting/journal-entries.tsx:148-164 | as rendered, the dialog stays open after a successful add, so the balancing item submitted before Cancel is added and Post is enabled |
| JournalEntriesPage.BalancingItem | client/src/pages/accounting/journal-entries.tsx:507-539 | the item that closes the gap is one-sided, non-negative, and its net equals the imbalance |
| JournalEntriesPage.DraftCanAlwaysBeBalanced | client/src/pages/accounting/journal-entries.tsx:447-569 | with Add Item gated on the draft status alone, from any state of a draft, opening the dialog, adding the balancing item and pressing Cancel leaves a balanced entry with Post enabled |
| PayrollPage.SubmittedNetPayOmitsOvertime | client/src/pages/hris/payroll.tsx:176-197 | as written, the net pay sent is basic pay + allowances − deductions (validation against shared/schema.ts:195-205 drops overtime), and it differs from the value shown exactly when the overtime entered is not 0 |
| PayrollPage.AsWrittenSubmitDropsOvertime | client/src/pages/hris/payroll.tsx:176-197 | basic pay 1000.00 and overtime 200.00 show 1200.00 and send 1000.00; the corrected submit sends 1200.00 |
| PayrollPage.SubmitMatchesShown | client/src/pages/hris/payroll.tsx:176-197 | the corrected submit sends the net pay shown, whatever net pay was typed, and still stores no overtime |
| PayrollPage.SubmitIgnoresTypedNetPay | client/src/pages/hris/payroll.tsx:176-187 | as written, the net pay typed into the form does not change what is sent, and no overtime is sent |
| PayrollPage.RecalculatedIsStable | client/src/pages/hris/payroll.tsx:189-197 | pressing Calculate a second time changes nothing, and recalculating first changes neither what the as-written nor what the corrected submit sends |
| PayrollPage.BlankFormIsConsistent | client/src/pages/hris/payroll.tsx:75-100 | the form's defaults already satisfy the net-pay formula, at 0, and both submits send 0 |
| PayrollPage.NetPayComponents | client/src/pages/hris/payroll.tsx:178-197 | pay, overtime and allowances each raise net pay by their own amount, and deductions lower it |
| PayrollPage.UnparsedCountsAsZero | client/src/pages/hris/payroll.tsx:178-197 | empty or unparseable fields count as zero |
| PayrollPage.ReduceIsSum | client/src/pages/hris/payroll.tsx:201-204 | the reduce from an initial value gives that value plus the sum of net pays |
| PayrollPage.TotalPayroll | client/src/pages/hris/payroll.tsx:201-204 | the total is the sum of the items' net pays, and 0 without items |
| PayrollPage.TotalOfAppend | client/src/pages/hris/payroll.tsx:201-204 | the total of two lists of items is the sum of their totals |
| PayrollPage.TotalNonNegative | client/src/pages/hris/payroll.tsx:201-204 | items with non-negative net pay give a non-negative total |
| PayrollPage.FinalizeGate | client/src/pages/hris/payroll.tsx:452-457 | Finalize is enabled exactly for a selected draft with items and no request in flight, and shown exactly when Add Employee is |
| PayrollPage.FilterAsWrittenThrows | client/src/pages/hris/payroll.tsx:66-73 | as written, the search throws iff the query is non-empty and some period misses it; otherwise it returns the intended result |
| PayrollPage.SearchAsWrittenAgrees | client/src/pages/hris/payroll.tsx:66-73 | the same, for the whole search including the not-yet-fetched case |
| PayrollPage.AsWrittenSearchThrows | client/src/pages/hris/payroll.tsx:66-73 | searching "june" over a "May 2025" payroll throws, where the intended search returns an empty list |
| PayrollPage.SearchPayrolls | client/src/pages/hris/payroll.tsx:66-73 | keeps exactly the payrolls whose period mentions the query, or all of them for an empty query, in order |
| PayrollPage.EmptyQueryKeepsAllPayrolls | client/src/pages/hris/payroll.tsx:66-73 | an empty query shows every fetched payroll |
| BudgetObligationPage.FilterBudgetItems | client/src/pages/budget/budget-obligation.tsx:57-63 | nothing before the fetch; an empty query keeps the list as is; otherwise exactly the items whose account code or description mentions the query, in order |
| BudgetObligationPage.SelectedItem | client/src/pages/budget/budget-obligation.tsx:76-78 | the selected item is a fetched item with the selected id, and there is one iff a non-zero id is selected and such an item exists |
| BudgetObligationPage.DefaultFormIsPending | client/src/pages/budget/budget-obligation.tsx:81-99 | a new obligation form names the selected item, the current user as creator, amount 0 and status "pending" |
| BudgetObligationPage.CreateObligationGate | client/src/pages/budget/budget-obligation.tsx:243 | the create button is disabled exactly when the selected item's balance is not positive |
| BudgetObligationPage.AmountWithinMaxIsAccepted | client/src/pages/budget/budget-obligation.tsx:307 | an amount within the form's maximum (the balance) is accepted by the server, lowering that item's balance |
| BudgetObligationPage.AmountAboveMaxIsRefused | server/routes.ts:266-275 | an amount above the balance, which the form's max only hints against, is refused with 400 and changes nothing |
| VoucherManagementPage.FilterVouchers | client/src/pages/accounting/voucher-management.tsx:66-76 | exactly the vouchers of the chosen status ("all" for any) that mention the query in number, payee or description, in order |
| VoucherManagementPage.AllStatusesAndNoQueryKeepEverything | client/src/pages/accounting/voucher-management.tsx:66-76 | "all" with no query shows every fetched voucher |
| VoucherManagementPage.UnusedStatusShowsNothing | client/src/pages/accounting/voucher-management.tsx:66-76 | a status that no voucher has shows nothing |
| VoucherManagementPage.StatusOptionsAreDistinct | client/src/pages/accounting/voucher-management.tsx:166-172 | the status filter offers five distinct options |
| VoucherManagementPage.ApproveStampsVoucher | client/src/pages/accounting/voucher-management.tsx:132-137 | Approve on a listed draft voucher answers 200 and stores it approved by the caller at now, changing nothing else |
| DisbursementsPage.FilterDisbursements | client/src/pages/treasury/disbursements.tsx:64-73 | exactly the disbursements of the chosen status that mention the query, in order |
| DisbursementsPage.AllStatusesAndNoQueryKeepEverything | client/src/pages/treasury/disbursements.tsx:64-73 | "all" with no query shows every fetched disbursement |
| DisbursementsPage.OfferedVouchers | client/src/pages/treasury/disbursements.tsx:48-53 | the vouchers offered are exactly the stored approved ones |
| DisbursementsPage.StoredApprovedIsOffered | client/src/pages/treasury/disbursements.tsx:191-195 | every stored approved voucher appears among the options |
| DisbursementsPage.ChoosingPrefillsVoucherAmount | client/src/pages/treasury/disbursements.tsx:90-100 | choosing an offered voucher sets the form's voucher and copies its amount |
| DisbursementsPage.OfferedVoucherIsPaidInFull | client/src/pages/treasury/disbursements.tsx:182-186 | submitting a chosen offered voucher is accepted and pays that voucher for its full amount |
| DisbursementsPage.UnchosenVoucherIsRefused | server/routes.ts:516-520 | submitting with no voucher chosen answers 404 "Voucher not found" |
| DisbursementsPage.TreasuryUserCannotListVouchers | server/routes.ts:418 | as written, a treasury user's fetch of approved vouchers fails the accounting check with 403 |
| DisbursementsPage.VoucherListAccess | client/src/pages/treasury/disbursements.tsx:48-53 | the intended rule passes a request iff the accounting check or the treasury check would pass it |
| DisbursementsPage.TreasuryUserListsVouchers | client/src/pages/treasury/disbursements.tsx:48-53 | under the intended rule, a treasury user may list the vouchers to disburse |
| CollectionsPage.FilterCollections | client/src/pages/treasury/collections.tsx:56-66 | exactly the collections of the chosen type that mention the query, in order |
| CollectionsPage.AllTypesAndNoQueryKeepEverything | client/src/pages/treasury/collections.tsx:56-66 | "all" with no query shows every fetched collection |
| CollectionsPage.TypeOptionsAreDistinct | client/src/pages/treasury/collections.tsx:128-136 | "all" and the six collection types are distinct options |
| CollectionsPage.NewCollectionIsListedWithDeposit | client/src/pages/treasury/collections.tsx:69-82 | a collection created from the default form is listed last, recorded, and offers Mark as Deposited |
| EmployeeRecordsPage.FilterEmployees | client/src/pages/hris/employee-records.tsx:60-71 | exactly the employees of the chosen department whose names, employee id or position mention the query, in order |
| EmployeeRecordsPage.AllDepartmentsAndNoQueryKeepEverything | client/src/pages/hris/employee-records.tsx:60-71 | "all" with no query shows every fetched employee |
| EmployeeRecordsPage.Departments | client/src/pages/hris/employee-records.tsx:74-76 | the department options have no duplicates, are exactly the departments of the fetched employees, and keep the order the employees list them in |
| EmployeeRecordsPage.NoEmployeesShowNothing | client/src/pages/hris/employee-records.tsx:60-76 | before the fetch, no employees and no departments are shown |
| EmployeeRecordsPage.ListedDepartmentIsInhabited | client/src/pages/hris/employee-records.tsx:60-76 | filtering by a listed department shows at least one employee |
| Sidebar.VisibleItems | client/src/components/layout/sidebar.tsx:197-198 | a section shows exactly its items the role may open, in order |
| Sidebar.VisibleSections | client/src/components/layout/sidebar.tsx:183-186 | exactly the sections with some item the role may open, as a subsequence of the menu, so in menu order |
| Sidebar.SectionShownIffItemsVisible | client/src/components/layout/sidebar.tsx:183-198 | a section is shown iff it would show at least one item |
| Sidebar.DashboardAlwaysFirst | client/src/components/layout/sidebar.tsx:169-180 | the Dashboard link is always shown, and shown first |
| Sidebar.NoRoleSeesOnlyDashboard | client/src/components/layout/sidebar.tsx:138-143 | without a role, the Dashboard is the only link |
| Sidebar.AdminSeesEverything | client/src/components/layout/sidebar.tsx:138-143 | an admin role sees every section and every item |
| Sidebar.ShownSectionShowsAllItems | client/src/components/layout/sidebar.tsx:183-198 | every section's items share one module, so a shown section shows all of them |
| Sidebar.ModuleRoleSeesOwnSection | client/src/components/layout/sidebar.tsx:32-143 | a module role sees exactly its own module's section |
| Sidebar.AgreesWithServer | server/routes.ts:22-48 | for a signed-in user, the sidebar shows a module's links iff the server lets that user into the module |
| ProtectedRoute.DecisionCases | client/src/lib/protected-route.tsx:16-50 | a spinner while loading, else a redirect to /auth without a user, else Access Denied iff a required module is set, the role is known and is neither that module nor admin, else the page |
| ProtectedRoute.MissingRoleRenders | client/src/lib/protected-route.tsx:35-48 | a signed-in user whose role is not loaded gets the page, whatever module is required |
| ProtectedRoute.AgreesWithSidebar | client/src/lib/protected-route.tsx:35-48 | the guard renders a module's page iff the sidebar shows that module's links |
| ProtectedRoute.AgreesWithServer | server/routes.ts:22-48 | for a signed-in user with a stored role, the guard renders a module page iff the server lets the user into that module |

## Left out

- server/storage.ts:818-819 exports `new DatabaseStorage()` as the `storage` the routes use; server/database-storage.ts is not part of this model, which follows the in-memory `MemStorage` instead. Its `createDisbursement` does not mark the voucher paid, so under it Workflow.NoSecondDisbursement and Workflow.PostDisbursementAccepted do not hold: an approved voucher can be disbursed again.
- Asynchrony, promises and concurrent requests are left out. Each operation runs to completion on one store value.
- Request validation (zod schemas), the HTTP 500 paths and the session layer in server/auth.ts are left out. A handler receives an already-validated body and the signed-in user. The one validation effect modelled is the payroll item form dropping `overtime` (PayrollPage.Validated).
- Number parsing and floating point are left out. Amounts are exact integers. The dashboard percentages round the exact ratio, not the floating-point one.
- Dashboard.DashboardStats: the stats route runs no module check, and the model keeps it that way.
- Dashboard.DashboardStats: takes the fiscal year as an integer. The route (server/routes.ts:699) uses the current year when the query has none, which needs a clock, and `Number(...)` gives NaN for a non-numeric one, which matches no AIP; neither is modelled.
- The plain list and fetch routes (GET) are represented by the store queries they call. The other creation routes (AIP, AIP item, journal entry, voucher, collection, employee, payroll, payroll item) are represented by the store creates they call. All but the payroll item route also set `createdBy` to the signed-in user (server/routes.ts:93, 140, 337, 442, 567, 611, 650); the model does not capture that override for them.
- GET /api/dashboard/recent-aip-items is a simple listing and is not part of this model.
- MemStorage enforces neither the unique columns nor the foreign keys of shared/schema.ts. The model does not enforce them either.
- The model assumes update bodies never carry an id or createdAt, so patch types have no such fields. The PUT routes spread `req.body` into the update (server/routes.ts:115, 174, 306, 394, 410, 478, 487), so a real body can overwrite them: for example PUT /api/accounting/voucher/:id with `{"id": 2}` stores the row under its old key with a different id, which breaks the keyed-table invariant that Workflow.NoSecondDisbursement relies on.
- The payroll page queries `/api/hris/payroll/:id/items` and sends `PUT /api/hris/payroll/:id`. Neither route exists in server/routes.ts. The model covers what the page computes, not what those requests would return.
- The payroll form's overtime value is never stored: payroll_items has no overtime column, so validation drops it, and as written it is not even counted in the net pay sent (see Findings).
- Ledger.PutObligationConserves and Ledger.DispatchConserves require the obligation update body to leave amount and budget item unchanged. The server lets a PUT change them without touching the balance, which breaks the invariant.
- Menu entries that have no handler are not modelled as actions: Approve/Cancel obligation, Mark as Cleared, Mark as Deposited, Create Voucher. Only when each is shown is modelled.
- BudgetObligationPage.AmountWithinMaxIsAccepted: the form's `max` attribute is only a hint to the browser, so the server's 400 guard is the real bound (AmountAboveMaxIsRefused).
- Lowering case is ASCII only, with no Unicode case folding.
- DisbursementsPage.ChoosingPrefillsVoucherAmount: assumes the effect that copies the voucher's amount runs. The page calls `React.useEffect` while importing only `useState` from "react" (client/src/pages/treasury/disbursements.tsx:1, 90), and so do client/src/pages/accounting/journal-entries.tsx:104, 117 and client/src/pages/hris/payroll.tsx:103. Unless `React` is in scope as a global, rendering these pages throws; the model assumes it is.
- Rendering, styling, toasts, React Query caching and refetching are left out. So are App.tsx, the home and auth pages, the header and layout, the dashboard components, and the annual-investment-plan and budget-preparation pages.

## Findings

| source | as written | input that shows it | evidently intended | confidence | as-written member | corrected member |
|---|---|---|---|---|---|---|
| client/src/pages/accounting/journal-entries.tsx:447-569 | Add Item is disabled while the entry is unbalanced, and the dialog's only close is Cancel | an empty draft; open Add Item, add one item with debit 100.00 and credit 0, press Cancel: the entry is now unbalanced and Add Item disabled, so the balancing credit can no longer be entered and Post stays disabled (before Cancel it still can, see AsWrittenOpenDialogStillBalances) | Add Item is enabled for any draft, so the balancing item can be added | not executed | JournalEntriesPage.AsWrittenFirstItemLocksEntry | JournalEntriesPage.DraftCanAlwaysBeBalanced |
| client/src/pages/hris/payroll.tsx:66-73 | the search also reads `payroll.description`, which payroll rows do not have (shared/schema.ts:181-193) | a payroll with period "May 2025" and the query "june": the period misses, then lowering the undefined description throws | search the period only, and return no payrolls | not executed | PayrollPage.AsWrittenSearchThrows | PayrollPage.SearchAsWrittenAgrees |
| client/src/pages/treasury/disbursements.tsx:48-53 | the treasury page lists approved vouchers from `/api/accounting/vouchers`, which only accounting and admin roles may open (server/routes.ts:418) | a user whose role's module is "treasury": the fetch answers 403, so no voucher can be chosen | treasury users may list the vouchers they disburse | not executed | DisbursementsPage.TreasuryUserCannotListVouchers | DisbursementsPage.TreasuryUserListsVouchers |
| client/src/pages/hris/payroll.tsx:176-197 | `onSubmitPayrollItem` adds `data.overtime`, but validation against shared/schema.ts:195-205 has already dropped it, while `calculateNetPay` reads the watched field | basic pay 1000.00, overtime 200.00, allowances and deductions 0: the form shows 1200.00 and the request sends 1000.00 | the net pay sent is the net pay shown | not executed | PayrollPage.AsWrittenSubmitDropsOvertime | PayrollPage.SubmitMatchesShown |
