/**
 * The tables of shared/schema.ts as Dafny records.
 *
 * Conventions: `numeric` amounts are `Money`, an integer number of centavos;
 * `timestamp` columns are `Time`, an abstract clock reading; nullable columns
 * are `Option`s; `serial` ids and integer references are `nat`.
 *
 * The insert schemas omit `id`, `createdAt` and `updatedAt`; here a create
 * operation receives a whole record and overwrites those three fields, which
 * is what the store's object spread `{ ...insert, id, createdAt, updatedAt }`
 * does with whatever the payload carried in them.
 */
module Schema {
  import opened Wrappers

  type Money = int
  type Time = nat

  // Status words used by the workflow.
  const Draft := "draft"
  const Submitted := "submitted"
  const Approved := "approved"
  const Rejected := "rejected"
  const InProgress := "in_progress"
  const Completed := "completed"
  const Active := "active"
  const Pending := "pending"
  const Processed := "processed"
  const Cancelled := "cancelled"
  const Posted := "posted"
  const Paid := "paid"
  const Issued := "issued"
  const Cleared := "cleared"
  const Recorded := "recorded"
  const Deposited := "deposited"
  const Finalized := "finalized"

  // Module names a role can carry.
  const Admin := "admin"
  const Planning := "planning"
  const Budget := "budget"
  const Accounting := "accounting"
  const Treasury := "treasury"
  const Hris := "hris"

  // Column defaults of the `status` columns (applied by the database when a
  // payload leaves the column out).
  const AipDefaultStatus := Draft
  const AipItemDefaultStatus := Draft
  const BudgetItemDefaultStatus := Active
  const ObligationDefaultStatus := Pending
  const JournalEntryDefaultStatus := Draft
  const VoucherDefaultStatus := Draft
  const DisbursementDefaultStatus := Issued
  const CollectionDefaultStatus := Recorded
  const EmployeeDefaultStatus := Active
  const PayrollDefaultStatus := Draft

  /** Default of the nullable `debit`/`credit` columns of a journal entry item. */
  const ItemAmountDefault: Money := 0

  datatype Role = Role(
    id: nat, name: string, moduleName: string, isEncoder: bool, permissions: seq<string>)

  datatype User = User(
    id: nat, username: string, password: string, fullName: string, email: string,
    roleId: nat, department: Option<string>, position: Option<string>, active: bool,
    lastLogin: Option<Time>)

  datatype Aip = Aip(
    id: nat, fiscalYear: int, title: string, description: Option<string>, status: string,
    totalBudget: Money, createdBy: nat, createdAt: Time, updatedAt: Time,
    approvedBy: Option<nat>, approvedAt: Option<Time>)

  datatype AipItem = AipItem(
    id: nat, aipId: nat, projectName: string, sector: string, description: Option<string>,
    location: Option<string>, budget: Money, startDate: Option<Time>, endDate: Option<Time>,
    status: string, createdBy: nat, createdAt: Time, updatedAt: Time)

  datatype BudgetItem = BudgetItem(
    id: nat, aipItemId: Option<nat>, fiscalYear: int, accountCode: string, description: string,
    amount: Money, balance: Money, status: string, createdBy: nat, createdAt: Time, updatedAt: Time)

  /** An obligation always names its budget item (the reference is required). */
  datatype BudgetObligation = BudgetObligation(
    id: nat, budgetItemId: nat, obligationNumber: string, payee: string, description: string,
    amount: Money, obligationDate: Time, status: string, createdBy: nat, createdAt: Time,
    updatedAt: Time, processedBy: Option<nat>, processedAt: Option<Time>)

  /** A journal entry may or may not come from an obligation (the reference is optional). */
  datatype JournalEntry = JournalEntry(
    id: nat, obligationId: Option<nat>, entryNumber: string, entryDate: Time, description: string,
    status: string, createdBy: nat, createdAt: Time, updatedAt: Time,
    postedBy: Option<nat>, postedAt: Option<Time>)

  /** `debit` and `credit` are nullable columns defaulting to 0. */
  datatype JournalEntryItem = JournalEntryItem(
    id: nat, journalEntryId: nat, accountCode: string, accountTitle: string,
    debit: Option<Money>, credit: Option<Money>, createdAt: Time)

  /** A voucher always names its journal entry. */
  datatype Voucher = Voucher(
    id: nat, journalEntryId: nat, voucherNumber: string, payee: string, description: string,
    amount: Money, voucherDate: Time, status: string, createdBy: nat, createdAt: Time,
    updatedAt: Time, approvedBy: Option<nat>, approvedAt: Option<Time>)

  /** A disbursement always names its voucher. */
  datatype Disbursement = Disbursement(
    id: nat, voucherId: nat, checkNumber: string, bankAccount: string, amount: Money,
    disbursementDate: Time, status: string, createdBy: nat, createdAt: Time, updatedAt: Time)

  datatype Collection = Collection(
    id: nat, receiptNumber: string, collectionDate: Time, payor: string, description: string,
    amount: Money, collectionType: string, accountCode: string, status: string,
    createdBy: nat, createdAt: Time, updatedAt: Time)

  datatype Employee = Employee(
    id: nat, employeeId: string, firstName: string, middleName: Option<string>,
    lastName: string, birthDate: string, gender: string, address: string,
    contactNumber: string, email: string, department: string, position: string,
    salary: Money, dateHired: string, status: string, createdBy: nat,
    createdAt: Time, updatedAt: Time)

  datatype Payroll = Payroll(
    id: nat, payrollPeriod: string, startDate: string, endDate: string, totalAmount: Money,
    status: string, createdBy: nat, createdAt: Time, updatedAt: Time,
    approvedBy: Option<nat>, approvedAt: Option<Time>)

  /** `allowances` and `deductions` are nullable columns defaulting to 0. */
  datatype PayrollItem = PayrollItem(
    id: nat, payrollId: nat, employeeId: nat, basicPay: Money, allowances: Option<Money>,
    deductions: Option<Money>, netPay: Money, createdAt: Time, updatedAt: Time)

  /*
   * Partial records (`Partial<T>` bodies of PUT requests and of the store's own
   * read-modify-write): a field is `Some` when the body carries it. Nullable
   * columns carry `Option<Option<_>>` so that an explicit null can be sent.
   */

  datatype AipPatch = AipPatch(
    fiscalYear: Option<int>, title: Option<string>, description: Option<Option<string>>,
    status: Option<string>, totalBudget: Option<Money>, createdBy: Option<nat>,
    approvedBy: Option<Option<nat>>, approvedAt: Option<Option<Time>>)

  datatype AipItemPatch = AipItemPatch(
    aipId: Option<nat>, projectName: Option<string>, sector: Option<string>,
    description: Option<Option<string>>, location: Option<Option<string>>, budget: Option<Money>,
    startDate: Option<Option<Time>>, endDate: Option<Option<Time>>, status: Option<string>,
    createdBy: Option<nat>)

  datatype BudgetItemPatch = BudgetItemPatch(
    aipItemId: Option<Option<nat>>, fiscalYear: Option<int>, accountCode: Option<string>,
    description: Option<string>, amount: Option<Money>, balance: Option<Money>,
    status: Option<string>, createdBy: Option<nat>)

  datatype ObligationPatch = ObligationPatch(
    budgetItemId: Option<nat>, obligationNumber: Option<string>, payee: Option<string>,
    description: Option<string>, amount: Option<Money>, obligationDate: Option<Time>,
    status: Option<string>, createdBy: Option<nat>, processedBy: Option<Option<nat>>,
    processedAt: Option<Option<Time>>)

  datatype JournalEntryPatch = JournalEntryPatch(
    obligationId: Option<Option<nat>>, entryNumber: Option<string>, entryDate: Option<Time>,
    description: Option<string>, status: Option<string>, createdBy: Option<nat>,
    postedBy: Option<Option<nat>>, postedAt: Option<Option<Time>>)

  datatype VoucherPatch = VoucherPatch(
    journalEntryId: Option<nat>, voucherNumber: Option<string>, payee: Option<string>,
    description: Option<string>, amount: Option<Money>, voucherDate: Option<Time>,
    status: Option<string>, createdBy: Option<nat>, approvedBy: Option<Option<nat>>,
    approvedAt: Option<Option<Time>>)

  datatype DisbursementPatch = DisbursementPatch(
    voucherId: Option<nat>, checkNumber: Option<string>, bankAccount: Option<string>,
    amount: Option<Money>, disbursementDate: Option<Time>, status: Option<string>,
    createdBy: Option<nat>)

  datatype UserPatch = UserPatch(
    username: Option<string>, password: Option<string>, fullName: Option<string>,
    email: Option<string>, roleId: Option<nat>, department: Option<Option<string>>,
    position: Option<Option<string>>, active: Option<bool>, lastLogin: Option<Option<Time>>)

  datatype CollectionPatch = CollectionPatch(
    receiptNumber: Option<string>, collectionDate: Option<Time>, payor: Option<string>,
    description: Option<string>, amount: Option<Money>, collectionType: Option<string>,
    accountCode: Option<string>, status: Option<string>, createdBy: Option<nat>)

  datatype EmployeePatch = EmployeePatch(
    employeeId: Option<string>, firstName: Option<string>, middleName: Option<Option<string>>,
    lastName: Option<string>, birthDate: Option<string>, gender: Option<string>,
    address: Option<string>, contactNumber: Option<string>, email: Option<string>,
    department: Option<string>, position: Option<string>, salary: Option<Money>,
    dateHired: Option<string>, status: Option<string>, createdBy: Option<nat>)

  datatype PayrollPatch = PayrollPatch(
    payrollPeriod: Option<string>, startDate: Option<string>, endDate: Option<string>,
    totalAmount: Option<Money>, status: Option<string>, createdBy: Option<nat>,
    approvedBy: Option<Option<nat>>, approvedAt: Option<Option<Time>>)

  /** The body `{ balance }` that obligation creation writes back to the budget item. */
  function BalanceOnly(balance: Money): BudgetItemPatch {
    BudgetItemPatch(None, None, None, None, None, Some(balance), None, None)
  }

  /** The body `{ status }`. */
  function ObligationStatusOnly(status: string): ObligationPatch {
    ObligationPatch(None, None, None, None, None, None, Some(status), None, None, None)
  }

  function JournalEntryStatusOnly(status: string): JournalEntryPatch {
    JournalEntryPatch(None, None, None, None, Some(status), None, None, None)
  }

  function VoucherStatusOnly(status: string): VoucherPatch {
    VoucherPatch(None, None, None, None, None, None, Some(status), None, None, None)
  }

  /*
   * `{ ...row, ...patch, updatedAt: now }`: every field the patch carries
   * replaces the stored one, every other field is kept, and `updatedAt` is
   * the time of the update.
   */

  function ApplyAipPatch(a: Aip, p: AipPatch, now: Time): Aip {
    a.(fiscalYear := p.fiscalYear.GetOr(a.fiscalYear), title := p.title.GetOr(a.title),
       description := p.description.GetOr(a.description), status := p.status.GetOr(a.status),
       totalBudget := p.totalBudget.GetOr(a.totalBudget), createdBy := p.createdBy.GetOr(a.createdBy),
       approvedBy := p.approvedBy.GetOr(a.approvedBy), approvedAt := p.approvedAt.GetOr(a.approvedAt),
       updatedAt := now)
  }

  function ApplyAipItemPatch(a: AipItem, p: AipItemPatch, now: Time): AipItem {
    a.(aipId := p.aipId.GetOr(a.aipId), projectName := p.projectName.GetOr(a.projectName),
       sector := p.sector.GetOr(a.sector), description := p.description.GetOr(a.description),
       location := p.location.GetOr(a.location), budget := p.budget.GetOr(a.budget),
       startDate := p.startDate.GetOr(a.startDate), endDate := p.endDate.GetOr(a.endDate),
       status := p.status.GetOr(a.status), createdBy := p.createdBy.GetOr(a.createdBy),
       updatedAt := now)
  }

  function ApplyBudgetItemPatch(b: BudgetItem, p: BudgetItemPatch, now: Time): BudgetItem {
    b.(aipItemId := p.aipItemId.GetOr(b.aipItemId), fiscalYear := p.fiscalYear.GetOr(b.fiscalYear),
       accountCode := p.accountCode.GetOr(b.accountCode), description := p.description.GetOr(b.description),
       amount := p.amount.GetOr(b.amount), balance := p.balance.GetOr(b.balance),
       status := p.status.GetOr(b.status), createdBy := p.createdBy.GetOr(b.createdBy),
       updatedAt := now)
  }

  function ApplyObligationPatch(o: BudgetObligation, p: ObligationPatch, now: Time): BudgetObligation {
    o.(budgetItemId := p.budgetItemId.GetOr(o.budgetItemId),
       obligationNumber := p.obligationNumber.GetOr(o.obligationNumber),
       payee := p.payee.GetOr(o.payee), description := p.description.GetOr(o.description),
       amount := p.amount.GetOr(o.amount), obligationDate := p.obligationDate.GetOr(o.obligationDate),
       status := p.status.GetOr(o.status), createdBy := p.createdBy.GetOr(o.createdBy),
       processedBy := p.processedBy.GetOr(o.processedBy), processedAt := p.processedAt.GetOr(o.processedAt),
       updatedAt := now)
  }

  function ApplyJournalEntryPatch(e: JournalEntry, p: JournalEntryPatch, now: Time): JournalEntry {
    e.(obligationId := p.obligationId.GetOr(e.obligationId), entryNumber := p.entryNumber.GetOr(e.entryNumber),
       entryDate := p.entryDate.GetOr(e.entryDate), description := p.description.GetOr(e.description),
       status := p.status.GetOr(e.status), createdBy := p.createdBy.GetOr(e.createdBy),
       postedBy := p.postedBy.GetOr(e.postedBy), postedAt := p.postedAt.GetOr(e.postedAt),
       updatedAt := now)
  }

  function ApplyVoucherPatch(v: Voucher, p: VoucherPatch, now: Time): Voucher {
    v.(journalEntryId := p.journalEntryId.GetOr(v.journalEntryId),
       voucherNumber := p.voucherNumber.GetOr(v.voucherNumber), payee := p.payee.GetOr(v.payee),
       description := p.description.GetOr(v.description), amount := p.amount.GetOr(v.amount),
       voucherDate := p.voucherDate.GetOr(v.voucherDate), status := p.status.GetOr(v.status),
       createdBy := p.createdBy.GetOr(v.createdBy), approvedBy := p.approvedBy.GetOr(v.approvedBy),
       approvedAt := p.approvedAt.GetOr(v.approvedAt), updatedAt := now)
  }

  function ApplyDisbursementPatch(d: Disbursement, p: DisbursementPatch, now: Time): Disbursement {
    d.(voucherId := p.voucherId.GetOr(d.voucherId), checkNumber := p.checkNumber.GetOr(d.checkNumber),
       bankAccount := p.bankAccount.GetOr(d.bankAccount), amount := p.amount.GetOr(d.amount),
       disbursementDate := p.disbursementDate.GetOr(d.disbursementDate), status := p.status.GetOr(d.status),
       createdBy := p.createdBy.GetOr(d.createdBy), updatedAt := now)
  }

  /** Users carry no timestamps: `{ ...user, ...patch }` sets no `updatedAt`. */
  function ApplyUserPatch(u: User, p: UserPatch): User {
    u.(username := p.username.GetOr(u.username), password := p.password.GetOr(u.password),
       fullName := p.fullName.GetOr(u.fullName), email := p.email.GetOr(u.email),
       roleId := p.roleId.GetOr(u.roleId), department := p.department.GetOr(u.department),
       position := p.position.GetOr(u.position), active := p.active.GetOr(u.active),
       lastLogin := p.lastLogin.GetOr(u.lastLogin))
  }

  function ApplyCollectionPatch(c: Collection, p: CollectionPatch, now: Time): Collection {
    c.(receiptNumber := p.receiptNumber.GetOr(c.receiptNumber),
       collectionDate := p.collectionDate.GetOr(c.collectionDate), payor := p.payor.GetOr(c.payor),
       description := p.description.GetOr(c.description), amount := p.amount.GetOr(c.amount),
       collectionType := p.collectionType.GetOr(c.collectionType),
       accountCode := p.accountCode.GetOr(c.accountCode), status := p.status.GetOr(c.status),
       createdBy := p.createdBy.GetOr(c.createdBy), updatedAt := now)
  }

  function ApplyEmployeePatch(e: Employee, p: EmployeePatch, now: Time): Employee {
    e.(employeeId := p.employeeId.GetOr(e.employeeId), firstName := p.firstName.GetOr(e.firstName),
       middleName := p.middleName.GetOr(e.middleName), lastName := p.lastName.GetOr(e.lastName),
       birthDate := p.birthDate.GetOr(e.birthDate), gender := p.gender.GetOr(e.gender),
       address := p.address.GetOr(e.address), contactNumber := p.contactNumber.GetOr(e.contactNumber),
       email := p.email.GetOr(e.email), department := p.department.GetOr(e.department),
       position := p.position.GetOr(e.position), salary := p.salary.GetOr(e.salary),
       dateHired := p.dateHired.GetOr(e.dateHired), status := p.status.GetOr(e.status),
       createdBy := p.createdBy.GetOr(e.createdBy), updatedAt := now)
  }

  function ApplyPayrollPatch(r: Payroll, p: PayrollPatch, now: Time): Payroll {
    r.(payrollPeriod := p.payrollPeriod.GetOr(r.payrollPeriod), startDate := p.startDate.GetOr(r.startDate),
       endDate := p.endDate.GetOr(r.endDate), totalAmount := p.totalAmount.GetOr(r.totalAmount),
       status := p.status.GetOr(r.status), createdBy := p.createdBy.GetOr(r.createdBy),
       approvedBy := p.approvedBy.GetOr(r.approvedBy), approvedAt := p.approvedAt.GetOr(r.approvedAt),
       updatedAt := now)
  }

  /** A status-only patch changes the status and `updatedAt` and keeps every other field. */
  lemma VoucherStatusPatchKeepsFields(v: Voucher, status: string, now: Time)
    ensures ApplyVoucherPatch(v, VoucherStatusOnly(status), now) == v.(status := status, updatedAt := now)
  {
  }

  lemma ObligationStatusPatchKeepsFields(o: BudgetObligation, status: string, now: Time)
    ensures ApplyObligationPatch(o, ObligationStatusOnly(status), now) == o.(status := status, updatedAt := now)
  {
  }

  lemma BalancePatchKeepsFields(b: BudgetItem, balance: Money, now: Time)
    ensures ApplyBudgetItemPatch(b, BalanceOnly(balance), now) == b.(balance := balance, updatedAt := now)
  {
  }
}
