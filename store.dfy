/**
 * The in-memory store of server/storage.ts as a value: fourteen tables keyed by
 * id plus the `currentId` counters. Each storage operation is a function from
 * the old store to the new one (and its result); the `MemStorage` class in
 * storage.dfy performs the same steps in place and is proved equal to these.
 *
 * A JavaScript `Map` lists its values in insertion order. Ids are handed out
 * by counters that only grow, so insertion order is ascending id order, and
 * `Rows(m, next)` lists a table that way.
 */
module Store {
  import opened Wrappers
  import opened Seqs
  import opened Schema

  datatype Counters = Counters(
    users: nat, roles: nat, aips: nat, aipItems: nat, budgetItems: nat,
    budgetObligations: nat, journalEntries: nat, journalEntryItems: nat, vouchers: nat,
    disbursements: nat, collections: nat, employees: nat, payrolls: nat, payrollItems: nat)

  datatype Db = Db(
    users: map<nat, User>, roles: map<nat, Role>, aips: map<nat, Aip>,
    aipItems: map<nat, AipItem>, budgetItems: map<nat, BudgetItem>,
    budgetObligations: map<nat, BudgetObligation>, journalEntries: map<nat, JournalEntry>,
    journalEntryItems: map<nat, JournalEntryItem>, vouchers: map<nat, Voucher>,
    disbursements: map<nat, Disbursement>, collections: map<nat, Collection>,
    employees: map<nat, Employee>, payrolls: map<nat, Payroll>,
    payrollItems: map<nat, PayrollItem>, currentId: Counters)

  /** Empty tables, every counter at 1. */
  const Empty := Db(
    map[], map[], map[], map[], map[], map[], map[], map[], map[], map[], map[], map[], map[], map[],
    Counters(1, 1, 1, 1, 1, 1, 1, 1, 1, 1, 1, 1, 1, 1))

  /** The eleven roles created when the store starts, in creation order. */
  const SeedRoles: seq<Role> := [
    Role(0, "Administrator", Admin, false, ["all"]),
    Role(0, "Planning Officer", Planning, false, ["read", "write", "approve"]),
    Role(0, "Planning Encoder", Planning, true, ["read", "write"]),
    Role(0, "Budget Officer", Budget, false, ["read", "write", "approve"]),
    Role(0, "Budget Encoder", Budget, true, ["read", "write"]),
    Role(0, "Accounting Officer", Accounting, false, ["read", "write", "approve"]),
    Role(0, "Accounting Encoder", Accounting, true, ["read", "write"]),
    Role(0, "Treasury Officer", Treasury, false, ["read", "write", "approve"]),
    Role(0, "Treasury Encoder", Treasury, true, ["read", "write"]),
    Role(0, "HRIS Officer", Hris, false, ["read", "write", "approve"]),
    Role(0, "HRIS Encoder", Hris, true, ["read", "write"])
  ]

  /** The store after creating the first `n` of `seeds`, one after the other, on empty tables. */
  function Seeded(seeds: seq<Role>, n: nat): Db
    requires n <= |seeds|
  {
    if n == 0 then Empty else CreateRole(Seeded(seeds, n - 1), seeds[n - 1]).0
  }

  /** The store right after construction. */
  function Initial(): Db {
    Seeded(SeedRoles, |SeedRoles|)
  }

  // ---------------------------------------------------------------- tables

  /** The rows of `m` with id below `n`, in ascending id order. */
  function Rows<R>(m: map<nat, R>, n: nat): seq<R>
  {
    if n == 0 then [] else Rows(m, n - 1) + (if n - 1 in m then [m[n - 1]] else [])
  }

  /** `map.get(id)`. */
  function Get<R>(m: map<nat, R>, id: nat): (r: Option<R>)
    ensures r.Some? <==> id in m
    ensures r.Some? ==> r.value == m[id]
  {
    if id in m then Some(m[id]) else None
  }

  /** The counter is at least 1; every key lies in `1 .. next - 1` and is the id of the row stored under it. */
  ghost predicate Keyed<R>(m: map<nat, R>, next: nat, id: R -> nat)
  {
    1 <= next && forall k :: k in m ==> 1 <= k < next && id(m[k]) == k
  }

  function UserId(r: User): nat { r.id }
  function RoleId(r: Role): nat { r.id }
  function AipId(r: Aip): nat { r.id }
  function AipItemId(r: AipItem): nat { r.id }
  function BudgetItemId(r: BudgetItem): nat { r.id }
  function ObligationId(r: BudgetObligation): nat { r.id }
  function JournalEntryId(r: JournalEntry): nat { r.id }
  function JournalEntryItemId(r: JournalEntryItem): nat { r.id }
  function VoucherId(r: Voucher): nat { r.id }
  function DisbursementId(r: Disbursement): nat { r.id }
  function CollectionId(r: Collection): nat { r.id }
  function EmployeeId(r: Employee): nat { r.id }
  function PayrollId(r: Payroll): nat { r.id }
  function PayrollItemId(r: PayrollItem): nat { r.id }

  /** The store invariant: every table is keyed by ids its counter has handed out. */
  ghost predicate Valid(db: Db)
  {
    && Keyed(db.users, db.currentId.users, UserId)
    && Keyed(db.roles, db.currentId.roles, RoleId)
    && Keyed(db.aips, db.currentId.aips, AipId)
    && Keyed(db.aipItems, db.currentId.aipItems, AipItemId)
    && Keyed(db.budgetItems, db.currentId.budgetItems, BudgetItemId)
    && Keyed(db.budgetObligations, db.currentId.budgetObligations, ObligationId)
    && Keyed(db.journalEntries, db.currentId.journalEntries, JournalEntryId)
    && Keyed(db.journalEntryItems, db.currentId.journalEntryItems, JournalEntryItemId)
    && Keyed(db.vouchers, db.currentId.vouchers, VoucherId)
    && Keyed(db.disbursements, db.currentId.disbursements, DisbursementId)
    && Keyed(db.collections, db.currentId.collections, CollectionId)
    && Keyed(db.employees, db.currentId.employees, EmployeeId)
    && Keyed(db.payrolls, db.currentId.payrolls, PayrollId)
    && Keyed(db.payrollItems, db.currentId.payrollItems, PayrollItemId)
  }

  lemma {:induction false} RowsMembership<R>(m: map<nat, R>, n: nat, r: R)
    ensures r in Rows(m, n) <==> exists k :: k in m && k < n && m[k] == r
  {
    if n > 0 {
      RowsMembership(m, n - 1, r);
      if n - 1 in m && m[n - 1] == r {
        assert r in Rows(m, n);
      }
    }
  }

  /** Rows below `n` do not see an entry stored at `n` or above. */
  lemma {:induction false} RowsIgnoreAbove<R>(m: map<nat, R>, k: nat, r: R, n: nat)
    requires n <= k
    ensures Rows(m[k := r], n) == Rows(m, n)
  {
    if n > 0 {
      RowsIgnoreAbove(m, k, r, n - 1);
    }
  }

  /** Storing under the counter appends the new row at the end. */
  lemma RowsOfInsert<R>(m: map<nat, R>, n: nat, r: R)
    ensures Rows(m[n := r], n + 1) == Rows(m, n) + [r]
  {
    RowsIgnoreAbove(m, n, r, n);
  }

  /**
   * Ids handed out by a counter are at least 1, below the counter and strictly
   * increasing along the table.
   */
  lemma {:induction false} RowsIdsIncrease<R>(m: map<nat, R>, next: nat, id: R -> nat, n: nat)
    requires Keyed(m, next, id)
    ensures forall i :: 0 <= i < |Rows(m, n)| ==> 1 <= id(Rows(m, n)[i]) < n
    ensures forall i, j :: 0 <= i < j < |Rows(m, n)| ==> id(Rows(m, n)[i]) < id(Rows(m, n)[j])
  {
    if n > 0 {
      RowsIdsIncrease(m, next, id, n - 1);
    }
  }

  /** Under the invariant the rows below the counter are all the rows. */
  lemma RowsComplete<R>(m: map<nat, R>, next: nat, id: R -> nat, r: R)
    requires Keyed(m, next, id)
    ensures r in Rows(m, next) <==> r in m.Values
  {
    RowsMembership(m, next, r);
  }

  /** Under the invariant a listed row is the row stored under its own id. */
  lemma ListedRowIsStored<R>(m: map<nat, R>, next: nat, id: R -> nat, r: R)
    requires Keyed(m, next, id) && r in Rows(m, next)
    ensures id(r) in m && m[id(r)] == r
  {
    RowsMembership(m, next, r);
  }

  /**
   * Storing a row under the counter, with the counter's value as its id, keeps
   * the table keyed once the counter moves on, and the new id is fresh and
   * larger than every id already in the table.
   */
  lemma KeyedInsert<R>(m: map<nat, R>, next: nat, id: R -> nat, r: R)
    requires Keyed(m, next, id) && id(r) == next
    ensures next !in m
    ensures forall k :: k in m ==> id(m[k]) < id(r)
    ensures Keyed(m[next := r], next + 1, id)
  {
  }

  /** Replacing a row by one with the same id keeps the table keyed. */
  lemma KeyedReplace<R>(m: map<nat, R>, next: nat, id: R -> nat, k: nat, r: R)
    requires Keyed(m, next, id) && k in m && id(r) == k
    ensures Keyed(m[k := r], next, id)
  {
  }

  // ---------------------------------------------------------------- creates

  function CreateUser(db: Db, u: User): (Db, User) {
    var id := db.currentId.users;
    var row := u.(id := id);
    (db.(users := db.users[id := row], currentId := db.currentId.(users := id + 1)), row)
  }

  function CreateRole(db: Db, r: Role): (Db, Role) {
    var id := db.currentId.roles;
    var row := r.(id := id);
    (db.(roles := db.roles[id := row], currentId := db.currentId.(roles := id + 1)), row)
  }

  function CreateAip(db: Db, a: Aip, now: Time): (Db, Aip) {
    var id := db.currentId.aips;
    var row := a.(id := id, createdAt := now, updatedAt := now);
    (db.(aips := db.aips[id := row], currentId := db.currentId.(aips := id + 1)), row)
  }

  function CreateAipItem(db: Db, a: AipItem, now: Time): (Db, AipItem) {
    var id := db.currentId.aipItems;
    var row := a.(id := id, createdAt := now, updatedAt := now);
    (db.(aipItems := db.aipItems[id := row], currentId := db.currentId.(aipItems := id + 1)), row)
  }

  function CreateBudgetItem(db: Db, b: BudgetItem, now: Time): (Db, BudgetItem) {
    var id := db.currentId.budgetItems;
    var row := b.(id := id, createdAt := now, updatedAt := now);
    (db.(budgetItems := db.budgetItems[id := row], currentId := db.currentId.(budgetItems := id + 1)), row)
  }

  /** The insert half of `createBudgetObligation`. */
  function InsertObligation(db: Db, o: BudgetObligation, now: Time): (Db, BudgetObligation) {
    var id := db.currentId.budgetObligations;
    var row := o.(id := id, createdAt := now, updatedAt := now);
    (db.(budgetObligations := db.budgetObligations[id := row],
         currentId := db.currentId.(budgetObligations := id + 1)), row)
  }

  /**
   * `createBudgetObligation`: insert the obligation, then, when its budget item
   * exists, write back that item's balance less the obligation amount.
   */
  function CreateBudgetObligation(db: Db, o: BudgetObligation, now: Time): (Db, BudgetObligation) {
    var (db1, row) := InsertObligation(db, o, now);
    match Get(db1.budgetItems, row.budgetItemId)
    case None => (db1, row)
    case Some(item) => (UpdateBudgetItem(db1, item.id, BalanceOnly(item.balance - row.amount), now).0, row)
  }

  function CreateJournalEntry(db: Db, e: JournalEntry, now: Time): (Db, JournalEntry) {
    var id := db.currentId.journalEntries;
    var row := e.(id := id, createdAt := now, updatedAt := now);
    (db.(journalEntries := db.journalEntries[id := row],
         currentId := db.currentId.(journalEntries := id + 1)), row)
  }

  /** Journal entry items carry only `createdAt`; the parent entry is not consulted. */
  function CreateJournalEntryItem(db: Db, i: JournalEntryItem, now: Time): (Db, JournalEntryItem) {
    var id := db.currentId.journalEntryItems;
    var row := i.(id := id, createdAt := now);
    (db.(journalEntryItems := db.journalEntryItems[id := row],
         currentId := db.currentId.(journalEntryItems := id + 1)), row)
  }

  function CreateVoucher(db: Db, v: Voucher, now: Time): (Db, Voucher) {
    var id := db.currentId.vouchers;
    var row := v.(id := id, createdAt := now, updatedAt := now);
    (db.(vouchers := db.vouchers[id := row], currentId := db.currentId.(vouchers := id + 1)), row)
  }

  /** The insert half of `createDisbursement`. */
  function InsertDisbursement(db: Db, d: Disbursement, now: Time): (Db, Disbursement) {
    var id := db.currentId.disbursements;
    var row := d.(id := id, createdAt := now, updatedAt := now);
    (db.(disbursements := db.disbursements[id := row],
         currentId := db.currentId.(disbursements := id + 1)), row)
  }

  /**
   * `createDisbursement`: insert the disbursement, then, when its voucher
   * exists, set that voucher's status to paid.
   */
  function CreateDisbursement(db: Db, d: Disbursement, now: Time): (Db, Disbursement) {
    var (db1, row) := InsertDisbursement(db, d, now);
    match Get(db1.vouchers, row.voucherId)
    case None => (db1, row)
    case Some(v) => (UpdateVoucher(db1, v.id, VoucherStatusOnly(Paid), now).0, row)
  }

  function CreateCollection(db: Db, c: Collection, now: Time): (Db, Collection) {
    var id := db.currentId.collections;
    var row := c.(id := id, createdAt := now, updatedAt := now);
    (db.(collections := db.collections[id := row], currentId := db.currentId.(collections := id + 1)), row)
  }

  function CreateEmployee(db: Db, e: Employee, now: Time): (Db, Employee) {
    var id := db.currentId.employees;
    var row := e.(id := id, createdAt := now, updatedAt := now);
    (db.(employees := db.employees[id := row], currentId := db.currentId.(employees := id + 1)), row)
  }

  function CreatePayroll(db: Db, p: Payroll, now: Time): (Db, Payroll) {
    var id := db.currentId.payrolls;
    var row := p.(id := id, createdAt := now, updatedAt := now);
    (db.(payrolls := db.payrolls[id := row], currentId := db.currentId.(payrolls := id + 1)), row)
  }

  function CreatePayrollItem(db: Db, p: PayrollItem, now: Time): (Db, PayrollItem) {
    var id := db.currentId.payrollItems;
    var row := p.(id := id, createdAt := now, updatedAt := now);
    (db.(payrollItems := db.payrollItems[id := row], currentId := db.currentId.(payrollItems := id + 1)), row)
  }

  // ---------------------------------------------------------------- updates
  // A missing id yields `None` and the store unchanged.

  function UpdateUser(db: Db, id: nat, p: UserPatch): (Db, Option<User>) {
    if id !in db.users then (db, None)
    else var row := ApplyUserPatch(db.users[id], p); (db.(users := db.users[id := row]), Some(row))
  }

  function UpdateAip(db: Db, id: nat, p: AipPatch, now: Time): (Db, Option<Aip>) {
    if id !in db.aips then (db, None)
    else var row := ApplyAipPatch(db.aips[id], p, now); (db.(aips := db.aips[id := row]), Some(row))
  }

  function UpdateAipItem(db: Db, id: nat, p: AipItemPatch, now: Time): (Db, Option<AipItem>) {
    if id !in db.aipItems then (db, None)
    else var row := ApplyAipItemPatch(db.aipItems[id], p, now); (db.(aipItems := db.aipItems[id := row]), Some(row))
  }

  function UpdateBudgetItem(db: Db, id: nat, p: BudgetItemPatch, now: Time): (Db, Option<BudgetItem>) {
    if id !in db.budgetItems then (db, None)
    else
      var row := ApplyBudgetItemPatch(db.budgetItems[id], p, now);
      (db.(budgetItems := db.budgetItems[id := row]), Some(row))
  }

  function UpdateBudgetObligation(db: Db, id: nat, p: ObligationPatch, now: Time): (Db, Option<BudgetObligation>) {
    if id !in db.budgetObligations then (db, None)
    else
      var row := ApplyObligationPatch(db.budgetObligations[id], p, now);
      (db.(budgetObligations := db.budgetObligations[id := row]), Some(row))
  }

  function UpdateJournalEntry(db: Db, id: nat, p: JournalEntryPatch, now: Time): (Db, Option<JournalEntry>) {
    if id !in db.journalEntries then (db, None)
    else
      var row := ApplyJournalEntryPatch(db.journalEntries[id], p, now);
      (db.(journalEntries := db.journalEntries[id := row]), Some(row))
  }

  function UpdateVoucher(db: Db, id: nat, p: VoucherPatch, now: Time): (Db, Option<Voucher>) {
    if id !in db.vouchers then (db, None)
    else var row := ApplyVoucherPatch(db.vouchers[id], p, now); (db.(vouchers := db.vouchers[id := row]), Some(row))
  }

  function UpdateDisbursement(db: Db, id: nat, p: DisbursementPatch, now: Time): (Db, Option<Disbursement>) {
    if id !in db.disbursements then (db, None)
    else
      var row := ApplyDisbursementPatch(db.disbursements[id], p, now);
      (db.(disbursements := db.disbursements[id := row]), Some(row))
  }

  function UpdateCollection(db: Db, id: nat, p: CollectionPatch, now: Time): (Db, Option<Collection>) {
    if id !in db.collections then (db, None)
    else
      var row := ApplyCollectionPatch(db.collections[id], p, now);
      (db.(collections := db.collections[id := row]), Some(row))
  }

  function UpdateEmployee(db: Db, id: nat, p: EmployeePatch, now: Time): (Db, Option<Employee>) {
    if id !in db.employees then (db, None)
    else
      var row := ApplyEmployeePatch(db.employees[id], p, now);
      (db.(employees := db.employees[id := row]), Some(row))
  }

  function UpdatePayroll(db: Db, id: nat, p: PayrollPatch, now: Time): (Db, Option<Payroll>) {
    if id !in db.payrolls then (db, None)
    else var row := ApplyPayrollPatch(db.payrolls[id], p, now); (db.(payrolls := db.payrolls[id := row]), Some(row))
  }

  // ---------------------------------------------------------------- queries

  function Users(db: Db): seq<User> { Rows(db.users, db.currentId.users) }
  function Roles(db: Db): seq<Role> { Rows(db.roles, db.currentId.roles) }
  function Aips(db: Db): seq<Aip> { Rows(db.aips, db.currentId.aips) }
  function AipItems(db: Db): seq<AipItem> { Rows(db.aipItems, db.currentId.aipItems) }
  function BudgetItems(db: Db): seq<BudgetItem> { Rows(db.budgetItems, db.currentId.budgetItems) }
  function Obligations(db: Db): seq<BudgetObligation> { Rows(db.budgetObligations, db.currentId.budgetObligations) }
  function JournalEntries(db: Db): seq<JournalEntry> { Rows(db.journalEntries, db.currentId.journalEntries) }
  function AllJournalEntryItems(db: Db): seq<JournalEntryItem> { Rows(db.journalEntryItems, db.currentId.journalEntryItems) }
  function Vouchers(db: Db): seq<Voucher> { Rows(db.vouchers, db.currentId.vouchers) }
  function Disbursements(db: Db): seq<Disbursement> { Rows(db.disbursements, db.currentId.disbursements) }
  function Collections(db: Db): seq<Collection> { Rows(db.collections, db.currentId.collections) }
  function Employees(db: Db): seq<Employee> { Rows(db.employees, db.currentId.employees) }
  function Payrolls(db: Db): seq<Payroll> { Rows(db.payrolls, db.currentId.payrolls) }
  function AllPayrollItems(db: Db): seq<PayrollItem> { Rows(db.payrollItems, db.currentId.payrollItems) }

  /** `getUserByUsername`: the first user, in insertion order, with that username. */
  function UserByUsername(db: Db, username: string): (r: Option<User>)
    ensures r.None? <==> forall u :: u in Users(db) ==> u.username != username
    ensures r.Some? ==> r.value.username == username && exists i :: (
      && 0 <= i < |Users(db)| && Users(db)[i] == r.value
      && forall j :: 0 <= j < i ==> Users(db)[j].username != username)
  {
    Find(Users(db), (u: User) => u.username == username)
  }

  /** Under the invariant the user found has the smallest id among the users with that username. */
  lemma UserByUsernameSmallestId(db: Db, username: string)
    requires Valid(db)
    ensures var r := UserByUsername(db, username);
      r.Some? ==> forall u :: u in Users(db) && u.username == username ==> r.value.id <= u.id
  {
    var us := Users(db);
    var r := UserByUsername(db, username);
    if r.Some? {
      RowsIdsIncrease(db.users, db.currentId.users, UserId, db.currentId.users);
      var i :| 0 <= i < |us| && us[i] == r.value && forall j :: 0 <= j < i ==> us[j].username != username;
      forall u | u in us && u.username == username
        ensures r.value.id <= u.id
      {
        var k :| 0 <= k < |us| && us[k] == u;
        assert !(k < i);
        assert UserId(us[i]) <= UserId(us[k]);
      }
    }
  }

  /*
   * The by-key queries keep exactly the rows whose field equals the key, in
   * table order.
   */

  function UsersByRole(db: Db, roleId: nat): (r: seq<User>)
    ensures forall u :: u in r <==> u in Users(db) && u.roleId == roleId
    ensures IsSubseq(r, Users(db))
  {
    FilterIsSubseq(Users(db), (u: User) => u.roleId == roleId);
    Filter(Users(db), (u: User) => u.roleId == roleId)
  }

  function RolesByModule(db: Db, moduleName: string): (r: seq<Role>)
    ensures forall x :: x in r <==> x in Roles(db) && x.moduleName == moduleName
    ensures IsSubseq(r, Roles(db))
  {
    FilterIsSubseq(Roles(db), (x: Role) => x.moduleName == moduleName);
    Filter(Roles(db), (x: Role) => x.moduleName == moduleName)
  }

  function AipsByFiscalYear(db: Db, fiscalYear: int): (r: seq<Aip>)
    ensures forall a :: a in r <==> a in Aips(db) && a.fiscalYear == fiscalYear
    ensures IsSubseq(r, Aips(db))
  {
    FilterIsSubseq(Aips(db), (a: Aip) => a.fiscalYear == fiscalYear);
    Filter(Aips(db), (a: Aip) => a.fiscalYear == fiscalYear)
  }

  function AipItemsByAipId(db: Db, aipId: nat): (r: seq<AipItem>)
    ensures forall a :: a in r <==> a in AipItems(db) && a.aipId == aipId
    ensures IsSubseq(r, AipItems(db))
  {
    FilterIsSubseq(AipItems(db), (a: AipItem) => a.aipId == aipId);
    Filter(AipItems(db), (a: AipItem) => a.aipId == aipId)
  }

  function BudgetItemsByFiscalYear(db: Db, fiscalYear: int): (r: seq<BudgetItem>)
    ensures forall b :: b in r <==> b in BudgetItems(db) && b.fiscalYear == fiscalYear
    ensures IsSubseq(r, BudgetItems(db))
  {
    FilterIsSubseq(BudgetItems(db), (b: BudgetItem) => b.fiscalYear == fiscalYear);
    Filter(BudgetItems(db), (b: BudgetItem) => b.fiscalYear == fiscalYear)
  }

  /** An item with no AIP item never matches: a null reference is not equal to any id. */
  function BudgetItemsByAipItemId(db: Db, aipItemId: nat): (r: seq<BudgetItem>)
    ensures forall b :: b in r <==> b in BudgetItems(db) && b.aipItemId == Some(aipItemId)
    ensures IsSubseq(r, BudgetItems(db))
  {
    FilterIsSubseq(BudgetItems(db), (b: BudgetItem) => b.aipItemId == Some(aipItemId));
    Filter(BudgetItems(db), (b: BudgetItem) => b.aipItemId == Some(aipItemId))
  }

  function ObligationsByBudgetItemId(db: Db, budgetItemId: nat): (r: seq<BudgetObligation>)
    ensures forall o :: o in r <==> o in Obligations(db) && o.budgetItemId == budgetItemId
    ensures IsSubseq(r, Obligations(db))
  {
    FilterIsSubseq(Obligations(db), (o: BudgetObligation) => o.budgetItemId == budgetItemId);
    Filter(Obligations(db), (o: BudgetObligation) => o.budgetItemId == budgetItemId)
  }

  function ObligationsByStatus(db: Db, status: string): (r: seq<BudgetObligation>)
    ensures forall o :: o in r <==> o in Obligations(db) && o.status == status
    ensures IsSubseq(r, Obligations(db))
  {
    FilterIsSubseq(Obligations(db), (o: BudgetObligation) => o.status == status);
    Filter(Obligations(db), (o: BudgetObligation) => o.status == status)
  }

  function JournalEntriesByObligationId(db: Db, obligationId: nat): (r: seq<JournalEntry>)
    ensures forall e :: e in r <==> e in JournalEntries(db) && e.obligationId == Some(obligationId)
    ensures IsSubseq(r, JournalEntries(db))
  {
    FilterIsSubseq(JournalEntries(db), (e: JournalEntry) => e.obligationId == Some(obligationId));
    Filter(JournalEntries(db), (e: JournalEntry) => e.obligationId == Some(obligationId))
  }

  /** `getJournalEntryItems(journalEntryId)`. */
  function JournalEntryItems(db: Db, journalEntryId: nat): (r: seq<JournalEntryItem>)
    ensures forall i :: i in r <==> i in AllJournalEntryItems(db) && i.journalEntryId == journalEntryId
    ensures IsSubseq(r, AllJournalEntryItems(db))
  {
    FilterIsSubseq(AllJournalEntryItems(db), (i: JournalEntryItem) => i.journalEntryId == journalEntryId);
    Filter(AllJournalEntryItems(db), (i: JournalEntryItem) => i.journalEntryId == journalEntryId)
  }

  function VouchersByJournalEntryId(db: Db, journalEntryId: nat): (r: seq<Voucher>)
    ensures forall v :: v in r <==> v in Vouchers(db) && v.journalEntryId == journalEntryId
    ensures IsSubseq(r, Vouchers(db))
  {
    FilterIsSubseq(Vouchers(db), (v: Voucher) => v.journalEntryId == journalEntryId);
    Filter(Vouchers(db), (v: Voucher) => v.journalEntryId == journalEntryId)
  }

  function VouchersByStatus(db: Db, status: string): (r: seq<Voucher>)
    ensures forall v :: v in r <==> v in Vouchers(db) && v.status == status
    ensures IsSubseq(r, Vouchers(db))
  {
    FilterIsSubseq(Vouchers(db), (v: Voucher) => v.status == status);
    Filter(Vouchers(db), (v: Voucher) => v.status == status)
  }

  function DisbursementsByVoucherId(db: Db, voucherId: nat): (r: seq<Disbursement>)
    ensures forall d :: d in r <==> d in Disbursements(db) && d.voucherId == voucherId
    ensures IsSubseq(r, Disbursements(db))
  {
    FilterIsSubseq(Disbursements(db), (d: Disbursement) => d.voucherId == voucherId);
    Filter(Disbursements(db), (d: Disbursement) => d.voucherId == voucherId)
  }

  function CollectionsByType(db: Db, collectionType: string): (r: seq<Collection>)
    ensures forall c :: c in r <==> c in Collections(db) && c.collectionType == collectionType
    ensures IsSubseq(r, Collections(db))
  {
    FilterIsSubseq(Collections(db), (c: Collection) => c.collectionType == collectionType);
    Filter(Collections(db), (c: Collection) => c.collectionType == collectionType)
  }

  function EmployeesByDepartment(db: Db, department: string): (r: seq<Employee>)
    ensures forall e :: e in r <==> e in Employees(db) && e.department == department
    ensures IsSubseq(r, Employees(db))
  {
    FilterIsSubseq(Employees(db), (e: Employee) => e.department == department);
    Filter(Employees(db), (e: Employee) => e.department == department)
  }

  /** `getPayrollItems(payrollId)`. */
  function PayrollItems(db: Db, payrollId: nat): (r: seq<PayrollItem>)
    ensures forall i :: i in r <==> i in AllPayrollItems(db) && i.payrollId == payrollId
    ensures IsSubseq(r, AllPayrollItems(db))
  {
    FilterIsSubseq(AllPayrollItems(db), (i: PayrollItem) => i.payrollId == payrollId);
    Filter(AllPayrollItems(db), (i: PayrollItem) => i.payrollId == payrollId)
  }

  // ---------------------------------------------------------------- properties

  /** Seeding touches only the roles table and its counter. */
  lemma {:induction false} SeededFrame(seeds: seq<Role>, n: nat)
    requires n <= |seeds|
    ensures Seeded(seeds, n) == Empty.(roles := Seeded(seeds, n).roles, currentId := Empty.currentId.(roles := n + 1))
  {
    if n > 0 {
      SeededFrame(seeds, n - 1);
    }
  }

  /** Creating seed n - 1 stores it under id n. */
  lemma SeededStep(seeds: seq<Role>, n: nat)
    requires 0 < n <= |seeds|
    ensures Seeded(seeds, n).roles == Seeded(seeds, n - 1).roles[n := seeds[n - 1].(id := n)]
  {
    SeededFrame(seeds, n - 1);
  }

  /** Creating the first `n` seeds stores seed k under id k + 1 and nothing else. */
  lemma {:induction false} SeededRoles(seeds: seq<Role>, n: nat)
    requires n <= |seeds|
    ensures forall k :: k in Seeded(seeds, n).roles <==> 1 <= k <= n
    ensures forall k :: 1 <= k <= n ==> Seeded(seeds, n).roles[k] == seeds[k - 1].(id := k)
  {
    if n > 0 {
      SeededRoles(seeds, n - 1);
      SeededStep(seeds, n);
      var prev := Seeded(seeds, n - 1);
      var roles := prev.roles[n := seeds[n - 1].(id := n)];
      forall k ensures k in roles <==> 1 <= k <= n {
        assert k in roles <==> k == n || k in prev.roles;
      }
      forall k | 1 <= k <= n ensures roles[k] == seeds[k - 1].(id := k) {
        if k < n {
          assert roles[k] == prev.roles[k];
        }
      }
    }
  }

  /** The freshly constructed store holds the eleven seed roles under ids 1..11; role 1 is the administrator. */
  lemma InitialState()
    ensures Valid(Initial())
    ensures Initial().currentId == Empty.currentId.(roles := 12)
    ensures forall k :: k in Initial().roles <==> 1 <= k <= 11
  {
    SeededFrame(SeedRoles, |SeedRoles|);
    SeededRoles(SeedRoles, |SeedRoles|);
    assert Keyed(Initial().roles, 12, RoleId);
  }

  /** Role 1 is the administrator; every seeded role belongs to the administration or one of the five modules. */
  lemma InitialRoles()
    ensures 1 in Initial().roles && Initial().roles[1] == Role(1, "Administrator", Admin, false, ["all"])
    ensures forall k :: k in Initial().roles ==>
      Initial().roles[k].moduleName in {Admin, Planning, Budget, Accounting, Treasury, Hris}
  {
    SeededRoles(SeedRoles, |SeedRoles|);
  }

  /*
   * Every create keeps the invariant and hands out a fresh id: the counter's
   * old value, absent from the table and larger than every id in it; the new
   * row is listed last.
   */

  lemma CreateUserAppends(db: Db, x: User)
    requires Valid(db)
    ensures var (db', row) := CreateUser(db, x);
      && Valid(db') && row.id == db.currentId.users && row.id !in db.users
      && (forall k :: k in db.users ==> k < row.id)
      && Users(db') == Users(db) + [row]
  {
    var (db', row) := CreateUser(db, x);
    KeyedInsert(db.users, db.currentId.users, UserId, row);
    RowsOfInsert(db.users, db.currentId.users, row);
  }

  lemma CreateRoleAppends(db: Db, x: Role)
    requires Valid(db)
    ensures var (db', row) := CreateRole(db, x);
      && Valid(db') && row.id == db.currentId.roles && row.id !in db.roles
      && (forall k :: k in db.roles ==> k < row.id)
      && Roles(db') == Roles(db) + [row]
  {
    var (db', row) := CreateRole(db, x);
    KeyedInsert(db.roles, db.currentId.roles, RoleId, row);
    RowsOfInsert(db.roles, db.currentId.roles, row);
  }

  lemma CreateAipAppends(db: Db, x: Aip, now: Time)
    requires Valid(db)
    ensures var (db', row) := CreateAip(db, x, now);
      && Valid(db') && row.id == db.currentId.aips && row.id !in db.aips
      && (forall k :: k in db.aips ==> k < row.id)
      && Aips(db') == Aips(db) + [row]
  {
    var (db', row) := CreateAip(db, x, now);
    KeyedInsert(db.aips, db.currentId.aips, AipId, row);
    RowsOfInsert(db.aips, db.currentId.aips, row);
  }

  lemma CreateAipItemAppends(db: Db, x: AipItem, now: Time)
    requires Valid(db)
    ensures var (db', row) := CreateAipItem(db, x, now);
      && Valid(db') && row.id == db.currentId.aipItems && row.id !in db.aipItems
      && (forall k :: k in db.aipItems ==> k < row.id)
      && AipItems(db') == AipItems(db) + [row]
  {
    var (db', row) := CreateAipItem(db, x, now);
    KeyedInsert(db.aipItems, db.currentId.aipItems, AipItemId, row);
    RowsOfInsert(db.aipItems, db.currentId.aipItems, row);
  }

  lemma CreateBudgetItemAppends(db: Db, x: BudgetItem, now: Time)
    requires Valid(db)
    ensures var (db', row) := CreateBudgetItem(db, x, now);
      && Valid(db') && row.id == db.currentId.budgetItems && row.id !in db.budgetItems
      && (forall k :: k in db.budgetItems ==> k < row.id)
      && BudgetItems(db') == BudgetItems(db) + [row]
  {
    var (db', row) := CreateBudgetItem(db, x, now);
    KeyedInsert(db.budgetItems, db.currentId.budgetItems, BudgetItemId, row);
    RowsOfInsert(db.budgetItems, db.currentId.budgetItems, row);
  }

  lemma CreateJournalEntryAppends(db: Db, x: JournalEntry, now: Time)
    requires Valid(db)
    ensures var (db', row) := CreateJournalEntry(db, x, now);
      && Valid(db') && row.id == db.currentId.journalEntries && row.id !in db.journalEntries
      && (forall k :: k in db.journalEntries ==> k < row.id)
      && JournalEntries(db') == JournalEntries(db) + [row]
  {
    var (db', row) := CreateJournalEntry(db, x, now);
    KeyedInsert(db.journalEntries, db.currentId.journalEntries, JournalEntryId, row);
    RowsOfInsert(db.journalEntries, db.currentId.journalEntries, row);
  }

  lemma CreateJournalEntryItemAppends(db: Db, x: JournalEntryItem, now: Time)
    requires Valid(db)
    ensures var (db', row) := CreateJournalEntryItem(db, x, now);
      && Valid(db') && row.id == db.currentId.journalEntryItems && row.id !in db.journalEntryItems
      && (forall k :: k in db.journalEntryItems ==> k < row.id)
      && AllJournalEntryItems(db') == AllJournalEntryItems(db) + [row]
  {
    var (db', row) := CreateJournalEntryItem(db, x, now);
    KeyedInsert(db.journalEntryItems, db.currentId.journalEntryItems, JournalEntryItemId, row);
    RowsOfInsert(db.journalEntryItems, db.currentId.journalEntryItems, row);
  }

  lemma CreateVoucherAppends(db: Db, x: Voucher, now: Time)
    requires Valid(db)
    ensures var (db', row) := CreateVoucher(db, x, now);
      && Valid(db') && row.id == db.currentId.vouchers && row.id !in db.vouchers
      && (forall k :: k in db.vouchers ==> k < row.id)
      && Vouchers(db') == Vouchers(db) + [row]
  {
    var (db', row) := CreateVoucher(db, x, now);
    KeyedInsert(db.vouchers, db.currentId.vouchers, VoucherId, row);
    RowsOfInsert(db.vouchers, db.currentId.vouchers, row);
  }

  lemma CreateCollectionAppends(db: Db, x: Collection, now: Time)
    requires Valid(db)
    ensures var (db', row) := CreateCollection(db, x, now);
      && Valid(db') && row.id == db.currentId.collections && row.id !in db.collections
      && (forall k :: k in db.collections ==> k < row.id)
      && Collections(db') == Collections(db) + [row]
  {
    var (db', row) := CreateCollection(db, x, now);
    KeyedInsert(db.collections, db.currentId.collections, CollectionId, row);
    RowsOfInsert(db.collections, db.currentId.collections, row);
  }

  lemma CreateEmployeeAppends(db: Db, x: Employee, now: Time)
    requires Valid(db)
    ensures var (db', row) := CreateEmployee(db, x, now);
      && Valid(db') && row.id == db.currentId.employees && row.id !in db.employees
      && (forall k :: k in db.employees ==> k < row.id)
      && Employees(db') == Employees(db) + [row]
  {
    var (db', row) := CreateEmployee(db, x, now);
    KeyedInsert(db.employees, db.currentId.employees, EmployeeId, row);
    RowsOfInsert(db.employees, db.currentId.employees, row);
  }

  lemma CreatePayrollAppends(db: Db, x: Payroll, now: Time)
    requires Valid(db)
    ensures var (db', row) := CreatePayroll(db, x, now);
      && Valid(db') && row.id == db.currentId.payrolls && row.id !in db.payrolls
      && (forall k :: k in db.payrolls ==> k < row.id)
      && Payrolls(db') == Payrolls(db) + [row]
  {
    var (db', row) := CreatePayroll(db, x, now);
    KeyedInsert(db.payrolls, db.currentId.payrolls, PayrollId, row);
    RowsOfInsert(db.payrolls, db.currentId.payrolls, row);
  }

  lemma CreatePayrollItemAppends(db: Db, x: PayrollItem, now: Time)
    requires Valid(db)
    ensures var (db', row) := CreatePayrollItem(db, x, now);
      && Valid(db') && row.id == db.currentId.payrollItems && row.id !in db.payrollItems
      && (forall k :: k in db.payrollItems ==> k < row.id)
      && AllPayrollItems(db') == AllPayrollItems(db) + [row]
  {
    var (db', row) := CreatePayrollItem(db, x, now);
    KeyedInsert(db.payrollItems, db.currentId.payrollItems, PayrollItemId, row);
    RowsOfInsert(db.payrollItems, db.currentId.payrollItems, row);
  }

  /** `createBudgetObligation` keeps the invariant and lists the new obligation last. */
  lemma CreateBudgetObligationAppends(db: Db, o: BudgetObligation, now: Time)
    requires Valid(db)
    ensures var (db', row) := CreateBudgetObligation(db, o, now);
      && Valid(db') && row.id == db.currentId.budgetObligations && row.id !in db.budgetObligations
      && Obligations(db') == Obligations(db) + [row]
  {
    var (db1, row) := InsertObligation(db, o, now);
    KeyedInsert(db.budgetObligations, db.currentId.budgetObligations, ObligationId, row);
    RowsOfInsert(db.budgetObligations, db.currentId.budgetObligations, row);
    if row.budgetItemId in db1.budgetItems {
      var item := db1.budgetItems[row.budgetItemId];
      KeyedReplace(db1.budgetItems, db1.currentId.budgetItems, BudgetItemId, item.id,
                   ApplyBudgetItemPatch(item, BalanceOnly(item.balance - row.amount), now));
    }
  }

  /** `createDisbursement` keeps the invariant and lists the new disbursement last. */
  lemma CreateDisbursementAppends(db: Db, d: Disbursement, now: Time)
    requires Valid(db)
    ensures var (db', row) := CreateDisbursement(db, d, now);
      && Valid(db') && row.id == db.currentId.disbursements && row.id !in db.disbursements
      && Disbursements(db') == Disbursements(db) + [row]
  {
    var (db1, row) := InsertDisbursement(db, d, now);
    KeyedInsert(db.disbursements, db.currentId.disbursements, DisbursementId, row);
    RowsOfInsert(db.disbursements, db.currentId.disbursements, row);
    if row.voucherId in db1.vouchers {
      var v := db1.vouchers[row.voucherId];
      KeyedReplace(db1.vouchers, db1.currentId.vouchers, VoucherId, v.id,
                   ApplyVoucherPatch(v, VoucherStatusOnly(Paid), now));
    }
  }

  /*
   * Every update keeps the invariant; a missing id leaves the store as it was,
   * a present one replaces the row under that id and nothing else.
   */

  lemma UpdateUserReplaces(db: Db, id: nat, p: UserPatch)
    requires Valid(db)
    ensures var (db', row) := UpdateUser(db, id, p);
      && Valid(db')
      && (id !in db.users ==> db' == db && row == None)
      && (id in db.users ==> row == Some(ApplyUserPatch(db.users[id], p)) && db' == db.(users := db.users[id := row.value]))
  {
    if id in db.users {
      KeyedReplace(db.users, db.currentId.users, UserId, id, ApplyUserPatch(db.users[id], p));
    }
  }

  lemma UpdateAipReplaces(db: Db, id: nat, p: AipPatch, now: Time)
    requires Valid(db)
    ensures var (db', row) := UpdateAip(db, id, p, now);
      && Valid(db')
      && (id !in db.aips ==> db' == db && row == None)
      && (id in db.aips ==> row == Some(ApplyAipPatch(db.aips[id], p, now)) && db' == db.(aips := db.aips[id := row.value]))
  {
    if id in db.aips {
      KeyedReplace(db.aips, db.currentId.aips, AipId, id, ApplyAipPatch(db.aips[id], p, now));
    }
  }

  lemma UpdateAipItemReplaces(db: Db, id: nat, p: AipItemPatch, now: Time)
    requires Valid(db)
    ensures var (db', row) := UpdateAipItem(db, id, p, now);
      && Valid(db')
      && (id !in db.aipItems ==> db' == db && row == None)
      && (id in db.aipItems ==> row == Some(ApplyAipItemPatch(db.aipItems[id], p, now)) && db' == db.(aipItems := db.aipItems[id := row.value]))
  {
    if id in db.aipItems {
      KeyedReplace(db.aipItems, db.currentId.aipItems, AipItemId, id, ApplyAipItemPatch(db.aipItems[id], p, now));
    }
  }

  lemma UpdateBudgetItemReplaces(db: Db, id: nat, p: BudgetItemPatch, now: Time)
    requires Valid(db)
    ensures var (db', row) := UpdateBudgetItem(db, id, p, now);
      && Valid(db')
      && (id !in db.budgetItems ==> db' == db && row == None)
      && (id in db.budgetItems ==> row == Some(ApplyBudgetItemPatch(db.budgetItems[id], p, now)) && db' == db.(budgetItems := db.budgetItems[id := row.value]))
  {
    if id in db.budgetItems {
      KeyedReplace(db.budgetItems, db.currentId.budgetItems, BudgetItemId, id, ApplyBudgetItemPatch(db.budgetItems[id], p, now));
    }
  }

  lemma UpdateBudgetObligationReplaces(db: Db, id: nat, p: ObligationPatch, now: Time)
    requires Valid(db)
    ensures var (db', row) := UpdateBudgetObligation(db, id, p, now);
      && Valid(db')
      && (id !in db.budgetObligations ==> db' == db && row == None)
      && (id in db.budgetObligations ==> row == Some(ApplyObligationPatch(db.budgetObligations[id], p, now)) && db' == db.(budgetObligations := db.budgetObligations[id := row.value]))
  {
    if id in db.budgetObligations {
      KeyedReplace(db.budgetObligations, db.currentId.budgetObligations, ObligationId, id, ApplyObligationPatch(db.budgetObligations[id], p, now));
    }
  }

  lemma UpdateJournalEntryReplaces(db: Db, id: nat, p: JournalEntryPatch, now: Time)
    requires Valid(db)
    ensures var (db', row) := UpdateJournalEntry(db, id, p, now);
      && Valid(db')
      && (id !in db.journalEntries ==> db' == db && row == None)
      && (id in db.journalEntries ==> row == Some(ApplyJournalEntryPatch(db.journalEntries[id], p, now)) && db' == db.(journalEntries := db.journalEntries[id := row.value]))
  {
    if id in db.journalEntries {
      KeyedReplace(db.journalEntries, db.currentId.journalEntries, JournalEntryId, id, ApplyJournalEntryPatch(db.journalEntries[id], p, now));
    }
  }

  lemma UpdateVoucherReplaces(db: Db, id: nat, p: VoucherPatch, now: Time)
    requires Valid(db)
    ensures var (db', row) := UpdateVoucher(db, id, p, now);
      && Valid(db')
      && (id !in db.vouchers ==> db' == db && row == None)
      && (id in db.vouchers ==> row == Some(ApplyVoucherPatch(db.vouchers[id], p, now)) && db' == db.(vouchers := db.vouchers[id := row.value]))
  {
    if id in db.vouchers {
      KeyedReplace(db.vouchers, db.currentId.vouchers, VoucherId, id, ApplyVoucherPatch(db.vouchers[id], p, now));
    }
  }

  lemma UpdateDisbursementReplaces(db: Db, id: nat, p: DisbursementPatch, now: Time)
    requires Valid(db)
    ensures var (db', row) := UpdateDisbursement(db, id, p, now);
      && Valid(db')
      && (id !in db.disbursements ==> db' == db && row == None)
      && (id in db.disbursements ==> row == Some(ApplyDisbursementPatch(db.disbursements[id], p, now)) && db' == db.(disbursements := db.disbursements[id := row.value]))
  {
    if id in db.disbursements {
      KeyedReplace(db.disbursements, db.currentId.disbursements, DisbursementId, id, ApplyDisbursementPatch(db.disbursements[id], p, now));
    }
  }

  lemma UpdateCollectionReplaces(db: Db, id: nat, p: CollectionPatch, now: Time)
    requires Valid(db)
    ensures var (db', row) := UpdateCollection(db, id, p, now);
      && Valid(db')
      && (id !in db.collections ==> db' == db && row == None)
      && (id in db.collections ==> row == Some(ApplyCollectionPatch(db.collections[id], p, now)) && db' == db.(collections := db.collections[id := row.value]))
  {
    if id in db.collections {
      KeyedReplace(db.collections, db.currentId.collections, CollectionId, id, ApplyCollectionPatch(db.collections[id], p, now));
    }
  }

  lemma UpdateEmployeeReplaces(db: Db, id: nat, p: EmployeePatch, now: Time)
    requires Valid(db)
    ensures var (db', row) := UpdateEmployee(db, id, p, now);
      && Valid(db')
      && (id !in db.employees ==> db' == db && row == None)
      && (id in db.employees ==> row == Some(ApplyEmployeePatch(db.employees[id], p, now)) && db' == db.(employees := db.employees[id := row.value]))
  {
    if id in db.employees {
      KeyedReplace(db.employees, db.currentId.employees, EmployeeId, id, ApplyEmployeePatch(db.employees[id], p, now));
    }
  }

  lemma UpdatePayrollReplaces(db: Db, id: nat, p: PayrollPatch, now: Time)
    requires Valid(db)
    ensures var (db', row) := UpdatePayroll(db, id, p, now);
      && Valid(db')
      && (id !in db.payrolls ==> db' == db && row == None)
      && (id in db.payrolls ==> row == Some(ApplyPayrollPatch(db.payrolls[id], p, now)) && db' == db.(payrolls := db.payrolls[id := row.value]))
  {
    if id in db.payrolls {
      KeyedReplace(db.payrolls, db.currentId.payrolls, PayrollId, id, ApplyPayrollPatch(db.payrolls[id], p, now));
    }
  }

  /**
   * What `createBudgetObligation` does: the obligation is stored under a fresh
   * id; the budget item it names, if it exists, gets balance minus amount and
   * keeps every other field; no other budget item and no other table changes.
   */
  lemma CreateBudgetObligationEffect(db: Db, o: BudgetObligation, now: Time)
    requires Valid(db)
    ensures var (db', row) := CreateBudgetObligation(db, o, now);
      && row == o.(id := db.currentId.budgetObligations, createdAt := now, updatedAt := now)
      && db'.budgetObligations == db.budgetObligations[row.id := row]
      && db'.budgetItems.Keys == db.budgetItems.Keys
      && (forall k :: k in db.budgetItems && k != o.budgetItemId ==> db'.budgetItems[k] == db.budgetItems[k])
      && (o.budgetItemId in db.budgetItems ==>
            var b := db.budgetItems[o.budgetItemId];
            db'.budgetItems[o.budgetItemId] == b.(balance := b.balance - o.amount, updatedAt := now))
      && db' == db.(budgetObligations := db'.budgetObligations, budgetItems := db'.budgetItems,
                    currentId := db.currentId.(budgetObligations := row.id + 1))
  {
    if o.budgetItemId in db.budgetItems {
      var b := db.budgetItems[o.budgetItemId];
      BalancePatchKeepsFields(b, b.balance - o.amount, now);
    }
  }

  /**
   * What `createDisbursement` does: the disbursement is stored under a fresh
   * id; the voucher it names, if it exists, becomes paid and keeps every other
   * field; nothing else changes.
   */
  lemma CreateDisbursementEffect(db: Db, d: Disbursement, now: Time)
    requires Valid(db)
    ensures var (db', row) := CreateDisbursement(db, d, now);
      && row == d.(id := db.currentId.disbursements, createdAt := now, updatedAt := now)
      && db'.disbursements == db.disbursements[row.id := row]
      && db'.vouchers.Keys == db.vouchers.Keys
      && (forall k :: k in db.vouchers && k != d.voucherId ==> db'.vouchers[k] == db.vouchers[k])
      && (d.voucherId in db.vouchers ==>
            db'.vouchers[d.voucherId] == db.vouchers[d.voucherId].(status := Paid, updatedAt := now))
      && db' == db.(disbursements := db'.disbursements, vouchers := db'.vouchers,
                    currentId := db.currentId.(disbursements := row.id + 1))
  {
    if d.voucherId in db.vouchers {
      VoucherStatusPatchKeepsFields(db.vouchers[d.voucherId], Paid, now);
    }
  }

  /**
   * An item can be added to any entry, posted or not, even one that does not
   * exist: it then appears, last, among that entry's items.
   */
  lemma JournalEntryItemsAfterCreate(db: Db, i: JournalEntryItem, now: Time)
    requires Valid(db)
    ensures var (db', row) := CreateJournalEntryItem(db, i, now);
      JournalEntryItems(db', i.journalEntryId) == JournalEntryItems(db, i.journalEntryId) + [row]
  {
    var (db', row) := CreateJournalEntryItem(db, i, now);
    var e := i.journalEntryId;
    var p := (x: JournalEntryItem) => x.journalEntryId == e;
    RowsOfInsert(db.journalEntryItems, db.currentId.journalEntryItems, row);
    assert AllJournalEntryItems(db') == AllJournalEntryItems(db) + [row];
    FilterAppend(AllJournalEntryItems(db), [row], p);
    assert Filter([row], p) == [row] + Filter([], p);
    assert JournalEntryItems(db', e) == Filter(AllJournalEntryItems(db), p) + [row];
  }
}
