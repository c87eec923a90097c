/**
 * `MemStorage` of server/storage.ts: fourteen tables and the id counters,
 * updated in place. Every method is proved to leave the store exactly as the
 * matching function of module `Store` says, so the properties proved there
 * (fresh increasing ids, the balance write-back, the paid voucher, the
 * invariant `Store.Valid`) hold of this class.
 */
module Storage {
  import opened Wrappers
  import opened Schema
  import Store

  class MemStorage {
    var users: map<nat, User>
    var roles: map<nat, Role>
    var aips: map<nat, Aip>
    var aipItems: map<nat, AipItem>
    var budgetItems: map<nat, BudgetItem>
    var budgetObligations: map<nat, BudgetObligation>
    var journalEntries: map<nat, JournalEntry>
    var journalEntryItems: map<nat, JournalEntryItem>
    var vouchers: map<nat, Voucher>
    var disbursements: map<nat, Disbursement>
    var collections: map<nat, Collection>
    var employees: map<nat, Employee>
    var payrolls: map<nat, Payroll>
    var payrollItems: map<nat, PayrollItem>
    var currentId: Store.Counters

    /** The whole store as a value. */
    function Db(): Store.Db
      reads this
    {
      Store.Db(users, roles, aips, aipItems, budgetItems, budgetObligations, journalEntries,
               journalEntryItems, vouchers, disbursements, collections, employees, payrolls,
               payrollItems, currentId)
    }

    ghost predicate Valid()
      reads this
    {
      Store.Valid(Db())
    }

    /** Empty tables and counters at 1, then the eleven default roles. */
    constructor()
      ensures Db() == Store.Initial()
      ensures Valid()
    {
      users, roles, aips, aipItems, budgetItems := map[], map[], map[], map[], map[];
      budgetObligations, journalEntries, journalEntryItems := map[], map[], map[];
      vouchers, disbursements, collections := map[], map[], map[];
      employees, payrolls, payrollItems := map[], map[], map[];
      currentId := Store.Empty.currentId;
      new;
      InitializeRoles();
      Store.InitialState();
    }

    /** `initializeRoles`: create the seed roles one after the other. */
    method InitializeRoles()
      requires Db() == Store.Empty
      modifies this
      ensures Db() == Store.Initial()
      ensures Valid()
    {
      assert Valid();
      assert |Store.SeedRoles| == 11;
      var k := 0;
      SeedRole(k);
      k := k + 1;
      SeedRole(k);
      k := k + 1;
      SeedRole(k);
      k := k + 1;
      SeedRole(k);
      k := k + 1;
      SeedRole(k);
      k := k + 1;
      SeedRole(k);
      k := k + 1;
      SeedRole(k);
      k := k + 1;
      SeedRole(k);
      k := k + 1;
      SeedRole(k);
      k := k + 1;
      SeedRole(k);
      k := k + 1;
      SeedRole(k);
      k := k + 1;
    }

    /** One `createRole` call of `initializeRoles`: the k-th seed role. */
    method SeedRole(k: nat)
      requires k < |Store.SeedRoles| && Db() == Store.Seeded(Store.SeedRoles, k) && Valid()
      modifies this
      ensures Db() == Store.Seeded(Store.SeedRoles, k + 1) && Valid()
    {
      var _ := CreateRole(Store.SeedRoles[k]);
    }

    /*
     * Lookups by id (`map.get`).
     */

    function GetRole(id: nat): (r: Option<Role>)
      reads this
      ensures r == Store.Get(roles, id)
    {
      if id in roles then Some(roles[id]) else None
    }

    function GetBudgetItem(id: nat): (r: Option<BudgetItem>)
      reads this
      ensures r == Store.Get(budgetItems, id)
    {
      if id in budgetItems then Some(budgetItems[id]) else None
    }

    function GetBudgetObligation(id: nat): (r: Option<BudgetObligation>)
      reads this
      ensures r == Store.Get(budgetObligations, id)
    {
      if id in budgetObligations then Some(budgetObligations[id]) else None
    }

    function GetJournalEntry(id: nat): (r: Option<JournalEntry>)
      reads this
      ensures r == Store.Get(journalEntries, id)
    {
      if id in journalEntries then Some(journalEntries[id]) else None
    }

    function GetVoucher(id: nat): (r: Option<Voucher>)
      reads this
      ensures r == Store.Get(vouchers, id)
    {
      if id in vouchers then Some(vouchers[id]) else None
    }

    /*
     * Creates: `const id = this.currentId.X++`, stamp the row, store it.
     */

    method CreateUser(x: User) returns (row: User)
      requires Valid()
      modifies this
      ensures (Db(), row) == Store.CreateUser(old(Db()), x)
      ensures Valid()
    {
      Store.CreateUserAppends(Db(), x);
      var id := currentId.users;
      currentId := currentId.(users := id + 1);
      row := x.(id := id);
      users := users[id := row];
    }

    method CreateRole(x: Role) returns (row: Role)
      requires Valid()
      modifies this
      ensures (Db(), row) == Store.CreateRole(old(Db()), x)
      ensures Valid()
    {
      Store.CreateRoleAppends(Db(), x);
      var id := currentId.roles;
      currentId := currentId.(roles := id + 1);
      row := x.(id := id);
      roles := roles[id := row];
    }

    method CreateAip(x: Aip, now: Time) returns (row: Aip)
      requires Valid()
      modifies this
      ensures (Db(), row) == Store.CreateAip(old(Db()), x, now)
      ensures Valid()
    {
      Store.CreateAipAppends(Db(), x, now);
      var id := currentId.aips;
      currentId := currentId.(aips := id + 1);
      row := x.(id := id, createdAt := now, updatedAt := now);
      aips := aips[id := row];
    }

    method CreateAipItem(x: AipItem, now: Time) returns (row: AipItem)
      requires Valid()
      modifies this
      ensures (Db(), row) == Store.CreateAipItem(old(Db()), x, now)
      ensures Valid()
    {
      Store.CreateAipItemAppends(Db(), x, now);
      var id := currentId.aipItems;
      currentId := currentId.(aipItems := id + 1);
      row := x.(id := id, createdAt := now, updatedAt := now);
      aipItems := aipItems[id := row];
    }

    method CreateBudgetItem(x: BudgetItem, now: Time) returns (row: BudgetItem)
      requires Valid()
      modifies this
      ensures (Db(), row) == Store.CreateBudgetItem(old(Db()), x, now)
      ensures Valid()
    {
      Store.CreateBudgetItemAppends(Db(), x, now);
      var id := currentId.budgetItems;
      currentId := currentId.(budgetItems := id + 1);
      row := x.(id := id, createdAt := now, updatedAt := now);
      budgetItems := budgetItems[id := row];
    }

    method CreateJournalEntry(x: JournalEntry, now: Time) returns (row: JournalEntry)
      requires Valid()
      modifies this
      ensures (Db(), row) == Store.CreateJournalEntry(old(Db()), x, now)
      ensures Valid()
    {
      Store.CreateJournalEntryAppends(Db(), x, now);
      var id := currentId.journalEntries;
      currentId := currentId.(journalEntries := id + 1);
      row := x.(id := id, createdAt := now, updatedAt := now);
      journalEntries := journalEntries[id := row];
    }

    method CreateJournalEntryItem(x: JournalEntryItem, now: Time) returns (row: JournalEntryItem)
      requires Valid()
      modifies this
      ensures (Db(), row) == Store.CreateJournalEntryItem(old(Db()), x, now)
      ensures Valid()
    {
      Store.CreateJournalEntryItemAppends(Db(), x, now);
      var id := currentId.journalEntryItems;
      currentId := currentId.(journalEntryItems := id + 1);
      row := x.(id := id, createdAt := now);
      journalEntryItems := journalEntryItems[id := row];
    }

    method CreateVoucher(x: Voucher, now: Time) returns (row: Voucher)
      requires Valid()
      modifies this
      ensures (Db(), row) == Store.CreateVoucher(old(Db()), x, now)
      ensures Valid()
    {
      Store.CreateVoucherAppends(Db(), x, now);
      var id := currentId.vouchers;
      currentId := currentId.(vouchers := id + 1);
      row := x.(id := id, createdAt := now, updatedAt := now);
      vouchers := vouchers[id := row];
    }

    method CreateCollection(x: Collection, now: Time) returns (row: Collection)
      requires Valid()
      modifies this
      ensures (Db(), row) == Store.CreateCollection(old(Db()), x, now)
      ensures Valid()
    {
      Store.CreateCollectionAppends(Db(), x, now);
      var id := currentId.collections;
      currentId := currentId.(collections := id + 1);
      row := x.(id := id, createdAt := now, updatedAt := now);
      collections := collections[id := row];
    }

    method CreateEmployee(x: Employee, now: Time) returns (row: Employee)
      requires Valid()
      modifies this
      ensures (Db(), row) == Store.CreateEmployee(old(Db()), x, now)
      ensures Valid()
    {
      Store.CreateEmployeeAppends(Db(), x, now);
      var id := currentId.employees;
      currentId := currentId.(employees := id + 1);
      row := x.(id := id, createdAt := now, updatedAt := now);
      employees := employees[id := row];
    }

    method CreatePayroll(x: Payroll, now: Time) returns (row: Payroll)
      requires Valid()
      modifies this
      ensures (Db(), row) == Store.CreatePayroll(old(Db()), x, now)
      ensures Valid()
    {
      Store.CreatePayrollAppends(Db(), x, now);
      var id := currentId.payrolls;
      currentId := currentId.(payrolls := id + 1);
      row := x.(id := id, createdAt := now, updatedAt := now);
      payrolls := payrolls[id := row];
    }

    method CreatePayrollItem(x: PayrollItem, now: Time) returns (row: PayrollItem)
      requires Valid()
      modifies this
      ensures (Db(), row) == Store.CreatePayrollItem(old(Db()), x, now)
      ensures Valid()
    {
      Store.CreatePayrollItemAppends(Db(), x, now);
      var id := currentId.payrollItems;
      currentId := currentId.(payrollItems := id + 1);
      row := x.(id := id, createdAt := now, updatedAt := now);
      payrollItems := payrollItems[id := row];
    }

    /** Insert the obligation, then lower its budget item's balance by the amount. */
    method CreateBudgetObligation(x: BudgetObligation, now: Time) returns (row: BudgetObligation)
      requires Valid()
      modifies this
      ensures (Db(), row) == Store.CreateBudgetObligation(old(Db()), x, now)
      ensures Valid()
    {
      var id := currentId.budgetObligations;
      currentId := currentId.(budgetObligations := id + 1);
      row := x.(id := id, createdAt := now, updatedAt := now);
      Store.KeyedInsert(budgetObligations, id, Store.ObligationId, row);
      budgetObligations := budgetObligations[id := row];
      assert (Db(), row) == Store.InsertObligation(old(Db()), x, now);
      assert Valid();
      var item := GetBudgetItem(row.budgetItemId);
      if item.Some? {
        var newBalance := item.value.balance - row.amount;
        var _ := UpdateBudgetItem(item.value.id, BalanceOnly(newBalance), now);
      }
    }

    /** Insert the disbursement, then mark its voucher paid. */
    method CreateDisbursement(x: Disbursement, now: Time) returns (row: Disbursement)
      requires Valid()
      modifies this
      ensures (Db(), row) == Store.CreateDisbursement(old(Db()), x, now)
      ensures Valid()
    {
      var id := currentId.disbursements;
      currentId := currentId.(disbursements := id + 1);
      row := x.(id := id, createdAt := now, updatedAt := now);
      Store.KeyedInsert(disbursements, id, Store.DisbursementId, row);
      disbursements := disbursements[id := row];
      assert (Db(), row) == Store.InsertDisbursement(old(Db()), x, now);
      assert Valid();
      var voucher := GetVoucher(row.voucherId);
      if voucher.Some? {
        var _ := UpdateVoucher(voucher.value.id, VoucherStatusOnly(Paid), now);
      }
    }

    /*
     * Updates: a missing id answers `None` and changes nothing; otherwise the
     * patch is laid over the stored row.
     */

    method UpdateUser(id: nat, p: UserPatch) returns (row: Option<User>)
      requires Valid()
      modifies this
      ensures (Db(), row) == Store.UpdateUser(old(Db()), id, p)
      ensures Valid()
    {
      Store.UpdateUserReplaces(Db(), id, p);
      if id !in users {
        return None;
      }
      var updated := ApplyUserPatch(users[id], p);
      users := users[id := updated];
      row := Some(updated);
    }

    method UpdateAip(id: nat, p: AipPatch, now: Time) returns (row: Option<Aip>)
      requires Valid()
      modifies this
      ensures (Db(), row) == Store.UpdateAip(old(Db()), id, p, now)
      ensures Valid()
    {
      Store.UpdateAipReplaces(Db(), id, p, now);
      if id !in aips {
        return None;
      }
      var updated := ApplyAipPatch(aips[id], p, now);
      aips := aips[id := updated];
      row := Some(updated);
    }

    method UpdateAipItem(id: nat, p: AipItemPatch, now: Time) returns (row: Option<AipItem>)
      requires Valid()
      modifies this
      ensures (Db(), row) == Store.UpdateAipItem(old(Db()), id, p, now)
      ensures Valid()
    {
      Store.UpdateAipItemReplaces(Db(), id, p, now);
      if id !in aipItems {
        return None;
      }
      var updated := ApplyAipItemPatch(aipItems[id], p, now);
      aipItems := aipItems[id := updated];
      row := Some(updated);
    }

    method UpdateBudgetItem(id: nat, p: BudgetItemPatch, now: Time) returns (row: Option<BudgetItem>)
      requires Valid()
      modifies this
      ensures (Db(), row) == Store.UpdateBudgetItem(old(Db()), id, p, now)
      ensures Valid()
    {
      Store.UpdateBudgetItemReplaces(Db(), id, p, now);
      if id !in budgetItems {
        return None;
      }
      var updated := ApplyBudgetItemPatch(budgetItems[id], p, now);
      budgetItems := budgetItems[id := updated];
      row := Some(updated);
    }

    method UpdateBudgetObligation(id: nat, p: ObligationPatch, now: Time) returns (row: Option<BudgetObligation>)
      requires Valid()
      modifies this
      ensures (Db(), row) == Store.UpdateBudgetObligation(old(Db()), id, p, now)
      ensures Valid()
    {
      Store.UpdateBudgetObligationReplaces(Db(), id, p, now);
      if id !in budgetObligations {
        return None;
      }
      var updated := ApplyObligationPatch(budgetObligations[id], p, now);
      budgetObligations := budgetObligations[id := updated];
      row := Some(updated);
    }

    method UpdateJournalEntry(id: nat, p: JournalEntryPatch, now: Time) returns (row: Option<JournalEntry>)
      requires Valid()
      modifies this
      ensures (Db(), row) == Store.UpdateJournalEntry(old(Db()), id, p, now)
      ensures Valid()
    {
      Store.UpdateJournalEntryReplaces(Db(), id, p, now);
      if id !in journalEntries {
        return None;
      }
      var updated := ApplyJournalEntryPatch(journalEntries[id], p, now);
      journalEntries := journalEntries[id := updated];
      row := Some(updated);
    }

    method UpdateVoucher(id: nat, p: VoucherPatch, now: Time) returns (row: Option<Voucher>)
      requires Valid()
      modifies this
      ensures (Db(), row) == Store.UpdateVoucher(old(Db()), id, p, now)
      ensures Valid()
    {
      Store.UpdateVoucherReplaces(Db(), id, p, now);
      if id !in vouchers {
        return None;
      }
      var updated := ApplyVoucherPatch(vouchers[id], p, now);
      vouchers := vouchers[id := updated];
      row := Some(updated);
    }

    method UpdateDisbursement(id: nat, p: DisbursementPatch, now: Time) returns (row: Option<Disbursement>)
      requires Valid()
      modifies this
      ensures (Db(), row) == Store.UpdateDisbursement(old(Db()), id, p, now)
      ensures Valid()
    {
      Store.UpdateDisbursementReplaces(Db(), id, p, now);
      if id !in disbursements {
        return None;
      }
      var updated := ApplyDisbursementPatch(disbursements[id], p, now);
      disbursements := disbursements[id := updated];
      row := Some(updated);
    }

    method UpdateCollection(id: nat, p: CollectionPatch, now: Time) returns (row: Option<Collection>)
      requires Valid()
      modifies this
      ensures (Db(), row) == Store.UpdateCollection(old(Db()), id, p, now)
      ensures Valid()
    {
      Store.UpdateCollectionReplaces(Db(), id, p, now);
      if id !in collections {
        return None;
      }
      var updated := ApplyCollectionPatch(collections[id], p, now);
      collections := collections[id := updated];
      row := Some(updated);
    }

    method UpdateEmployee(id: nat, p: EmployeePatch, now: Time) returns (row: Option<Employee>)
      requires Valid()
      modifies this
      ensures (Db(), row) == Store.UpdateEmployee(old(Db()), id, p, now)
      ensures Valid()
    {
      Store.UpdateEmployeeReplaces(Db(), id, p, now);
      if id !in employees {
        return None;
      }
      var updated := ApplyEmployeePatch(employees[id], p, now);
      employees := employees[id := updated];
      row := Some(updated);
    }

    method UpdatePayroll(id: nat, p: PayrollPatch, now: Time) returns (row: Option<Payroll>)
      requires Valid()
      modifies this
      ensures (Db(), row) == Store.UpdatePayroll(old(Db()), id, p, now)
      ensures Valid()
    {
      Store.UpdatePayrollReplaces(Db(), id, p, now);
      if id !in payrolls {
        return None;
      }
      var updated := ApplyPayrollPatch(payrolls[id], p, now);
      payrolls := payrolls[id := updated];
      row := Some(updated);
    }
  }
}
