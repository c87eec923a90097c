/**
 * The HTTP handlers of server/routes.ts that move money through the
 * workflow, and the `checkModuleAccess` middleware in front of them.
 *
 * Each handler is a function from the store (and the caller, the body and the
 * clock) to the new store and the response; `Serve*` methods perform the same
 * lookups, guards and writes on a `MemStorage` and are proved equal to them.
 * Request bodies arrive already validated: a body is a whole row whose `id`
 * and timestamps the store overwrites.
 */
module Routes {
  import opened Wrappers
  import opened Schema
  import opened Store
  import Storage

  /** `req.isAuthenticated()` and `req.user` as the session layer presents them. */
  datatype Session = Session(authenticated: bool, user: Option<User>)

  /** The middleware either calls `next()` or answers with an error status and message. */
  datatype Access = Next | Deny(code: nat, message: string)

  /** `res.status(code).json(body)` on success, `res.status(code).json({ message })` on an error. */
  datatype Response<T> = Reply(code: nat, body: T) | Reject(code: nat, message: string)

  /**
   * `checkModuleAccess(module)`: the caller passes iff signed in with a
   * non-zero role id naming a stored role whose module is the route's module
   * or "admin". A missing session answers 401, every other refusal 403.
   */
  function CheckModuleAccess(session: Session, roles: map<nat, Role>, moduleName: string): (a: Access)
    ensures a == Next <==>
      && session.authenticated && session.user.Some? && session.user.value.roleId != 0
      && session.user.value.roleId in roles
      && (roles[session.user.value.roleId].moduleName == moduleName || roles[session.user.value.roleId].moduleName == Admin)
    ensures a.Deny? ==> (a.code == 401 <==> !session.authenticated) && a.code in {401, 403}
  {
    if !session.authenticated then Deny(401, "Unauthorized")
    else if session.user.None? || session.user.value.roleId == 0 then Deny(403, "Invalid user role")
    else
      match Get(roles, session.user.value.roleId)
      case None => Deny(403, "Role not found")
      case Some(role) =>
        if role.moduleName == moduleName || role.moduleName == Admin then Next
        else Deny(403, "Access denied to this module")
  }

  // ---------------------------------------------------------------- handlers

  /** POST /api/budget/item: the creator is the caller and the balance starts equal to the amount. */
  function PostBudgetItem(db: Db, user: User, body: BudgetItem, now: Time): (Db, Response<BudgetItem>) {
    var (db', row) := CreateBudgetItem(db, body.(createdBy := user.id, balance := body.amount), now);
    (db', Reply(201, row))
  }

  /**
   * POST /api/budget/obligation: 404 when the budget item is missing, 400 when
   * its balance is below the amount, otherwise create (which lowers the balance).
   */
  function PostObligation(db: Db, user: User, body: BudgetObligation, now: Time): (Db, Response<BudgetObligation>) {
    var o := body.(createdBy := user.id);
    match Get(db.budgetItems, o.budgetItemId)
    case None => (db, Reject(404, "Budget item not found"))
    case Some(item) =>
      if item.balance < o.amount then (db, Reject(400, "Insufficient budget balance"))
      else
        var (db', row) := CreateBudgetObligation(db, o, now);
        (db', Reply(201, row))
  }

  /** PUT /api/budget/obligation/:id: 404 when missing, otherwise the body plus who processed it and when. */
  function PutObligation(db: Db, user: User, id: nat, body: ObligationPatch, now: Time)
    : (Db, Response<Option<BudgetObligation>>)
  {
    if id !in db.budgetObligations then (db, Reject(404, "Obligation not found"))
    else
      var (db', row) := UpdateBudgetObligation(
        db, id, body.(processedBy := Some(Some(user.id)), processedAt := Some(Some(now))), now);
      (db', Reply(200, row))
  }

  /** POST /api/accounting/journal-entry-item: stored without looking at the entry. */
  function PostJournalEntryItem(db: Db, body: JournalEntryItem, now: Time): (Db, Response<JournalEntryItem>) {
    var (db', row) := CreateJournalEntryItem(db, body, now);
    (db', Reply(201, row))
  }

  /** `if (existingJournalEntry.obligationId)`: a present, non-zero obligation id. */
  predicate LinksObligation(e: JournalEntry) {
    e.obligationId.Some? && e.obligationId.value != 0
  }

  /**
   * PUT /api/accounting/journal-entry/:id: 404 when missing. A body moving the
   * entry into "posted" also records who posted it and when, and marks the
   * entry's obligation processed; any other body is laid over the entry as is.
   */
  function PutJournalEntry(db: Db, user: User, id: nat, body: JournalEntryPatch, now: Time)
    : (Db, Response<Option<JournalEntry>>)
  {
    if id !in db.journalEntries then (db, Reject(404, "Journal entry not found"))
    else
      var existing := db.journalEntries[id];
      if body.status == Some(Posted) && existing.status != Posted then
        var (db1, row) := UpdateJournalEntry(
          db, id, body.(postedBy := Some(Some(user.id)), postedAt := Some(Some(now))), now);
        var db2 := if LinksObligation(existing)
          then UpdateBudgetObligation(db1, existing.obligationId.value, ObligationStatusOnly(Processed), now).0
          else db1;
        (db2, Reply(200, row))
      else
        var (db1, row) := UpdateJournalEntry(db, id, body, now);
        (db1, Reply(200, row))
  }

  /**
   * PUT /api/accounting/voucher/:id: 404 when missing. A body moving the
   * voucher into "approved" also records who approved it and when; any other
   * body is laid over the voucher as is.
   */
  function PutVoucher(db: Db, user: User, id: nat, body: VoucherPatch, now: Time): (Db, Response<Option<Voucher>>) {
    if id !in db.vouchers then (db, Reject(404, "Voucher not found"))
    else
      var existing := db.vouchers[id];
      var patch := if body.status == Some(Approved) && existing.status != Approved
        then body.(approvedBy := Some(Some(user.id)), approvedAt := Some(Some(now)))
        else body;
      var (db', row) := UpdateVoucher(db, id, patch, now);
      (db', Reply(200, row))
  }

  /**
   * POST /api/treasury/disbursement: 404 when the voucher is missing, 400
   * unless it is approved, otherwise create (which marks the voucher paid).
   */
  function PostDisbursement(db: Db, user: User, body: Disbursement, now: Time): (Db, Response<Disbursement>) {
    var d := body.(createdBy := user.id);
    match Get(db.vouchers, d.voucherId)
    case None => (db, Reject(404, "Voucher not found"))
    case Some(v) =>
      if v.status != Approved then (db, Reject(400, "Voucher must be approved before disbursement"))
      else
        var (db', row) := CreateDisbursement(db, d, now);
        (db', Reply(201, row))
  }

  // ---------------------------------------------------------------- dispatch

  /** The state-changing requests of the fiscal chain. */
  datatype Request =
    | BudgetItemPost(item: BudgetItem)
    | ObligationPost(obligation: BudgetObligation)
    | ObligationPut(obligationId: nat, obligationPatch: ObligationPatch)
    | JournalEntryItemPost(entryItem: JournalEntryItem)
    | JournalEntryPut(entryId: nat, entryPatch: JournalEntryPatch)
    | VoucherPut(voucherId: nat, voucherPatch: VoucherPatch)
    | DisbursementPost(disbursement: Disbursement)

  /** The module each route is registered under. */
  function ModuleOf(r: Request): string {
    match r
    case BudgetItemPost(_) => Budget
    case ObligationPost(_) => Budget
    case ObligationPut(_, _) => Budget
    case JournalEntryItemPost(_) => Accounting
    case JournalEntryPut(_, _) => Accounting
    case VoucherPut(_, _) => Accounting
    case DisbursementPost(_) => Treasury
  }

  /** The access check, then the handler: the new store and the status code. */
  function Dispatch(db: Db, session: Session, r: Request, now: Time): (Db, nat) {
    match CheckModuleAccess(session, db.roles, ModuleOf(r))
    case Deny(code, _) => (db, code)
    case Next =>
      var user := session.user.value;
      match r
      case BudgetItemPost(b) => var (db', res) := PostBudgetItem(db, user, b, now); (db', res.code)
      case ObligationPost(o) => var (db', res) := PostObligation(db, user, o, now); (db', res.code)
      case ObligationPut(id, p) => var (db', res) := PutObligation(db, user, id, p, now); (db', res.code)
      case JournalEntryItemPost(i) => var (db', res) := PostJournalEntryItem(db, i, now); (db', res.code)
      case JournalEntryPut(id, p) => var (db', res) := PutJournalEntry(db, user, id, p, now); (db', res.code)
      case VoucherPut(id, p) => var (db', res) := PutVoucher(db, user, id, p, now); (db', res.code)
      case DisbursementPost(d) => var (db', res) := PostDisbursement(db, user, d, now); (db', res.code)
  }

  // ---------------------------------------------------------------- handlers on the store

  method ServePostBudgetItem(store: Storage.MemStorage, user: User, body: BudgetItem, now: Time)
    returns (r: Response<BudgetItem>)
    requires store.Valid()
    modifies store
    ensures (store.Db(), r) == PostBudgetItem(old(store.Db()), user, body, now)
    ensures store.Valid()
  {
    var data := body.(createdBy := user.id);
    data := data.(balance := data.amount);
    var row := store.CreateBudgetItem(data, now);
    r := Reply(201, row);
  }

  method ServePostObligation(store: Storage.MemStorage, user: User, body: BudgetObligation, now: Time)
    returns (r: Response<BudgetObligation>)
    requires store.Valid()
    modifies store
    ensures (store.Db(), r) == PostObligation(old(store.Db()), user, body, now)
    ensures store.Valid()
  {
    var data := body.(createdBy := user.id);
    var item := store.GetBudgetItem(data.budgetItemId);
    if item.None? {
      return Reject(404, "Budget item not found");
    }
    if item.value.balance < data.amount {
      return Reject(400, "Insufficient budget balance");
    }
    var row := store.CreateBudgetObligation(data, now);
    r := Reply(201, row);
  }

  method ServePutObligation(store: Storage.MemStorage, user: User, id: nat, body: ObligationPatch, now: Time)
    returns (r: Response<Option<BudgetObligation>>)
    requires store.Valid()
    modifies store
    ensures (store.Db(), r) == PutObligation(old(store.Db()), user, id, body, now)
    ensures store.Valid()
  {
    var existing := store.GetBudgetObligation(id);
    if existing.None? {
      return Reject(404, "Obligation not found");
    }
    var row := store.UpdateBudgetObligation(
      id, body.(processedBy := Some(Some(user.id)), processedAt := Some(Some(now))), now);
    r := Reply(200, row);
  }

  method ServePostJournalEntryItem(store: Storage.MemStorage, body: JournalEntryItem, now: Time)
    returns (r: Response<JournalEntryItem>)
    requires store.Valid()
    modifies store
    ensures (store.Db(), r) == PostJournalEntryItem(old(store.Db()), body, now)
    ensures store.Valid()
  {
    var row := store.CreateJournalEntryItem(body, now);
    r := Reply(201, row);
  }

  method ServePutJournalEntry(store: Storage.MemStorage, user: User, id: nat, body: JournalEntryPatch, now: Time)
    returns (r: Response<Option<JournalEntry>>)
    requires store.Valid()
    modifies store
    ensures (store.Db(), r) == PutJournalEntry(old(store.Db()), user, id, body, now)
    ensures store.Valid()
  {
    var existing := store.GetJournalEntry(id);
    if existing.None? {
      return Reject(404, "Journal entry not found");
    }
    if body.status == Some(Posted) && existing.value.status != Posted {
      var row := store.UpdateJournalEntry(
        id, body.(postedBy := Some(Some(user.id)), postedAt := Some(Some(now))), now);
      if LinksObligation(existing.value) {
        var _ := store.UpdateBudgetObligation(existing.value.obligationId.value, ObligationStatusOnly(Processed), now);
      }
      return Reply(200, row);
    }
    var row := store.UpdateJournalEntry(id, body, now);
    r := Reply(200, row);
  }

  method ServePutVoucher(store: Storage.MemStorage, user: User, id: nat, body: VoucherPatch, now: Time)
    returns (r: Response<Option<Voucher>>)
    requires store.Valid()
    modifies store
    ensures (store.Db(), r) == PutVoucher(old(store.Db()), user, id, body, now)
    ensures store.Valid()
  {
    var existing := store.GetVoucher(id);
    if existing.None? {
      return Reject(404, "Voucher not found");
    }
    if body.status == Some(Approved) && existing.value.status != Approved {
      var row := store.UpdateVoucher(
        id, body.(approvedBy := Some(Some(user.id)), approvedAt := Some(Some(now))), now);
      return Reply(200, row);
    }
    var row := store.UpdateVoucher(id, body, now);
    r := Reply(200, row);
  }

  method ServePostDisbursement(store: Storage.MemStorage, user: User, body: Disbursement, now: Time)
    returns (r: Response<Disbursement>)
    requires store.Valid()
    modifies store
    ensures (store.Db(), r) == PostDisbursement(old(store.Db()), user, body, now)
    ensures store.Valid()
  {
    var data := body.(createdBy := user.id);
    var voucher := store.GetVoucher(data.voucherId);
    if voucher.None? {
      return Reject(404, "Voucher not found");
    }
    if voucher.value.status != Approved {
      return Reject(400, "Voucher must be approved before disbursement");
    }
    var row := store.CreateDisbursement(data, now);
    r := Reply(201, row);
  }

  /** The middleware, then the route's handler. */
  method Serve(store: Storage.MemStorage, session: Session, r: Request, now: Time) returns (code: nat)
    requires store.Valid()
    modifies store
    ensures (store.Db(), code) == Dispatch(old(store.Db()), session, r, now)
    ensures store.Valid()
  {
    var access := CheckModuleAccess(session, store.roles, ModuleOf(r));
    if access.Deny? {
      return access.code;
    }
    var user := session.user.value;
    match r
    case BudgetItemPost(b) =>
      var res := ServePostBudgetItem(store, user, b, now);
      code := res.code;
    case ObligationPost(o) =>
      var res := ServePostObligation(store, user, o, now);
      code := res.code;
    case ObligationPut(id, p) =>
      var res := ServePutObligation(store, user, id, p, now);
      code := res.code;
    case JournalEntryItemPost(i) =>
      var res := ServePostJournalEntryItem(store, i, now);
      code := res.code;
    case JournalEntryPut(id, p) =>
      var res := ServePutJournalEntry(store, user, id, p, now);
      code := res.code;
    case VoucherPut(id, p) =>
      var res := ServePutVoucher(store, user, id, p, now);
      code := res.code;
    case DisbursementPost(d) =>
      var res := ServePostDisbursement(store, user, d, now);
      code := res.code;
  }
}
