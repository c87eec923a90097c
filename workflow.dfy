/**
 * What the handlers of server/routes.ts promise a caller, one route at a
 * time: which status code each request gets and exactly what the store looks
 * like afterwards. Together with the `Ledger` invariant these are the rules
 * of the fiscal chain budget item → obligation → journal entry → voucher →
 * disbursement as the server enforces them (and no more: the server checks no
 * debit/credit balance, no transition order beyond the guards below, and
 * never gives an obligation's amount back).
 */
module Workflow {
  import opened Wrappers
  import opened Schema
  import opened Store
  import opened Routes

  // ---------------------------------------------------------------- budget items

  /** Whatever balance the body carries, a new budget item starts with its whole amount available. */
  lemma NewBudgetItemStartsFull(db: Db, user: User, body: BudgetItem, now: Time)
    requires Valid(db)
    ensures var (db', res) := PostBudgetItem(db, user, body, now);
      && res.Reply? && res.code == 201
      && res.body.balance == res.body.amount == body.amount
      && res.body.createdBy == user.id
      && res.body.id !in db.budgetItems
      && db'.budgetItems == db.budgetItems[res.body.id := res.body]
      && BudgetItems(db') == BudgetItems(db) + [res.body]
  {
    CreateBudgetItemAppends(db, body.(createdBy := user.id, balance := body.amount), now);
  }

  // ---------------------------------------------------------------- obligations

  /**
   * 404 exactly when the budget item is missing, 400 exactly when its balance
   * is below the amount, 201 otherwise; a refused request changes nothing.
   */
  lemma PostObligationCodes(db: Db, user: User, body: BudgetObligation, now: Time)
    ensures var (db', res) := PostObligation(db, user, body, now);
      && (res.code == 404 <==> body.budgetItemId !in db.budgetItems)
      && (res.code == 400 <==> body.budgetItemId in db.budgetItems && db.budgetItems[body.budgetItemId].balance < body.amount)
      && (res.code == 201 <==> body.budgetItemId in db.budgetItems && db.budgetItems[body.budgetItemId].balance >= body.amount)
      && (res.Reject? ==> db' == db)
  {
  }

  /**
   * An accepted obligation is appended to the obligations and lowers its
   * budget item's balance by its amount, never below zero; it is stored as
   * sent, with the caller as its creator.
   */
  lemma PostObligationAccepted(db: Db, user: User, body: BudgetObligation, now: Time)
    requires Valid(db)
    requires body.budgetItemId in db.budgetItems && db.budgetItems[body.budgetItemId].balance >= body.amount
    ensures var (db', res) := PostObligation(db, user, body, now);
      var b := db.budgetItems[body.budgetItemId];
      && res.Reply? && res.code == 201
      && res.body == body.(id := db.currentId.budgetObligations, createdBy := user.id, createdAt := now, updatedAt := now)
      && Obligations(db') == Obligations(db) + [res.body]
      && db'.budgetItems[body.budgetItemId] == b.(balance := b.balance - body.amount, updatedAt := now)
      && db'.budgetItems[body.budgetItemId].balance >= 0
  {
    var o := body.(createdBy := user.id);
    CreateBudgetObligationAppends(db, o, now);
    CreateBudgetObligationEffect(db, o, now);
  }

  /** The guard is `balance < amount`, so an obligation of exactly the balance is accepted and leaves zero. */
  lemma ExactBalanceIsAccepted(db: Db, user: User, body: BudgetObligation, now: Time)
    requires Valid(db)
    requires body.budgetItemId in db.budgetItems && db.budgetItems[body.budgetItemId].balance == body.amount
    ensures var (db', res) := PostObligation(db, user, body, now);
      res.code == 201 && db'.budgetItems[body.budgetItemId].balance == 0
  {
    PostObligationAccepted(db, user, body, now);
  }

  /**
   * Obligations against one item of 100000 centavos: 60000 is accepted, 50000
   * is then refused with 400 and changes nothing, 40000 is accepted and uses
   * the item up exactly.
   */
  lemma ObligationsDrawDownOneItem(db: Db, user: User, o1: BudgetObligation, o2: BudgetObligation,
                                   o3: BudgetObligation, t1: Time, t2: Time, t3: Time)
    requires Valid(db)
    requires o1.budgetItemId in db.budgetItems && db.budgetItems[o1.budgetItemId].balance == 100000
    requires o2.budgetItemId == o3.budgetItemId == o1.budgetItemId
    requires o1.amount == 60000 && o2.amount == 50000 && o3.amount == 40000
    ensures var (db1, r1) := PostObligation(db, user, o1, t1);
      var (db2, r2) := PostObligation(db1, user, o2, t2);
      var (db3, r3) := PostObligation(db2, user, o3, t3);
      && r1.code == 201 && r2.code == 400 && db2 == db1 && r3.code == 201
      && db3.budgetItems[o1.budgetItemId].balance == 0
  {
    var k := o1.budgetItemId;
    PostObligationAccepted(db, user, o1, t1);
    var db1 := PostObligation(db, user, o1, t1).0;
    CreateBudgetObligationAppends(db, o1.(createdBy := user.id), t1);
    CreateBudgetObligationEffect(db, o1.(createdBy := user.id), t1);
    assert k in db1.budgetItems && db1.budgetItems[k].balance == 40000;
    PostObligationCodes(db1, user, o2, t2);
    ExactBalanceIsAccepted(db1, user, o3, t3);
  }

  /** PUT obligation: 404 when missing, otherwise the body laid over the row plus who processed it and when. */
  lemma PutObligationStampsProcessor(db: Db, user: User, id: nat, body: ObligationPatch, now: Time)
    requires Valid(db)
    ensures var (db', res) := PutObligation(db, user, id, body, now);
      && (id !in db.budgetObligations ==> db' == db && res == Reject(404, "Obligation not found"))
      && (id in db.budgetObligations ==>
            var row := ApplyObligationPatch(db.budgetObligations[id], body, now).(processedBy := Some(user.id),
                                                                                  processedAt := Some(now));
            && res == Reply(200, Some(row))
            && db' == db.(budgetObligations := db.budgetObligations[id := row]))
  {
    UpdateBudgetObligationReplaces(db, id, body.(processedBy := Some(Some(user.id)), processedAt := Some(Some(now))), now);
  }

  // ---------------------------------------------------------------- journal entries

  /** Items are stored whatever the state of their entry, even after it is posted or when it does not exist. */
  lemma ItemsAcceptedInAnyEntryState(db: Db, item: JournalEntryItem, now: Time)
    requires Valid(db)
    ensures var (db', res) := PostJournalEntryItem(db, item, now);
      && res.Reply? && res.code == 201
      && JournalEntryItems(db', item.journalEntryId) == JournalEntryItems(db, item.journalEntryId) + [res.body]
      && db'.journalEntries == db.journalEntries
  {
    JournalEntryItemsAfterCreate(db, item, now);
  }

  /** The journal-entry PUT refuses only a missing entry. */
  lemma PutJournalEntryMissing(db: Db, user: User, id: nat, body: JournalEntryPatch, now: Time)
    requires id !in db.journalEntries
    ensures PutJournalEntry(db, user, id, body, now) == (db, Reject(404, "Journal entry not found"))
  {
  }

  /** The entry as a posting PUT leaves it: the body, then the caller and the time as poster. */
  function PostedEntry(e: JournalEntry, body: JournalEntryPatch, user: User, now: Time): JournalEntry {
    ApplyJournalEntryPatch(e, body.(postedBy := Some(Some(user.id)), postedAt := Some(Some(now))), now)
  }

  lemma PostedEntryFields(e: JournalEntry, body: JournalEntryPatch, user: User, now: Time)
    requires body.status == Some(Posted)
    ensures var p := PostedEntry(e, body, user, now);
      && p.status == Posted && p.postedBy == Some(user.id) && p.postedAt == Some(now)
      && p.id == e.id && p.createdAt == e.createdAt && p.updatedAt == now
  {
  }

  /**
   * Posting a draft (or any not-yet-posted) entry stamps who posted it and
   * when, and when the entry was raised from an obligation, marks that
   * obligation processed and changes nothing else about it.
   */
  lemma PostingStampsEntry(db: Db, user: User, id: nat, body: JournalEntryPatch, now: Time)
    requires Valid(db)
    requires id in db.journalEntries && body.status == Some(Posted) && db.journalEntries[id].status != Posted
    ensures var (db', res) := PutJournalEntry(db, user, id, body, now);
      var row := PostedEntry(db.journalEntries[id], body, user, now);
      && res == Reply(200, Some(row))
      && db'.journalEntries == db.journalEntries[id := row]
      && row.status == Posted && row.postedBy == Some(user.id) && row.postedAt == Some(now)
  {
    var e := db.journalEntries[id];
    var patch := body.(postedBy := Some(Some(user.id)), postedAt := Some(Some(now)));
    UpdateJournalEntryReplaces(db, id, patch, now);
    PostedEntryFields(e, body, user, now);
    if LinksObligation(e) {
      var db1 := UpdateJournalEntry(db, id, patch, now).0;
      UpdateBudgetObligationReplaces(db1, e.obligationId.value, ObligationStatusOnly(Processed), now);
    }
  }

  /** The obligation side of posting: the linked obligation, if stored, becomes processed. */
  lemma PostingProcessesObligation(db: Db, user: User, id: nat, body: JournalEntryPatch, now: Time)
    requires Valid(db)
    requires id in db.journalEntries && body.status == Some(Posted) && db.journalEntries[id].status != Posted
    ensures var (db', _) := PutJournalEntry(db, user, id, body, now);
      var e := db.journalEntries[id];
      && (LinksObligation(e) && e.obligationId.value in db.budgetObligations ==>
            var o := db.budgetObligations[e.obligationId.value];
            db'.budgetObligations == db.budgetObligations[o.id := o.(status := Processed, updatedAt := now)])
      && (!(LinksObligation(e) && e.obligationId.value in db.budgetObligations) ==>
            db'.budgetObligations == db.budgetObligations)
  {
    var e := db.journalEntries[id];
    var patch := body.(postedBy := Some(Some(user.id)), postedAt := Some(Some(now)));
    UpdateJournalEntryReplaces(db, id, patch, now);
    if LinksObligation(e) {
      var db1 := UpdateJournalEntry(db, id, patch, now).0;
      var oid := e.obligationId.value;
      UpdateBudgetObligationReplaces(db1, oid, ObligationStatusOnly(Processed), now);
      if oid in db.budgetObligations {
        ObligationStatusPatchKeepsFields(db.budgetObligations[oid], Processed, now);
      }
    }
  }

  /**
   * Every other PUT — another status, or "posted" again on a posted entry — is
   * a plain patch: no stamps are added and no obligation changes.
   */
  lemma OtherEntryPutIsPlainPatch(db: Db, user: User, id: nat, body: JournalEntryPatch, now: Time)
    requires Valid(db)
    requires id in db.journalEntries && !(body.status == Some(Posted) && db.journalEntries[id].status != Posted)
    ensures var (db', res) := PutJournalEntry(db, user, id, body, now);
      var row := ApplyJournalEntryPatch(db.journalEntries[id], body, now);
      && res == Reply(200, Some(row))
      && db' == db.(journalEntries := db.journalEntries[id := row])
  {
    UpdateJournalEntryReplaces(db, id, body, now);
  }

  /** The server has no transition table: a posted entry can be put back to draft. */
  lemma PostedEntryCanBeReopened(db: Db, user: User, id: nat, body: JournalEntryPatch, now: Time)
    requires Valid(db)
    requires id in db.journalEntries && db.journalEntries[id].status == Posted && body.status == Some(Draft)
    ensures var (db', res) := PutJournalEntry(db, user, id, body, now);
      res.code == 200 && db'.journalEntries[id].status == Draft
      && db'.journalEntries[id].postedBy == body.postedBy.GetOr(db.journalEntries[id].postedBy)
  {
    OtherEntryPutIsPlainPatch(db, user, id, body, now);
  }

  // ---------------------------------------------------------------- vouchers

  /** The voucher as an approving PUT leaves it. */
  function ApprovedVoucher(v: Voucher, body: VoucherPatch, user: User, now: Time): Voucher {
    ApplyVoucherPatch(v, body.(approvedBy := Some(Some(user.id)), approvedAt := Some(Some(now))), now)
  }

  /**
   * Moving a voucher into "approved" from another status stamps who approved
   * it and when; every other PUT is the body laid over the row, so approving
   * twice keeps the first approver.
   */
  lemma PutVoucherStampsApproval(db: Db, user: User, id: nat, body: VoucherPatch, now: Time)
    requires Valid(db)
    ensures var (db', res) := PutVoucher(db, user, id, body, now);
      && (id !in db.vouchers ==> db' == db && res == Reject(404, "Voucher not found"))
      && (id in db.vouchers ==>
            var v := db.vouchers[id];
            var row := if body.status == Some(Approved) && v.status != Approved
              then ApprovedVoucher(v, body, user, now) else ApplyVoucherPatch(v, body, now);
            && res == Reply(200, Some(row))
            && db' == db.(vouchers := db.vouchers[id := row]))
  {
    if id in db.vouchers {
      var v := db.vouchers[id];
      var patch := if body.status == Some(Approved) && v.status != Approved
        then body.(approvedBy := Some(Some(user.id)), approvedAt := Some(Some(now))) else body;
      UpdateVoucherReplaces(db, id, patch, now);
    }
  }

  lemma ApprovalStampFields(v: Voucher, body: VoucherPatch, user: User, now: Time)
    requires body.status == Some(Approved)
    ensures var a := ApprovedVoucher(v, body, user, now);
      && a.status == Approved && a.approvedBy == Some(user.id) && a.approvedAt == Some(now)
      && a.id == v.id && a.amount == body.amount.GetOr(v.amount)
  {
  }

  /** A second "approved" PUT without stamps in its body keeps the first approval's stamps. */
  lemma ReapprovalKeepsStamps(db: Db, user: User, id: nat, now: Time)
    requires Valid(db)
    requires id in db.vouchers && db.vouchers[id].status == Approved
    ensures var (db', _) := PutVoucher(db, user, id, VoucherStatusOnly(Approved), now);
      && db'.vouchers[id].approvedBy == db.vouchers[id].approvedBy
      && db'.vouchers[id].approvedAt == db.vouchers[id].approvedAt
  {
    PutVoucherStampsApproval(db, user, id, VoucherStatusOnly(Approved), now);
  }

  // ---------------------------------------------------------------- disbursements

  /**
   * 404 exactly when the voucher is missing, 400 exactly when it is not
   * approved, 201 otherwise; a refused request changes nothing.
   */
  lemma PostDisbursementCodes(db: Db, user: User, body: Disbursement, now: Time)
    ensures var (db', res) := PostDisbursement(db, user, body, now);
      && (res.code == 404 <==> body.voucherId !in db.vouchers)
      && (res.code == 400 <==> body.voucherId in db.vouchers && db.vouchers[body.voucherId].status != Approved)
      && (res.code == 201 <==> body.voucherId in db.vouchers && db.vouchers[body.voucherId].status == Approved)
      && (res.Reject? ==> db' == db)
  {
  }

  /** An accepted disbursement is appended and its voucher becomes paid, all else about the voucher kept. */
  lemma PostDisbursementAccepted(db: Db, user: User, body: Disbursement, now: Time)
    requires Valid(db)
    requires body.voucherId in db.vouchers && db.vouchers[body.voucherId].status == Approved
    ensures var (db', res) := PostDisbursement(db, user, body, now);
      && res.Reply? && res.code == 201
      && res.body == body.(id := db.currentId.disbursements, createdBy := user.id, createdAt := now, updatedAt := now)
      && Disbursements(db') == Disbursements(db) + [res.body]
      && db'.vouchers == db.vouchers[body.voucherId := db.vouchers[body.voucherId].(status := Paid, updatedAt := now)]
  {
    var d := body.(createdBy := user.id);
    CreateDisbursementAppends(db, d, now);
    CreateDisbursementEffect(db, d, now);
  }

  /** Once a voucher is disbursed it is paid, so a second disbursement against it is refused. */
  lemma NoSecondDisbursement(db: Db, user: User, d1: Disbursement, d2: Disbursement, t1: Time, t2: Time)
    requires Valid(db)
    requires d1.voucherId in db.vouchers && db.vouchers[d1.voucherId].status == Approved
    requires d2.voucherId == d1.voucherId
    ensures var (db1, r1) := PostDisbursement(db, user, d1, t1);
      var (db2, r2) := PostDisbursement(db1, user, d2, t2);
      r1.code == 201 && r2 == Reject(400, "Voucher must be approved before disbursement") && db2 == db1
  {
    PostDisbursementAccepted(db, user, d1, t1);
    PostDisbursementCodes(PostDisbursement(db, user, d1, t1).0, user, d2, t2);
  }

  // ---------------------------------------------------------------- access

  /** A refused request never reaches its handler: the store is untouched and the code is 401 or 403. */
  lemma DeniedRequestChangesNothing(db: Db, session: Session, r: Request, now: Time)
    requires CheckModuleAccess(session, db.roles, ModuleOf(r)) != Next
    ensures var (db', code) := Dispatch(db, session, r, now);
      db' == db && code in {401, 403} && (code == 401 <==> !session.authenticated)
  {
  }

  /** A signed-in user whose role belongs to another module (and is not admin) gets 403 and changes nothing. */
  lemma OtherModulesAreClosed(db: Db, session: Session, r: Request, now: Time)
    requires session.authenticated && session.user.Some?
    requires session.user.value.roleId in db.roles
    requires db.roles[session.user.value.roleId].moduleName !in {ModuleOf(r), Admin}
    ensures Dispatch(db, session, r, now) == (db, 403)
  {
    DeniedRequestChangesNothing(db, session, r, now);
  }

  /** A user holding a stored admin role passes the check of every module. */
  lemma AdminPassesEveryCheck(session: Session, roles: map<nat, Role>, moduleName: string)
    requires session.authenticated && session.user.Some?
    requires session.user.value.roleId != 0 && session.user.value.roleId in roles
    requires roles[session.user.value.roleId].moduleName == Admin
    ensures CheckModuleAccess(session, roles, moduleName) == Next
  {
  }

  /** Role id 0 reads as "no role" (`!req.user.roleId`), even if a role 0 were stored. */
  lemma RoleIdZeroIsRefused(session: Session, roles: map<nat, Role>, moduleName: string)
    requires session.authenticated && session.user.Some? && session.user.value.roleId == 0
    ensures CheckModuleAccess(session, roles, moduleName) == Deny(403, "Invalid user role")
  {
  }
}
