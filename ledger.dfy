/**
 * The budget ledger the handlers maintain: a budget item's balance is its
 * amount less the amounts of the obligations recorded against it, and every
 * obligation names an existing budget item. Creation sets balance to amount,
 * each accepted obligation lowers it by exactly its amount, and nothing else
 * touches either side, so the identity holds in every reachable store.
 */
module Ledger {
  import opened Wrappers
  import opened Seqs
  import opened Schema
  import opened Store
  import opened Routes

  /** Σ amount over `getBudgetObligationsByBudgetItemId(itemId)`. */
  function Obligated(db: Db, itemId: nat): int {
    SumOf(ObligationsByBudgetItemId(db, itemId), (o: BudgetObligation) => o.amount)
  }

  /** Every stored obligation names a stored budget item. */
  ghost predicate ReferencesIntact(db: Db) {
    forall k :: k in db.budgetObligations ==> db.budgetObligations[k].budgetItemId in db.budgetItems
  }

  /** balance == amount − Σ obligations, for every budget item. */
  ghost predicate Balanced(db: Db) {
    forall k :: k in db.budgetItems ==> db.budgetItems[k].balance == db.budgetItems[k].amount - Obligated(db, k)
  }

  /** The store is well formed, references hold and every balance is amount less obligations. */
  ghost predicate Conserved(db: Db) {
    Valid(db) && ReferencesIntact(db) && Balanced(db)
  }

  ghost predicate BalancesNonNegative(db: Db) {
    forall k :: k in db.budgetItems ==> db.budgetItems[k].balance >= 0
  }

  // ---------------------------------------------------------------- sums over the obligations table

  /** The obligation sum only looks at each row's amount and budget item. */
  lemma {:induction false} ObligatedRowsFrame(m: map<nat, BudgetObligation>, m': map<nat, BudgetObligation>,
                                               itemId: nat, n: nat)
    requires forall k :: k in m <==> k in m'
    requires forall k :: k in m ==> m[k].amount == m'[k].amount && m[k].budgetItemId == m'[k].budgetItemId
    ensures SumOf(Filter(Rows(m, n), (o: BudgetObligation) => o.budgetItemId == itemId), (o: BudgetObligation) => o.amount)
         == SumOf(Filter(Rows(m', n), (o: BudgetObligation) => o.budgetItemId == itemId), (o: BudgetObligation) => o.amount)
  {
    if n > 0 {
      ObligatedRowsFrame(m, m', itemId, n - 1);
      var p := (o: BudgetObligation) => o.budgetItemId == itemId;
      var f := (o: BudgetObligation) => o.amount;
      var tail := if n - 1 in m then [m[n - 1]] else [];
      var tail' := if n - 1 in m' then [m'[n - 1]] else [];
      FilterAppend(Rows(m, n - 1), tail, p);
      FilterAppend(Rows(m', n - 1), tail', p);
      SumOfAppend(Filter(Rows(m, n - 1), p), Filter(tail, p), f);
      SumOfAppend(Filter(Rows(m', n - 1), p), Filter(tail', p), f);
      assert SumOf(Filter(tail, p), f) == SumOf(Filter(tail', p), f) by {
        if n - 1 in m {
          assert Filter(tail, p) == (if p(m[n - 1]) then [m[n - 1]] else []) + Filter([], p);
          assert Filter(tail', p) == (if p(m'[n - 1]) then [m'[n - 1]] else []) + Filter([], p);
        }
      }
    }
  }

  /** Stores whose obligation tables agree on amounts and budget items have the same obligation sums. */
  lemma ObligatedFrame(db: Db, db': Db)
    requires db'.currentId.budgetObligations == db.currentId.budgetObligations
    requires forall k :: k in db.budgetObligations <==> k in db'.budgetObligations
    requires forall k :: k in db.budgetObligations ==>
      && db.budgetObligations[k].amount == db'.budgetObligations[k].amount
      && db.budgetObligations[k].budgetItemId == db'.budgetObligations[k].budgetItemId
    ensures forall itemId :: Obligated(db', itemId) == Obligated(db, itemId)
  {
    forall itemId ensures Obligated(db', itemId) == Obligated(db, itemId) {
      ObligatedRowsFrame(db.budgetObligations, db'.budgetObligations, itemId, db.currentId.budgetObligations);
    }
  }

  /** A new obligation adds its amount to its own budget item's sum and nothing to the others. */
  lemma ObligatedAfterAppend(db: Db, db': Db, row: BudgetObligation, itemId: nat)
    requires Obligations(db') == Obligations(db) + [row]
    ensures Obligated(db', itemId) == Obligated(db, itemId) + (if row.budgetItemId == itemId then row.amount else 0)
  {
    var p := (o: BudgetObligation) => o.budgetItemId == itemId;
    var f := (o: BudgetObligation) => o.amount;
    FilterAppend(Obligations(db), [row], p);
    SumOfAppend(Filter(Obligations(db), p), Filter([row], p), f);
    assert Filter([row], p) == (if p(row) then [row] else []) + Filter([], p);
    if p(row) {
      assert SumOf([row], f) == SumOf([], f) + f(row) by {
        assert [row][..0] == [];
      }
    }
  }

  /** Under the invariant a budget item that does not exist has no obligations. */
  lemma NoObligationsOnMissingItem(db: Db, itemId: nat)
    requires Valid(db) && ReferencesIntact(db) && itemId !in db.budgetItems
    ensures ObligationsByBudgetItemId(db, itemId) == []
    ensures Obligated(db, itemId) == 0
  {
    var r := ObligationsByBudgetItemId(db, itemId);
    if r != [] {
      var o := r[0];
      assert o in r;
      RowsMembership(db.budgetObligations, db.currentId.budgetObligations, o);
      assert false;
    }
  }

  // ---------------------------------------------------------------- the invariant, route by route

  /** The store starts out conserved: no budget items, no obligations. */
  lemma InitialConserved()
    ensures Conserved(Initial())
  {
    InitialState();
    SeededFrame(SeedRoles, |SeedRoles|);
  }

  lemma PostBudgetItemConserves(db: Db, user: User, body: BudgetItem, now: Time)
    requires Conserved(db)
    ensures Conserved(PostBudgetItem(db, user, body, now).0)
  {
    var data := body.(createdBy := user.id, balance := body.amount);
    var (db', row) := CreateBudgetItem(db, data, now);
    CreateBudgetItemAppends(db, data, now);
    assert Obligations(db') == Obligations(db);
    NoObligationsOnMissingItem(db, row.id);
    forall k | k in db'.budgetItems
      ensures db'.budgetItems[k].balance == db'.budgetItems[k].amount - Obligated(db', k)
    {
      assert Obligated(db', k) == Obligated(db, k);
    }
  }

  /** An accepted obligation lowers its own item's balance by exactly the amount it adds to that item's sum. */
  lemma CreateObligationKeepsBalanced(db: Db, o: BudgetObligation, now: Time)
    requires Valid(db) && Balanced(db) && o.budgetItemId in db.budgetItems
    ensures Balanced(CreateBudgetObligation(db, o, now).0)
  {
    var (db', row) := CreateBudgetObligation(db, o, now);
    CreateBudgetObligationEffect(db, o, now);
    CreateBudgetObligationAppends(db, o, now);
    forall k | k in db'.budgetItems
      ensures db'.budgetItems[k].balance == db'.budgetItems[k].amount - Obligated(db', k)
    {
      ObligatedAfterAppend(db, db', row, k);
    }
  }

  lemma CreateObligationKeepsReferences(db: Db, o: BudgetObligation, now: Time)
    requires Valid(db) && ReferencesIntact(db) && o.budgetItemId in db.budgetItems
    ensures ReferencesIntact(CreateBudgetObligation(db, o, now).0)
  {
    CreateBudgetObligationEffect(db, o, now);
  }

  lemma PostObligationConserves(db: Db, user: User, body: BudgetObligation, now: Time)
    requires Conserved(db)
    ensures Conserved(PostObligation(db, user, body, now).0)
  {
    var o := body.(createdBy := user.id);
    if o.budgetItemId in db.budgetItems && db.budgetItems[o.budgetItemId].balance >= o.amount {
      CreateBudgetObligationAppends(db, o, now);
      CreateObligationKeepsBalanced(db, o, now);
      CreateObligationKeepsReferences(db, o, now);
    }
  }

  /**
   * Two stores that agree on the budget items and on each obligation's amount
   * and budget item: the ledger is the same in both.
   */
  ghost predicate SameLedger(db: Db, db': Db) {
    && db'.budgetItems == db.budgetItems
    && db'.currentId.budgetObligations == db.currentId.budgetObligations
    && (forall k :: k in db.budgetObligations <==> k in db'.budgetObligations)
    && forall k :: k in db.budgetObligations ==>
      && db.budgetObligations[k].amount == db'.budgetObligations[k].amount
      && db.budgetObligations[k].budgetItemId == db'.budgetObligations[k].budgetItemId
  }

  /** A change that leaves the ledger alone keeps the ledger identity. */
  lemma ConservedFrame(db: Db, db': Db)
    requires Conserved(db) && Valid(db') && SameLedger(db, db')
    ensures Conserved(db')
  {
    ObligatedFrame(db, db');
  }

  /** An obligation update that does not name an amount or a budget item leaves the ledger alone. */
  lemma UpdateObligationKeepsLedger(db: Db, id: nat, patch: ObligationPatch, now: Time)
    requires patch.amount.None? && patch.budgetItemId.None?
    ensures SameLedger(db, UpdateBudgetObligation(db, id, patch, now).0)
  {
    if id in db.budgetObligations {
      var o := db.budgetObligations[id];
      var row := ApplyObligationPatch(o, patch, now);
      assert row.amount == o.amount && row.budgetItemId == o.budgetItemId;
      var m' := db.budgetObligations[id := row];
      assert UpdateBudgetObligation(db, id, patch, now).0.budgetObligations == m';
      forall k | k in db.budgetObligations
        ensures db.budgetObligations[k].amount == m'[k].amount
        ensures db.budgetObligations[k].budgetItemId == m'[k].budgetItemId
      {
      }
    }
  }

  lemma UpdateJournalEntryKeepsLedger(db: Db, id: nat, patch: JournalEntryPatch, now: Time)
    ensures SameLedger(db, UpdateJournalEntry(db, id, patch, now).0)
  {
  }

  lemma UpdateVoucherKeepsLedger(db: Db, id: nat, patch: VoucherPatch, now: Time)
    ensures SameLedger(db, UpdateVoucher(db, id, patch, now).0)
  {
  }

  lemma CreateJournalEntryItemKeepsLedger(db: Db, row: JournalEntryItem, now: Time)
    ensures SameLedger(db, CreateJournalEntryItem(db, row, now).0)
  {
  }

  lemma CreateDisbursementKeepsLedger(db: Db, row: Disbursement, now: Time)
    ensures SameLedger(db, CreateDisbursement(db, row, now).0)
  {
  }

  /** Conserved as long as the body leaves the amount and the budget item alone (the pages send a status). */
  lemma PutObligationConserves(db: Db, user: User, id: nat, body: ObligationPatch, now: Time)
    requires Conserved(db)
    requires body.amount.None? && body.budgetItemId.None?
    ensures Conserved(PutObligation(db, user, id, body, now).0)
  {
    if id in db.budgetObligations {
      var patch := body.(processedBy := Some(Some(user.id)), processedAt := Some(Some(now)));
      UpdateBudgetObligationReplaces(db, id, patch, now);
      UpdateObligationKeepsLedger(db, id, patch, now);
      ConservedFrame(db, UpdateBudgetObligation(db, id, patch, now).0);
    }
  }

  /** Marking the linked obligation processed changes its status only. */
  lemma MarkProcessedConserves(db: Db, id: nat, now: Time)
    requires Conserved(db)
    ensures Conserved(UpdateBudgetObligation(db, id, ObligationStatusOnly(Processed), now).0)
  {
    UpdateBudgetObligationReplaces(db, id, ObligationStatusOnly(Processed), now);
    UpdateObligationKeepsLedger(db, id, ObligationStatusOnly(Processed), now);
    ConservedFrame(db, UpdateBudgetObligation(db, id, ObligationStatusOnly(Processed), now).0);
  }

  lemma UpdateJournalEntryConserves(db: Db, id: nat, patch: JournalEntryPatch, now: Time)
    requires Conserved(db)
    ensures Conserved(UpdateJournalEntry(db, id, patch, now).0)
  {
    UpdateJournalEntryReplaces(db, id, patch, now);
    UpdateJournalEntryKeepsLedger(db, id, patch, now);
    ConservedFrame(db, UpdateJournalEntry(db, id, patch, now).0);
  }

  lemma PutJournalEntryConserves(db: Db, user: User, id: nat, body: JournalEntryPatch, now: Time)
    requires Conserved(db)
    ensures Conserved(PutJournalEntry(db, user, id, body, now).0)
  {
    if id in db.journalEntries {
      var existing := db.journalEntries[id];
      if body.status == Some(Posted) && existing.status != Posted {
        var patch := body.(postedBy := Some(Some(user.id)), postedAt := Some(Some(now)));
        var db1 := UpdateJournalEntry(db, id, patch, now).0;
        UpdateJournalEntryConserves(db, id, patch, now);
        if LinksObligation(existing) {
          MarkProcessedConserves(db1, existing.obligationId.value, now);
        }
      } else {
        UpdateJournalEntryConserves(db, id, body, now);
      }
    }
  }

  lemma PutVoucherConserves(db: Db, user: User, id: nat, body: VoucherPatch, now: Time)
    requires Conserved(db)
    ensures Conserved(PutVoucher(db, user, id, body, now).0)
  {
    if id in db.vouchers {
      var existing := db.vouchers[id];
      var patch := if body.status == Some(Approved) && existing.status != Approved
        then body.(approvedBy := Some(Some(user.id)), approvedAt := Some(Some(now)))
        else body;
      UpdateVoucherReplaces(db, id, patch, now);
      UpdateVoucherKeepsLedger(db, id, patch, now);
      ConservedFrame(db, UpdateVoucher(db, id, patch, now).0);
    }
  }

  lemma PostDisbursementConserves(db: Db, user: User, body: Disbursement, now: Time)
    requires Conserved(db)
    ensures Conserved(PostDisbursement(db, user, body, now).0)
  {
    var d := body.(createdBy := user.id);
    if d.voucherId in db.vouchers && db.vouchers[d.voucherId].status == Approved {
      CreateDisbursementAppends(db, d, now);
      CreateDisbursementKeepsLedger(db, d, now);
      ConservedFrame(db, CreateDisbursement(db, d, now).0);
    }
  }

  lemma PostJournalEntryItemConserves(db: Db, body: JournalEntryItem, now: Time)
    requires Conserved(db)
    ensures Conserved(PostJournalEntryItem(db, body, now).0)
  {
    CreateJournalEntryItemAppends(db, body, now);
    CreateJournalEntryItemKeepsLedger(db, body, now);
    ConservedFrame(db, CreateJournalEntryItem(db, body, now).0);
  }

  /**
   * Every request keeps balance == amount − Σ obligations, provided an
   * obligation update does not rewrite the amount or the budget item.
   */
  lemma DispatchConserves(db: Db, session: Session, r: Request, now: Time)
    requires Conserved(db)
    requires r.ObligationPut? ==> r.obligationPatch.amount.None? && r.obligationPatch.budgetItemId.None?
    ensures Conserved(Dispatch(db, session, r, now).0)
  {
    if CheckModuleAccess(session, db.roles, ModuleOf(r)) == Next {
      var user := session.user.value;
      match r
      case BudgetItemPost(b) => PostBudgetItemConserves(db, user, b, now);
      case ObligationPost(o) => PostObligationConserves(db, user, o, now);
      case ObligationPut(id, p) => PutObligationConserves(db, user, id, p, now);
      case JournalEntryItemPost(i) => PostJournalEntryItemConserves(db, i, now);
      case JournalEntryPut(id, p) => PutJournalEntryConserves(db, user, id, p, now);
      case VoucherPut(id, p) => PutVoucherConserves(db, user, id, p, now);
      case DisbursementPost(d) => PostDisbursementConserves(db, user, d, now);
    }
  }

  /**
   * Balances never go negative: creation starts at a non-negative amount and
   * an obligation is accepted only when it fits in the balance.
   */
  lemma DispatchKeepsBalancesNonNegative(db: Db, session: Session, r: Request, now: Time)
    requires Valid(db) && BalancesNonNegative(db)
    requires r.BudgetItemPost? ==> r.item.amount >= 0
    ensures BalancesNonNegative(Dispatch(db, session, r, now).0)
  {
    BudgetItemsChangeOnlyThroughObligations(db, session, r, now);
    if CheckModuleAccess(session, db.roles, ModuleOf(r)) == Next && r.BudgetItemPost? {
      CreateBudgetItemAppends(db, r.item.(createdBy := session.user.value.id, balance := r.item.amount), now);
    }
  }

  /**
   * How the budget-item table may move from `db` to `db'` under request `r`:
   * existing items stay; a new item appears only on a budget-item POST; an
   * existing item changes only when an obligation that fits its balance is
   * recorded against it, which lowers the balance by the obligation's amount
   * and keeps every other field.
   */
  ghost predicate ItemsEvolve(db: Db, db': Db, r: Request, now: Time) {
    && (forall k :: k in db.budgetItems ==> k in db'.budgetItems)
    && (forall k :: k in db'.budgetItems && k !in db.budgetItems ==> r.BudgetItemPost?)
    && forall k :: k in db.budgetItems ==>
      || db'.budgetItems[k] == db.budgetItems[k]
      || (&& r.ObligationPost? && r.obligation.budgetItemId == k
          && r.obligation.amount <= db.budgetItems[k].balance
          && db'.budgetItems[k] == db.budgetItems[k].(balance := db.budgetItems[k].balance - r.obligation.amount,
                                                       updatedAt := now))
  }

  lemma PostBudgetItemEvolves(db: Db, user: User, b: BudgetItem, now: Time)
    requires Valid(db)
    ensures ItemsEvolve(db, PostBudgetItem(db, user, b, now).0, BudgetItemPost(b), now)
  {
    CreateBudgetItemAppends(db, b.(createdBy := user.id, balance := b.amount), now);
  }

  lemma PostObligationEvolves(db: Db, user: User, o: BudgetObligation, now: Time)
    requires Valid(db)
    ensures ItemsEvolve(db, PostObligation(db, user, o, now).0, ObligationPost(o), now)
  {
    CreateBudgetObligationEffect(db, o.(createdBy := user.id), now);
  }

  // The other handlers never write the budget-item table.

  lemma PutObligationKeepsItems(db: Db, user: User, id: nat, p: ObligationPatch, now: Time)
    ensures PutObligation(db, user, id, p, now).0.budgetItems == db.budgetItems
  {
  }

  lemma PostJournalEntryItemKeepsItems(db: Db, i: JournalEntryItem, now: Time)
    ensures PostJournalEntryItem(db, i, now).0.budgetItems == db.budgetItems
  {
  }

  lemma UpdateJournalEntryKeepsItems(db: Db, id: nat, p: JournalEntryPatch, now: Time)
    ensures UpdateJournalEntry(db, id, p, now).0.budgetItems == db.budgetItems
  {
  }

  lemma UpdateObligationKeepsItems(db: Db, id: nat, p: ObligationPatch, now: Time)
    ensures UpdateBudgetObligation(db, id, p, now).0.budgetItems == db.budgetItems
  {
  }

  lemma PutJournalEntryKeepsItems(db: Db, user: User, id: nat, p: JournalEntryPatch, now: Time)
    ensures PutJournalEntry(db, user, id, p, now).0.budgetItems == db.budgetItems
  {
    if id in db.journalEntries {
      var existing := db.journalEntries[id];
      if p.status == Some(Posted) && existing.status != Posted {
        var patch := p.(postedBy := Some(Some(user.id)), postedAt := Some(Some(now)));
        UpdateJournalEntryKeepsItems(db, id, patch, now);
        UpdateObligationKeepsItems(UpdateJournalEntry(db, id, patch, now).0, existing.obligationId.GetOr(0),
                                   ObligationStatusOnly(Processed), now);
      } else {
        UpdateJournalEntryKeepsItems(db, id, p, now);
      }
    }
  }

  lemma PutVoucherKeepsItems(db: Db, user: User, id: nat, p: VoucherPatch, now: Time)
    ensures PutVoucher(db, user, id, p, now).0.budgetItems == db.budgetItems
  {
  }

  lemma PostDisbursementKeepsItems(db: Db, user: User, d: Disbursement, now: Time)
    ensures PostDisbursement(db, user, d, now).0.budgetItems == db.budgetItems
  {
  }

  /**
   * No request rewrites an existing budget item except an accepted obligation,
   * which lowers that one item's balance by its amount and keeps every other
   * field; the only other change to the table is a newly created item.
   */
  lemma BudgetItemsChangeOnlyThroughObligations(db: Db, session: Session, r: Request, now: Time)
    requires Valid(db)
    ensures ItemsEvolve(db, Dispatch(db, session, r, now).0, r, now)
  {
    if CheckModuleAccess(session, db.roles, ModuleOf(r)) == Next {
      var user := session.user.value;
      if r.BudgetItemPost? {
        PostBudgetItemEvolves(db, user, r.item, now);
      } else if r.ObligationPost? {
        PostObligationEvolves(db, user, r.obligation, now);
      } else {
        match r
        case ObligationPut(id, p) => PutObligationKeepsItems(db, user, id, p, now);
        case JournalEntryItemPost(i) => PostJournalEntryItemKeepsItems(db, i, now);
        case JournalEntryPut(id, p) => PutJournalEntryKeepsItems(db, user, id, p, now);
        case VoucherPut(id, p) => PutVoucherKeepsItems(db, user, id, p, now);
        case DisbursementPost(d) => PostDisbursementKeepsItems(db, user, d, now);
      }
    }
  }

  /** With non-negative obligation amounts, the balance never exceeds the amount. */
  lemma BalanceAtMostAmount(db: Db, k: nat)
    requires Conserved(db) && k in db.budgetItems
    requires forall j :: j in db.budgetObligations ==> db.budgetObligations[j].amount >= 0
    ensures db.budgetItems[k].balance <= db.budgetItems[k].amount
  {
    var f := (o: BudgetObligation) => o.amount;
    forall o | o in ObligationsByBudgetItemId(db, k) ensures f(o) >= 0 {
      RowsMembership(db.budgetObligations, db.currentId.budgetObligations, o);
    }
    SumOfNonNegative(ObligationsByBudgetItemId(db, k), f);
  }
}
