/**
 * The rules of the budget-obligation page
 * (client/src/pages/budget/budget-obligation.tsx): the budget-item search,
 * which item is selected, when Create Obligation is clickable, the amount's
 * upper bound, the form defaults, and the pending-only actions.
 */
module BudgetObligationPage {
  import opened Wrappers
  import opened Seqs
  import opened Schema
  import opened Ui
  import Store
  import Routes
  import Workflow

  /** The search test: the account code or the description contains the query, ignoring case. */
  predicate ItemMatches(query: string, b: BudgetItem) {
    Mentions(b.accountCode, query) || Mentions(b.description, query)
  }

  /**
   * `filteredBudgetItems`: with a non-empty query and fetched items, the
   * matching items; otherwise the fetched items as they are (possibly not
   * yet fetched).
   */
  function FilterBudgetItems(items: Option<seq<BudgetItem>>, query: string): (r: Option<seq<BudgetItem>>)
    ensures r.None? <==> items.None?
    ensures r.Some? ==> forall b :: b in r.value <==> b in items.value && (query == "" || ItemMatches(query, b))
    ensures r.Some? ==> IsSubseq(r.value, items.value)
    ensures query == "" ==> r == items
  {
    if query != "" && items.Some? then
      FilterIsSubseq(items.value, b => ItemMatches(query, b));
      Some(Filter(items.value, b => ItemMatches(query, b)))
    else
      if items.Some? then SubseqReflexive(items.value); items
      else items
  }

  /** A selection is effective when it is a non-zero id (`selectedBudgetItem && ...`). */
  predicate Selected(selectedId: Option<nat>) {
    selectedId.Some? && selectedId.value != 0
  }

  /** `selectedItem`: the fetched item with the selected id, if there is a selection and the items are fetched. */
  function SelectedItem(selectedId: Option<nat>, items: Option<seq<BudgetItem>>): (r: Option<BudgetItem>)
    ensures r.Some? ==> Selected(selectedId) && items.Some? && r.value in items.value && r.value.id == selectedId.value
    ensures Selected(selectedId) && items.Some? && (exists b :: b in items.value && b.id == selectedId.value) ==> r.Some?
  {
    if Selected(selectedId) && items.Some? then Find(items.value, (b: BudgetItem) => b.id == selectedId.value) else None
  }

  /**
   * Create Obligation: disabled when the selected item's balance is at most
   * zero. Without a selected item the test reads `NaN <= 0`, which is false,
   * so the button is clickable.
   */
  function CreateObligationButton(selected: Option<BudgetItem>): Button {
    if selected.Some? && selected.value.balance <= 0 then Disabled else Enabled
  }

  /** The amount input's `max`: the selected item's balance, "0" without one. */
  function MaxAmount(selected: Option<BudgetItem>): Money {
    if selected.Some? then selected.value.balance else 0
  }

  /** Approve and Cancel appear in an obligation's menu while it is pending. */
  predicate ApproveCancelShown(o: BudgetObligation) {
    o.status == Pending
  }

  /** The obligation form. */
  datatype ObligationForm = ObligationForm(
    budgetItemId: nat, obligationNumber: string, payee: string, description: string,
    amount: Money, obligationDate: Time, status: string, createdBy: nat)

  /** The form's defaults, also the values it is reset to after a successful creation. */
  function DefaultForm(selectedId: Option<nat>, user: Option<User>, now: Time): ObligationForm {
    ObligationForm(if Selected(selectedId) then selectedId.value else 0, "", "", "", 0, now, Pending,
                   if user.Some? then user.value.id else 0)
  }

  /** The effect that copies a new selection into the form. */
  function OnSelect(f: ObligationForm, selectedId: Option<nat>): ObligationForm {
    if Selected(selectedId) then f.(budgetItemId := selectedId.value) else f
  }

  /** The POST body; the store assigns the id and the timestamps. */
  function Body(f: ObligationForm): BudgetObligation {
    BudgetObligation(0, f.budgetItemId, f.obligationNumber, f.payee, f.description, f.amount,
                     f.obligationDate, f.status, f.createdBy, 0, 0, None, None)
  }

  // ---------------------------------------------------------------- what the rules mean

  /** A new or reset form asks for a pending obligation of amount 0 against the selected item. */
  lemma DefaultFormIsPending(selectedId: Option<nat>, user: Option<User>, now: Time)
    ensures var f := DefaultForm(selectedId, user, now);
      && f.status == ObligationDefaultStatus && Body(f).status == Pending && f.amount == 0
      && (Selected(selectedId) ==> f.budgetItemId == selectedId.value)
      && OnSelect(f, selectedId) == f
  {
  }

  /** Create Obligation is clickable exactly when no item is selected or the selected one has a positive balance. */
  lemma CreateObligationGate(selected: Option<BudgetItem>)
    ensures CreateObligationButton(selected) == Enabled <==> selected.None? || selected.value.balance > 0
    ensures CreateObligationButton(selected) == Enabled && selected.Some? ==> MaxAmount(selected) > 0
  {
  }

  /**
   * The page and the server agree: an obligation for the selected item of a
   * fresh fetch, with an amount between 0 and the input's max, is accepted
   * (201) and leaves the item a balance of at least 0.
   */
  lemma AmountWithinMaxIsAccepted(db: Store.Db, user: User, fiscalYear: int, selectedId: Option<nat>,
                                  f: ObligationForm, now: Time)
    requires Store.Valid(db)
    requires SelectedItem(selectedId, Some(Store.BudgetItemsByFiscalYear(db, fiscalYear))).Some?
    requires f.budgetItemId == selectedId.value
    requires 0 <= f.amount <= MaxAmount(SelectedItem(selectedId, Some(Store.BudgetItemsByFiscalYear(db, fiscalYear))))
    ensures var r := Routes.PostObligation(db, user, Body(f), now);
      var item := SelectedItem(selectedId, Some(Store.BudgetItemsByFiscalYear(db, fiscalYear))).value;
      && r.1.Reply? && r.1.code == 201 && f.budgetItemId in r.0.budgetItems
      && r.0.budgetItems[f.budgetItemId].balance == item.balance - f.amount >= 0
  {
    var item := SelectedItem(selectedId, Some(Store.BudgetItemsByFiscalYear(db, fiscalYear))).value;
    Store.ListedRowIsStored(db.budgetItems, db.currentId.budgetItems, Store.BudgetItemId, item);
    Workflow.PostObligationAccepted(db, user, Body(f), now);
  }

  /** An amount above the input's max is refused by the server with 400, and nothing is stored. */
  lemma AmountAboveMaxIsRefused(db: Store.Db, user: User, fiscalYear: int, selectedId: Option<nat>,
                                f: ObligationForm, now: Time)
    requires Store.Valid(db)
    requires SelectedItem(selectedId, Some(Store.BudgetItemsByFiscalYear(db, fiscalYear))).Some?
    requires f.budgetItemId == selectedId.value
    requires f.amount > MaxAmount(SelectedItem(selectedId, Some(Store.BudgetItemsByFiscalYear(db, fiscalYear))))
    ensures Routes.PostObligation(db, user, Body(f), now) == (db, Routes.Reject(400, "Insufficient budget balance"))
  {
    var item := SelectedItem(selectedId, Some(Store.BudgetItemsByFiscalYear(db, fiscalYear))).value;
    Store.ListedRowIsStored(db.budgetItems, db.currentId.budgetItems, Store.BudgetItemId, item);
  }
}
