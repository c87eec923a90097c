/**
 * The rules of the journal-entries page (client/src/pages/accounting/journal-entries.tsx):
 * the debit and credit totals of the selected entry, the balance test that
 * gates posting, which buttons each status offers, and the item form that
 * keeps an item on one side of the ledger.
 */
module JournalEntriesPage {
  import opened Wrappers
  import opened Seqs
  import opened Schema
  import Store
  import Routes
  import Workflow
  import opened Ui

  /** `Number(x)` of a nullable numeric column: null reads as 0. */
  function AmountOf(m: Option<Money>): Money {
    m.GetOr(0)
  }

  function DebitOf(i: JournalEntryItem): Money { AmountOf(i.debit) }
  function CreditOf(i: JournalEntryItem): Money { AmountOf(i.credit) }

  datatype Totals = Totals(debitTotal: Money, creditTotal: Money)

  /** The `reduce` of `calculateTotals`: one left fold accumulating both totals. */
  function Fold(items: seq<JournalEntryItem>): Totals {
    if items == [] then Totals(0, 0)
    else
      var t := Fold(items[..|items| - 1]);
      var last := items[|items| - 1];
      Totals(t.debitTotal + DebitOf(last), t.creditTotal + CreditOf(last))
  }

  /** The two-field fold computes the sum of the debits and the sum of the credits. */
  lemma {:induction false} FoldIsSums(items: seq<JournalEntryItem>)
    ensures Fold(items) == Totals(SumOf(items, DebitOf), SumOf(items, CreditOf))
  {
    if items != [] {
      FoldIsSums(items[..|items| - 1]);
    }
  }

  /**
   * `calculateTotals()`: (0, 0) when the selected entry has no items (or there
   * is none), otherwise Σ debit and Σ credit.
   */
  function CalculateTotals(items: Option<seq<JournalEntryItem>>): (t: Totals)
    ensures t == Totals(SumOf(items.GetOr([]), DebitOf), SumOf(items.GetOr([]), CreditOf))
  {
    if items.None? || items.value == [] then Totals(0, 0)
    else
      FoldIsSums(items.value);
      Fold(items.value)
  }

  /** `debitTotal === creditTotal`. */
  predicate IsBalanced(t: Totals) {
    t.debitTotal == t.creditTotal
  }

  /** The difference shown under an unbalanced entry: `Math.abs(debitTotal - creditTotal)`. */
  function Imbalance(t: Totals): (d: Money)
    ensures d >= 0
    ensures d == 0 <==> IsBalanced(t)
  {
    if t.debitTotal >= t.creditTotal then t.debitTotal - t.creditTotal else t.creditTotal - t.debitTotal
  }

  /** An entry with no items is balanced. */
  lemma EmptyEntryIsBalanced()
    ensures IsBalanced(CalculateTotals(None)) && IsBalanced(CalculateTotals(Some([])))
  {
  }

  /** Adding an item adds its debit to the debit total and its credit to the credit total. */
  lemma TotalsAfterItem(items: seq<JournalEntryItem>, i: JournalEntryItem)
    ensures var t := CalculateTotals(Some(items));
      CalculateTotals(Some(items + [i])) == Totals(t.debitTotal + DebitOf(i), t.creditTotal + CreditOf(i))
  {
    SumOfAppend(items, [i], DebitOf);
    SumOfAppend(items, [i], CreditOf);
    assert SumOf([i], DebitOf) == SumOf([], DebitOf) + DebitOf(i) by { assert [i][..0] == []; }
    assert SumOf([i], CreditOf) == SumOf([], CreditOf) + CreditOf(i) by { assert [i][..0] == []; }
  }

  /** A one-sided item (one positive side, the other zero) always unbalances a balanced entry. */
  lemma OneSidedItemUnbalances(items: seq<JournalEntryItem>, i: JournalEntryItem)
    requires IsBalanced(CalculateTotals(Some(items)))
    requires (DebitOf(i) > 0 && CreditOf(i) == 0) || (CreditOf(i) > 0 && DebitOf(i) == 0)
    ensures !IsBalanced(CalculateTotals(Some(items + [i])))
  {
    TotalsAfterItem(items, i);
  }

  // ---------------------------------------------------------------- buttons

  /** Post Journal Entry: drafts only, disabled while unbalanced or while a post is in flight. */
  function PostButton(status: string, t: Totals, posting: bool): Button {
    if status != Draft then Hidden
    else if !IsBalanced(t) || posting then Disabled
    else Enabled
  }

  /** Add Item as the page renders it: drafts only, and disabled while unbalanced. */
  function AddItemButtonAsWritten(status: string, t: Totals): Button {
    if status != Draft then Hidden
    else if !IsBalanced(t) then Disabled
    else Enabled
  }

  /** Add Item gated on the status alone, so that the balancing item can be entered. */
  function AddItemButton(status: string): Button {
    if status == Draft then Enabled else Hidden
  }

  /** Create Voucher is rendered for posted entries. */
  predicate CreateVoucherShown(status: string) {
    status == Posted
  }

  /** Posting is possible exactly for a balanced draft with no post in flight. */
  lemma PostGate(status: string, items: Option<seq<JournalEntryItem>>, posting: bool)
    ensures var t := CalculateTotals(items);
      && (PostButton(status, t, posting) == Enabled <==>
            status == Draft && !posting
            && SumOf(items.GetOr([]), DebitOf) == SumOf(items.GetOr([]), CreditOf))
      && (PostButton(status, t, posting) != Hidden <==> status == Draft)
  {
  }

  /** A posted entry offers neither posting nor new items, only a voucher. */
  lemma PostedEntryOffersOnlyVoucher(t: Totals, posting: bool)
    ensures PostButton(Posted, t, posting) == Hidden && AddItemButton(Posted) == Hidden
    ensures AddItemButtonAsWritten(Posted, t) == Hidden && CreateVoucherShown(Posted)
  {
  }

  /**
   * The Post button sends `{status: "posted"}` for a draft, which the server
   * handles as a posting: the stored entry becomes posted by the caller.
   */
  lemma PostButtonPostsEntry(db: Store.Db, user: User, id: nat, t: Totals, now: Time)
    requires Store.Valid(db) && id in db.journalEntries
    requires PostButton(db.journalEntries[id].status, t, false) == Enabled
    ensures var r := Routes.PutJournalEntry(db, user, id, JournalEntryStatusOnly(Posted), now);
      && r.1.Reply? && r.1.code == 200 && id in r.0.journalEntries
      && r.0.journalEntries[id].status == Posted
      && r.0.journalEntries[id].postedBy == Some(user.id)
      && r.0.journalEntries[id].postedAt == Some(now)
  {
    assert Draft != Posted by { assert Draft[0] != Posted[0]; }
    Workflow.PostingStampsEntry(db, user, id, JournalEntryStatusOnly(Posted), now);
  }

  /** The balance test lives on the page only: the server posts a draft whatever its items. */
  lemma ServerPostsUnbalancedEntries(db: Store.Db, user: User, id: nat, now: Time)
    requires Store.Valid(db) && id in db.journalEntries && db.journalEntries[id].status != Posted
    ensures Routes.PutJournalEntry(db, user, id, JournalEntryStatusOnly(Posted), now).1.code == 200
  {
    Workflow.PostingStampsEntry(db, user, id, JournalEntryStatusOnly(Posted), now);
  }

  // ---------------------------------------------------------------- the item form

  /** The item form's debit and credit inputs; `None` is an empty input. */
  datatype ItemForm = ItemForm(debit: Option<Money>, credit: Option<Money>)

  /** The form's default (and reset) values: "0" and "0". */
  const BlankItemForm := ItemForm(Some(0), Some(0))

  datatype AmountInput = DebitInput(value: Option<Money>) | CreditInput(value: Option<Money>)

  predicate Positive(v: Option<Money>) {
    v.Some? && v.value > 0
  }

  /** A change in one input; a positive amount clears the other side to "0". */
  function OnInput(f: ItemForm, e: AmountInput): ItemForm {
    match e
    case DebitInput(v) => if Positive(v) then ItemForm(v, Some(0)) else f.(debit := v)
    case CreditInput(v) => if Positive(v) then ItemForm(Some(0), v) else f.(credit := v)
  }

  /** The form after a sequence of inputs. */
  function Typed(f: ItemForm, inputs: seq<AmountInput>): ItemForm {
    if inputs == [] then f else OnInput(Typed(f, inputs[..|inputs| - 1]), inputs[|inputs| - 1])
  }

  /** At most one of debit and credit is positive. */
  predicate OneSided(f: ItemForm) {
    !(Positive(f.debit) && Positive(f.credit))
  }

  /** Whatever is typed, the form never holds both a positive debit and a positive credit. */
  lemma {:induction false} TypingKeepsOneSided(f: ItemForm, inputs: seq<AmountInput>)
    requires OneSided(f)
    ensures OneSided(Typed(f, inputs))
  {
    if inputs != [] {
      TypingKeepsOneSided(f, inputs[..|inputs| - 1]);
    }
  }

  /** The last positive amount typed wins, and the other side reads 0. */
  lemma LastPositiveInputWins(f: ItemForm, inputs: seq<AmountInput>, e: AmountInput)
    requires Positive(e.value)
    ensures var g := Typed(f, inputs + [e]);
      && (e.DebitInput? ==> g.debit == e.value && g.credit == Some(0))
      && (e.CreditInput? ==> g.credit == e.value && g.debit == Some(0))
  {
    assert (inputs + [e])[..|inputs|] == inputs;
  }

  // ---------------------------------------------------------------- the Add Item dialog

  /**
   * What the user does with the Add Item dialog: press its trigger, submit
   * the item form, or press Cancel. The dialog is uncontrolled: a successful
   * submit resets the form but leaves the dialog open, and Cancel is its only
   * close.
   */
  datatype DialogEvent = OpenDialog | SubmitItem(item: JournalEntryItem) | CloseDialog

  /** The entry's items as refetched after each add, and whether the dialog is open. */
  datatype ItemDialog = ItemDialog(items: seq<JournalEntryItem>, open: bool)

  /** The Add Item trigger for the entry as it stands: as rendered, or gated on the status alone. */
  function Trigger(status: string, asWritten: bool, items: seq<JournalEntryItem>): Button {
    if asWritten then AddItemButtonAsWritten(status, CalculateTotals(Some(items))) else AddItemButton(status)
  }

  /** One event: the trigger opens the dialog only when enabled; a submit adds the item only from the open dialog. */
  function Step(status: string, asWritten: bool, s: ItemDialog, e: DialogEvent): ItemDialog {
    match e
    case OpenDialog => if Trigger(status, asWritten, s.items) == Enabled then s.(open := true) else s
    case SubmitItem(i) => if s.open then s.(items := s.items + [i]) else s
    case CloseDialog => s.(open := false)
  }

  /** The dialog after a sequence of events. */
  function Run(status: string, asWritten: bool, s: ItemDialog, events: seq<DialogEvent>): ItemDialog
    decreases events
  {
    if events == [] then s else Run(status, asWritten, Step(status, asWritten, s, events[0]), events[1..])
  }

  /** Items are only ever added, at the end, one per submit. */
  lemma {:induction false} RunOnlyAppends(status: string, asWritten: bool, s: ItemDialog, events: seq<DialogEvent>)
    ensures |s.items| <= |Run(status, asWritten, s, events).items| <= |s.items| + |events|
    ensures Run(status, asWritten, s, events).items[..|s.items|] == s.items
    decreases events
  {
    if events != [] {
      var t := Step(status, asWritten, s, events[0]);
      RunOnlyAppends(status, asWritten, t, events[1..]);
      assert t.items[..|s.items|] == s.items;
    }
  }

  /** As rendered, once the dialog is closed on an unbalanced entry, nothing the user does changes it. */
  lemma {:induction false} AsWrittenClosedUnbalancedEntryIsStuck(status: string, s: ItemDialog, events: seq<DialogEvent>)
    requires !s.open && !IsBalanced(CalculateTotals(Some(s.items)))
    ensures Run(status, true, s, events) == s
    decreases events
  {
    if events != [] {
      assert Step(status, true, s, events[0]) == s;
      AsWrittenClosedUnbalancedEntryIsStuck(status, s, events[1..]);
    }
  }

  /**
   * A first one-sided item, entered and then cancelled out of, locks an empty
   * draft: the item is added, and whatever happens afterwards, Post stays
   * disabled.
   */
  lemma AsWrittenFirstItemLocksEntry(first: JournalEntryItem, events: seq<DialogEvent>)
    requires DebitOf(first) > 0 && CreditOf(first) == 0
    ensures Run(Draft, true, ItemDialog([], false), [OpenDialog, SubmitItem(first), CloseDialog]) == ItemDialog([first], false)
    ensures PostButton(Draft, CalculateTotals(Some(Run(Draft, true, ItemDialog([first], false), events).items)), false) == Disabled
  {
    var s0 := ItemDialog([], false);
    assert CalculateTotals(Some([])) == Totals(0, 0);
    var s1 := Step(Draft, true, s0, OpenDialog);
    assert s1 == ItemDialog([], true);
    var s2 := Step(Draft, true, s1, SubmitItem(first));
    assert s2 == ItemDialog([first], true) by { assert [] + [first] == [first]; }
    assert Run(Draft, true, s2, [CloseDialog]) == ItemDialog([first], false) by {
      assert [CloseDialog][1..] == [];
    }
    var e := [OpenDialog, SubmitItem(first), CloseDialog];
    assert Run(Draft, true, s0, e) == Run(Draft, true, s1, e[1..]);
    assert e[1..] == [SubmitItem(first), CloseDialog] && e[1..][1..] == [CloseDialog];
    OneSidedItemUnbalances([], first);
    AsWrittenClosedUnbalancedEntryIsStuck(Draft, ItemDialog([first], false), events);
  }

  /** The item that closes the gap: the missing amount on the short side, 0 on the other. */
  function BalancingItem(entryId: nat, t: Totals): (i: JournalEntryItem)
    ensures DebitOf(i) >= 0 && CreditOf(i) >= 0
    ensures OneSided(ItemForm(i.debit, i.credit))
    ensures DebitOf(i) - CreditOf(i) == t.creditTotal - t.debitTotal
  {
    var d := if t.creditTotal > t.debitTotal then t.creditTotal - t.debitTotal else 0;
    var c := if t.debitTotal > t.creditTotal then t.debitTotal - t.creditTotal else 0;
    JournalEntryItem(0, entryId, "", "", Some(d), Some(c), 0)
  }

  /**
   * As rendered, the entry can still be balanced while the dialog stays open:
   * the balancing item submitted before Cancel is added and Post is enabled.
   */
  lemma AsWrittenOpenDialogStillBalances(first: JournalEntryItem, entryId: nat)
    ensures var b := BalancingItem(entryId, CalculateTotals(Some([first])));
      var after := Run(Draft, true, ItemDialog([], false), [OpenDialog, SubmitItem(first), SubmitItem(b), CloseDialog]);
      after == ItemDialog([first, b], false) && PostButton(Draft, CalculateTotals(Some(after.items)), false) == Enabled
  {
    var b := BalancingItem(entryId, CalculateTotals(Some([first])));
    var s0 := ItemDialog([], false);
    assert CalculateTotals(Some([])) == Totals(0, 0);
    var s1 := Step(Draft, true, s0, OpenDialog);
    assert s1 == ItemDialog([], true);
    var s2 := Step(Draft, true, s1, SubmitItem(first));
    assert s2 == ItemDialog([first], true) by { assert [] + [first] == [first]; }
    var s3 := Step(Draft, true, s2, SubmitItem(b));
    assert s3 == ItemDialog([first, b], true) by { assert [first] + [b] == [first, b]; }
    assert Run(Draft, true, s3, [CloseDialog]) == ItemDialog([first, b], false) by {
      assert [CloseDialog][1..] == [];
    }
    var e := [OpenDialog, SubmitItem(first), SubmitItem(b), CloseDialog];
    assert Run(Draft, true, s0, e) == Run(Draft, true, s1, e[1..]);
    assert e[1..] == [SubmitItem(first), SubmitItem(b), CloseDialog];
    assert e[1..][1..] == [SubmitItem(b), CloseDialog];
    assert e[1..][1..][1..] == [CloseDialog];
    TotalsAfterItem([first], b);
  }

  /**
   * With Add Item gated on the status alone, from any state of a draft the
   * user can open the dialog, add the balancing item and close it, after
   * which the entry is balanced and Post is enabled.
   */
  lemma DraftCanAlwaysBeBalanced(s: ItemDialog, entryId: nat)
    ensures var b := BalancingItem(entryId, CalculateTotals(Some(s.items)));
      var after := Run(Draft, false, s, [OpenDialog, SubmitItem(b), CloseDialog]);
      after == ItemDialog(s.items + [b], false) && PostButton(Draft, CalculateTotals(Some(after.items)), false) == Enabled
  {
    var b := BalancingItem(entryId, CalculateTotals(Some(s.items)));
    var s1 := Step(Draft, false, s, OpenDialog);
    assert s1 == s.(open := true);
    var s2 := Step(Draft, false, s1, SubmitItem(b));
    assert s2 == ItemDialog(s.items + [b], true);
    assert Run(Draft, false, s2, [CloseDialog]) == ItemDialog(s.items + [b], false) by {
      assert [CloseDialog][1..] == [];
    }
    var e := [OpenDialog, SubmitItem(b), CloseDialog];
    assert Run(Draft, false, s, e) == Run(Draft, false, s1, e[1..]);
    assert e[1..] == [SubmitItem(b), CloseDialog] && e[1..][1..] == [CloseDialog];
    TotalsAfterItem(s.items, b);
    assert IsBalanced(CalculateTotals(Some(s.items + [b])));
  }
}
