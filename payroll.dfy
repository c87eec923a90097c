/**
 * The rules of the payroll page (client/src/pages/hris/payroll.tsx): the
 * net-pay formula of the item form, the total of the selected payroll,
 * when Finalize and Add Employee are offered, and the payroll search.
 */
module PayrollPage {
  import opened Wrappers
  import opened Seqs
  import opened Schema
  import opened Ui

  // ---------------------------------------------------------------- net pay

  /**
   * The add-employee form. An amount is `None` when its input is empty or
   * not a number, which `parseFloat(x) || 0` reads as 0. `overtime` is a
   * form field only: no column stores it, and validation drops it.
   */
  datatype ItemForm = ItemForm(
    payrollId: nat, employeeId: nat, basicPay: Option<Money>, overtime: Option<Money>,
    allowances: Option<Money>, deductions: Option<Money>, netPay: Option<Money>)

  /** The form's defaults: the selected payroll (or 0), employee 0 and every amount "0". */
  function BlankItemForm(selected: Option<nat>): ItemForm {
    ItemForm(selected.GetOr(0), 0, Some(0), Some(0), Some(0), Some(0), Some(0))
  }

  /** `parseFloat(x) || 0`. */
  function Parsed(v: Option<Money>): Money {
    v.GetOr(0)
  }

  /** basicPay + overtime + allowances − deductions, each unparseable field read as 0. */
  function NetPay(f: ItemForm): Money {
    Parsed(f.basicPay) + Parsed(f.overtime) + Parsed(f.allowances) - Parsed(f.deductions)
  }

  /** The form after `calculateNetPay`: the formula's value written back into the net-pay field. */
  function Recalculated(f: ItemForm): ItemForm {
    f.(netPay := Some(NetPay(f)))
  }

  /**
   * The form values after `zodResolver(insertPayrollItemSchema)`: the schema
   * is built from the payroll_items table, which has no overtime column, so
   * the parse drops the key and `parseFloat(data.overtime) || 0` reads 0.
   */
  function Validated(f: ItemForm): ItemForm {
    f.(overtime := None)
  }

  /** `onSubmitPayrollItem` as written: the net pay is computed from the validated values, without overtime. */
  function SubmittedAsWritten(f: ItemForm): ItemForm {
    Validated(f).(netPay := Some(NetPay(Validated(f))))
  }

  /** The evidently intended submit: the validated values with the net pay the form shows, overtime included. */
  function Submitted(f: ItemForm): ItemForm {
    Validated(f).(netPay := Some(NetPay(f)))
  }

  /**
   * As written, the net pay sent is basic pay + allowances − deductions, and
   * it differs from the value `calculateNetPay` shows exactly when the
   * overtime entered is not 0.
   */
  lemma SubmittedNetPayOmitsOvertime(f: ItemForm)
    ensures SubmittedAsWritten(f).netPay == Some(Parsed(f.basicPay) + Parsed(f.allowances) - Parsed(f.deductions))
    ensures SubmittedAsWritten(f).netPay != Recalculated(f).netPay <==> Parsed(f.overtime) != 0
    ensures SubmittedAsWritten(f).netPay == Submitted(f).netPay <==> Parsed(f.overtime) == 0
  {
  }

  /** A concrete case: basic pay 1000.00 and overtime 200.00 show 1200.00 but send 1000.00. */
  lemma AsWrittenSubmitDropsOvertime(f: ItemForm)
    requires f.basicPay == Some(100000) && f.overtime == Some(20000)
    requires f.allowances == Some(0) && f.deductions == Some(0)
    ensures Recalculated(f).netPay == Some(120000)
    ensures SubmittedAsWritten(f).netPay == Some(100000)
    ensures Submitted(f).netPay == Some(120000)
  {
  }

  /**
   * The corrected submit sends the value shown, whatever net pay was typed;
   * the overtime itself is still not stored.
   */
  lemma SubmitMatchesShown(f: ItemForm, typed: Option<Money>)
    ensures Submitted(f).netPay == Recalculated(f).netPay
    ensures Submitted(f.(netPay := typed)) == Submitted(f)
    ensures Submitted(f).overtime.None?
  {
  }

  /** The net pay the form holds does not enter the as-written computation: whatever was typed, the same item is sent. */
  lemma SubmitIgnoresTypedNetPay(f: ItemForm, typed: Option<Money>)
    ensures SubmittedAsWritten(f.(netPay := typed)) == SubmittedAsWritten(f)
    ensures SubmittedAsWritten(f).overtime.None?
  {
  }

  /** Recomputing is stable: pressing Calculate again leaves the form as it is, and does not change what either submit sends. */
  lemma RecalculatedIsStable(f: ItemForm)
    ensures Recalculated(Recalculated(f)) == Recalculated(f)
    ensures SubmittedAsWritten(Recalculated(f)) == SubmittedAsWritten(f)
    ensures Submitted(Recalculated(f)) == Submitted(f)
  {
  }

  /** The blank form is already consistent: its net pay "0" is the formula's value, and both submits send it unchanged. */
  lemma BlankFormIsConsistent(selected: Option<nat>)
    ensures NetPay(BlankItemForm(selected)) == 0
    ensures Recalculated(BlankItemForm(selected)) == BlankItemForm(selected)
    ensures SubmittedAsWritten(BlankItemForm(selected)).netPay == Some(0)
    ensures Submitted(BlankItemForm(selected)).netPay == Some(0)
  {
    var f := BlankItemForm(selected);
    assert Parsed(f.basicPay) == 0 && Parsed(f.allowances) == 0 && Parsed(f.deductions) == 0;
    assert NetPay(f) == 0;
    SubmittedNetPayOmitsOvertime(f);
  }

  /** Each pay component moves net pay by its own amount: up for pay, overtime and allowances, down for deductions. */
  lemma NetPayComponents(f: ItemForm, d: Money)
    ensures NetPay(f.(basicPay := Some(Parsed(f.basicPay) + d))) == NetPay(f) + d
    ensures NetPay(f.(overtime := Some(Parsed(f.overtime) + d))) == NetPay(f) + d
    ensures NetPay(f.(allowances := Some(Parsed(f.allowances) + d))) == NetPay(f) + d
    ensures NetPay(f.(deductions := Some(Parsed(f.deductions) + d))) == NetPay(f) - d
  {
  }

  /** An empty or unparseable field counts as 0. */
  lemma UnparsedCountsAsZero(f: ItemForm)
    ensures NetPay(f.(basicPay := None, overtime := None, allowances := None, deductions := None)) == 0
  {
  }

  // ---------------------------------------------------------------- total

  function NetPayOf(i: PayrollItem): Money { i.netPay }

  /** `items.reduce((total, item) => total + item.netPay, acc)`. */
  function Reduce(items: seq<PayrollItem>, acc: Money): Money {
    if items == [] then acc else Reduce(items[1..], acc + items[0].netPay)
  }

  /** The reduce from the first element computes the accumulator plus Σ netPay. */
  lemma {:induction false} ReduceIsSum(items: seq<PayrollItem>, acc: Money)
    ensures Reduce(items, acc) == acc + SumOf(items, NetPayOf)
  {
    if items != [] {
      ReduceIsSum(items[1..], acc + items[0].netPay);
      assert [items[0]] + items[1..] == items;
      SumOfAppend([items[0]], items[1..], NetPayOf);
      assert [items[0]][..0] == [];
    }
  }

  /** `calculateTotalPayroll()`: 0 without items, otherwise Σ netPay. */
  function TotalPayroll(items: Option<seq<PayrollItem>>): (t: Money)
    ensures t == SumOf(items.GetOr([]), NetPayOf)
  {
    if items.None? || items.value == [] then 0
    else
      ReduceIsSum(items.value, 0);
      Reduce(items.value, 0)
  }

  /** The total of two lists of items is the sum of their totals. */
  lemma TotalOfAppend(a: seq<PayrollItem>, b: seq<PayrollItem>)
    ensures TotalPayroll(Some(a + b)) == TotalPayroll(Some(a)) + TotalPayroll(Some(b))
  {
    SumOfAppend(a, b, NetPayOf);
  }

  /** Items with non-negative net pay give a non-negative total. */
  lemma TotalNonNegative(items: Option<seq<PayrollItem>>)
    requires forall i :: i in items.GetOr([]) ==> i.netPay >= 0
    ensures TotalPayroll(items) >= 0
  {
    SumOfNonNegative(items.GetOr([]), NetPayOf);
  }

  // ---------------------------------------------------------------- actions

  /** Finalize Payroll: rendered for a selected draft, disabled without items or while a request is in flight. */
  function FinalizeButton(selected: Option<Payroll>, items: Option<seq<PayrollItem>>, pending: bool): Button {
    if !(selected.Some? && selected.value.status == Draft) then Hidden
    else if items.None? || |items.value| == 0 || pending then Disabled
    else Enabled
  }

  /** Add Employee is rendered for a selected draft payroll. */
  predicate AddEmployeeShown(selected: Option<Payroll>) {
    selected.Some? && selected.value.status == Draft
  }

  /** The body Finalize sends: `{ status: "finalized" }` and nothing else. */
  const FinalizeBody := PayrollPatch(None, None, None, None, Some(Finalized), None, None, None)

  /**
   * Finalize is clickable exactly for a selected draft that has items and no
   * request in flight; it is rendered exactly when Add Employee is.
   */
  lemma FinalizeGate(selected: Option<Payroll>, items: Option<seq<PayrollItem>>, pending: bool)
    ensures FinalizeButton(selected, items, pending) == Enabled <==>
      selected.Some? && selected.value.status == Draft && |items.GetOr([])| > 0 && !pending
    ensures FinalizeButton(selected, items, pending) != Hidden <==> AddEmployeeShown(selected)
  {
  }

  // ---------------------------------------------------------------- search

  /** The evaluation of an expression that may throw. */
  datatype Evaluation<T> = Thrown | Value(value: T)

  /**
   * The search callback as the page writes it: an empty query keeps the
   * payroll, then the period is tried, and then `payroll.description` is
   * lowered, which throws because payroll rows have no description.
   */
  function MatchesAsWritten(p: Payroll, query: string): Evaluation<bool> {
    if query == "" then Value(true)
    else if Mentions(p.payrollPeriod, query) then Value(true)
    else Thrown
  }

  /** `payrolls.filter(...)` with the callback above: the first throw aborts the whole filter. */
  function FilterAsWritten(s: seq<Payroll>, query: string): Evaluation<seq<Payroll>> {
    if s == [] then Value([])
    else
      match MatchesAsWritten(s[0], query)
      case Thrown => Thrown
      case Value(keep) =>
        match FilterAsWritten(s[1..], query)
        case Thrown => Thrown
        case Value(rest) => Value((if keep then [s[0]] else []) + rest)
  }

  /** `filteredPayrolls` as written: [] before the payrolls are fetched. */
  function SearchPayrollsAsWritten(payrolls: Option<seq<Payroll>>, query: string): Evaluation<seq<Payroll>> {
    if payrolls.None? then Value([]) else FilterAsWritten(payrolls.value, query)
  }

  /** The intended test: an empty query, or the period contains the query case-insensitively. */
  predicate PeriodMatches(query: string, p: Payroll) {
    query == "" || Mentions(p.payrollPeriod, query)
  }

  /** The payroll search with the period as its only text field. */
  function SearchPayrolls(payrolls: Option<seq<Payroll>>, query: string): (r: seq<Payroll>)
    ensures forall p :: p in r <==> p in payrolls.GetOr([]) && PeriodMatches(query, p)
    ensures IsSubseq(r, payrolls.GetOr([]))
  {
    FilterIsSubseq(payrolls.GetOr([]), p => PeriodMatches(query, p));
    Filter(payrolls.GetOr([]), p => PeriodMatches(query, p))
  }

  /** The empty query keeps every fetched payroll. */
  lemma EmptyQueryKeepsAllPayrolls(payrolls: Option<seq<Payroll>>)
    ensures SearchPayrolls(payrolls, "") == payrolls.GetOr([])
  {
    FilterAll(payrolls.GetOr([]), p => PeriodMatches("", p));
  }

  /**
   * The filter as written throws exactly when the query is non-empty and
   * some period misses it; when it does not throw it keeps what the
   * intended search keeps.
   */
  lemma {:induction false} FilterAsWrittenThrows(s: seq<Payroll>, query: string)
    ensures FilterAsWritten(s, query).Thrown? <==> query != "" && exists p :: p in s && !Mentions(p.payrollPeriod, query)
    ensures FilterAsWritten(s, query).Value? ==> FilterAsWritten(s, query).value == Filter(s, p => PeriodMatches(query, p))
  {
    if s != [] {
      FilterAsWrittenThrows(s[1..], query);
      assert forall p :: p in s <==> p == s[0] || p in s[1..];
    }
  }

  /** The as-written search, when it returns, returns the intended result. */
  lemma SearchAsWrittenAgrees(payrolls: Option<seq<Payroll>>, query: string)
    ensures SearchPayrollsAsWritten(payrolls, query).Thrown? <==>
      query != "" && exists p :: p in payrolls.GetOr([]) && !Mentions(p.payrollPeriod, query)
    ensures SearchPayrollsAsWritten(payrolls, query).Value? ==>
      SearchPayrollsAsWritten(payrolls, query).value == SearchPayrolls(payrolls, query)
  {
    if payrolls.Some? {
      FilterAsWrittenThrows(payrolls.value, query);
    }
  }

  /** A concrete case: searching "june" over a May payroll throws instead of returning []. */
  lemma AsWrittenSearchThrows(p: Payroll)
    requires p.payrollPeriod == "May 2025"
    ensures SearchPayrollsAsWritten(Some([p]), "june").Thrown?
    ensures SearchPayrolls(Some([p]), "june") == []
  {
    var low := Lower(p.payrollPeriod);
    assert forall i | 0 <= i < |low| :: low[i] != 'j';
    assert Lower("june")[0] == 'j';
    assert !Mentions(p.payrollPeriod, "june");
    SearchAsWrittenAgrees(Some([p]), "june");
    assert p in [p];
  }
}
