/**
 * GET /api/dashboard/stats: AIP progress, budget utilization and pending
 * vouchers for one fiscal year. The handler gathers the AIP items of the
 * year's AIPs in a loop and then reduces three lists; here the loop is a
 * method proved against `ItemsOfAips` and the reductions are `StatsOf`.
 */
module Dashboard {
  import opened Seqs
  import opened Schema
  import opened Store
  import Storage
  import Ledger

  datatype AipProgress = AipProgress(implemented: nat, total: nat, percentage: int)
  datatype BudgetUtilization = BudgetUtilization(allocatedAmount: Money, used: Money, percentage: int)
  datatype PendingVouchers = PendingVouchers(count: nat, highPriority: nat)
  datatype Stats = Stats(aipProgress: AipProgress, budgetUtilization: BudgetUtilization, pendingVouchers: PendingVouchers)

  /** `Number(v.amount) > 100000`: one hundred thousand pesos, in centavos. */
  const HighPriorityThreshold: Money := 10000000

  /** An AIP item counts as implemented once approved, in progress or completed. */
  predicate Implemented(i: AipItem) {
    i.status == Approved || i.status == InProgress || i.status == Completed
  }

  /**
   * `whole > 0 ? Math.round(part / whole * 100) : 0`, in exact arithmetic: the
   * integer nearest to 100·part/whole, a half rounded up.
   */
  function Percent(part: int, whole: int): (p: int)
    ensures whole <= 0 ==> p == 0
    ensures whole > 0 ==> -whole < 2 * whole * p - 200 * part <= whole
  {
    if whole > 0 then
      var p := (200 * part + whole) / (2 * whole);
      var r := (200 * part + whole) % (2 * whole);
      assert 200 * part + whole == 2 * whole * p + r;
      p
    else 0
  }

  /** A product of two non-negative factors is non-negative. */
  lemma ProductNonNegative(x: int, y: int)
    requires x >= 0 && y >= 0
    ensures x * y >= 0
  {
  }

  /** A share of a positive whole lies between 0 and 100 percent, and the ends are exact. */
  lemma PercentBounds(part: int, whole: int)
    requires 0 <= part <= whole
    ensures 0 <= Percent(part, whole) <= 100
    ensures part == 0 ==> Percent(part, whole) == 0
    ensures 0 < part == whole ==> Percent(part, whole) == 100
  {
    if whole > 0 {
      var p := Percent(part, whole);
      var e := 2 * whole * p - 200 * part;
      assert -whole < e <= whole;
      if p > 100 {
        assert 2 * whole * p == 2 * (whole * (p - 101)) + 202 * whole;
        ProductNonNegative(whole, p - 101);
      } else if part == 0 && p >= 1 {
        assert 2 * whole * p == 2 * (whole * (p - 1)) + 2 * whole;
        ProductNonNegative(whole, p - 1);
      } else if part == whole && p <= 99 {
        assert 2 * whole * p == 198 * whole - 2 * (whole * (99 - p));
        ProductNonNegative(whole, 99 - p);
      }
    }
  }

  /** The AIP items of each AIP in turn, concatenated. */
  function ItemsOfAips(db: Db, aips: seq<Aip>): seq<AipItem>
  {
    if aips == [] then [] else ItemsOfAips(db, aips[..|aips| - 1]) + AipItemsByAipId(db, aips[|aips| - 1].id)
  }

  /** The collected items are exactly the stored AIP items whose AIP is one of `aips`. */
  lemma {:induction false} ItemsOfAipsMembership(db: Db, aips: seq<Aip>, i: AipItem)
    ensures i in ItemsOfAips(db, aips) <==> i in AipItems(db) && exists a :: a in aips && a.id == i.aipId
  {
    if aips != [] {
      var init := aips[..|aips| - 1];
      var last := aips[|aips| - 1];
      ItemsOfAipsMembership(db, init, i);
      assert aips == init + [last];
      if i in AipItems(db) && (exists a :: a in aips && a.id == i.aipId) && !(exists a :: a in init && a.id == i.aipId) {
        var a :| a in aips && a.id == i.aipId;
        assert a == last;
      }
    }
  }

  /**
   * The loop `for (const aip of aips) allAIPItems = [...allAIPItems, ...items]`,
   * asking the store for each AIP's items.
   */
  method CollectAipItems(db: Db, aips: seq<Aip>) returns (all: seq<AipItem>)
    ensures all == ItemsOfAips(db, aips)
  {
    all := [];
    for k := 0 to |aips|
      invariant all == ItemsOfAips(db, aips[..k])
    {
      assert aips[..k + 1][..k] == aips[..k];
      all := all + AipItemsByAipId(db, aips[k].id);
    }
    assert aips[..|aips|] == aips;
  }

  function Allocated(items: seq<BudgetItem>): Money {
    SumOf(items, (b: BudgetItem) => b.amount)
  }

  function Used(items: seq<BudgetItem>): Money {
    SumOf(items, (b: BudgetItem) => b.amount - b.balance)
  }

  /** The three reductions over the fetched lists. */
  function StatsOf(aipItems: seq<AipItem>, budgetItems: seq<BudgetItem>, drafts: seq<Voucher>): Stats {
    var implemented := Count(aipItems, Implemented);
    var allotted := Allocated(budgetItems);
    var used := Used(budgetItems);
    Stats(
      AipProgress(implemented, |aipItems|, Percent(implemented, |aipItems|)),
      BudgetUtilization(allotted, used, Percent(used, allotted)),
      PendingVouchers(|drafts|, Count(drafts, (v: Voucher) => v.amount > HighPriorityThreshold)))
  }

  /** The statistics of one fiscal year, from the store. */
  function DashboardStats(db: Db, fiscalYear: int): Stats {
    StatsOf(ItemsOfAips(db, AipsByFiscalYear(db, fiscalYear)), BudgetItemsByFiscalYear(db, fiscalYear),
            VouchersByStatus(db, Draft))
  }

  /** The handler: the year's AIPs, their items by the loop, then the year's budget items and the draft vouchers. */
  method ComputeDashboardStats(store: Storage.MemStorage, fiscalYear: int) returns (s: Stats)
    ensures s == DashboardStats(store.Db(), fiscalYear)
  {
    var db := store.Db();
    var aips := AipsByFiscalYear(db, fiscalYear);
    var aipItems := CollectAipItems(db, aips);
    s := StatsOf(aipItems, BudgetItemsByFiscalYear(db, fiscalYear), VouchersByStatus(db, Draft));
  }

  // ---------------------------------------------------------------- what the numbers mean

  /** The AIP items counted are exactly the stored items of the year's AIPs. */
  lemma YearItems(db: Db, fiscalYear: int, i: AipItem)
    ensures i in ItemsOfAips(db, AipsByFiscalYear(db, fiscalYear))
      <==> i in AipItems(db) && exists a :: a in Aips(db) && a.fiscalYear == fiscalYear && a.id == i.aipId
  {
    ItemsOfAipsMembership(db, AipsByFiscalYear(db, fiscalYear), i);
  }

  /** implemented ≤ total; the percentage is within 0..100, 0 with no items and 100 when all are implemented. */
  lemma AipProgressBounds(aipItems: seq<AipItem>, budgetItems: seq<BudgetItem>, drafts: seq<Voucher>)
    ensures var p := StatsOf(aipItems, budgetItems, drafts).aipProgress;
      && p.implemented <= p.total == |aipItems|
      && 0 <= p.percentage <= 100
      && (p.total == 0 ==> p.percentage == 0)
      && (0 < p.implemented == p.total ==> p.percentage == 100)
  {
    var p := StatsOf(aipItems, budgetItems, drafts).aipProgress;
    PercentBounds(p.implemented, p.total);
  }

  /** The draft vouchers over the threshold are a part of the draft vouchers. */
  lemma HighPriorityAmongPending(db: Db, fiscalYear: int)
    ensures var v := DashboardStats(db, fiscalYear).pendingVouchers;
      v.highPriority <= v.count
      && (v.count == 0 <==> forall x :: x in Vouchers(db) ==> x.status != Draft)
  {
    var drafts := VouchersByStatus(db, Draft);
    if drafts != [] {
      assert drafts[0] in drafts;
    }
  }

  /** used = allocated − Σ balance. */
  lemma {:induction false} UsedIsAllocatedLessBalances(items: seq<BudgetItem>)
    ensures Used(items) == Allocated(items) - SumOf(items, (b: BudgetItem) => b.balance)
  {
    SumOfDifference(items, (b: BudgetItem) => b.amount, (b: BudgetItem) => b.balance,
                    (b: BudgetItem) => b.amount - b.balance);
  }

  /**
   * On a conserved store, the budget "used" is the total of the obligations
   * recorded against the year's budget items.
   */
  lemma UsedIsObligated(db: Db, fiscalYear: int)
    requires Ledger.Conserved(db)
    ensures DashboardStats(db, fiscalYear).budgetUtilization.used
         == SumOf(BudgetItemsByFiscalYear(db, fiscalYear), (b: BudgetItem) => Ledger.Obligated(db, b.id))
  {
    var items := BudgetItemsByFiscalYear(db, fiscalYear);
    forall b | b in items ensures b.amount - b.balance == Ledger.Obligated(db, b.id) {
      RowsMembership(db.budgetItems, db.currentId.budgetItems, b);
    }
    SumOfCongruent(items, (b: BudgetItem) => b.amount - b.balance, (b: BudgetItem) => Ledger.Obligated(db, b.id));
  }

  /**
   * With non-negative obligation amounts and balances, nothing is used beyond
   * what is allocated and the utilization percentage stays within 0..100.
   */
  lemma UtilizationBounds(db: Db, fiscalYear: int)
    requires Ledger.Conserved(db) && Ledger.BalancesNonNegative(db)
    requires forall j :: j in db.budgetObligations ==> db.budgetObligations[j].amount >= 0
    ensures var u := DashboardStats(db, fiscalYear).budgetUtilization;
      0 <= u.used <= u.allocatedAmount && 0 <= u.percentage <= 100
  {
    var items := BudgetItemsByFiscalYear(db, fiscalYear);
    forall b | b in items ensures 0 <= b.balance <= b.amount {
      RowsMembership(db.budgetItems, db.currentId.budgetItems, b);
      Ledger.BalanceAtMostAmount(db, b.id);
    }
    SumOfNonNegative(items, (b: BudgetItem) => b.amount - b.balance);
    SumOfNonNegative(items, (b: BudgetItem) => b.balance);
    UsedIsAllocatedLessBalances(items);
    PercentBounds(Used(items), Allocated(items));
  }
}
