/**
 * The rules of the voucher-management page
 * (client/src/pages/accounting/voucher-management.tsx): the status filter
 * followed by the text search, the draft-only Approve action and the body
 * it sends, and the status options.
 */
module VoucherManagementPage {
  import opened Wrappers
  import opened Seqs
  import opened Schema
  import Store
  import Routes
  import Workflow

  /** The status select: "all" or one status. */
  predicate StatusSelected(selected: string, v: Voucher) {
    selected == "all" || v.status == selected
  }

  /** The search: an empty query, or the number, payee or description contains it, ignoring case. */
  predicate VoucherMatches(query: string, v: Voucher) {
    query == "" || Mentions(v.voucherNumber, query) || Mentions(v.payee, query) || Mentions(v.description, query)
  }

  /** `filteredVouchers`: [] before the vouchers are fetched, then the status filter, then the search. */
  function FilterVouchers(vouchers: Option<seq<Voucher>>, selected: string, query: string): (r: seq<Voucher>)
    ensures forall v :: v in r <==> v in vouchers.GetOr([]) && StatusSelected(selected, v) && VoucherMatches(query, v)
    ensures IsSubseq(r, vouchers.GetOr([]))
  {
    var s := vouchers.GetOr([]);
    FilterTwiceIsSubseq(s, v => StatusSelected(selected, v), v => VoucherMatches(query, v));
    Filter(Filter(s, v => StatusSelected(selected, v)), v => VoucherMatches(query, v))
  }

  /** "All Statuses" and an empty search show every fetched voucher, in order. */
  lemma AllStatusesAndNoQueryKeepEverything(vouchers: Option<seq<Voucher>>)
    ensures FilterVouchers(vouchers, "all", "") == vouchers.GetOr([])
  {
    FilterTwiceAll(vouchers.GetOr([]), v => StatusSelected("all", v), v => VoucherMatches("", v));
  }

  /** A status with no voucher empties the list whatever the query. */
  lemma UnusedStatusShowsNothing(vouchers: Option<seq<Voucher>>, selected: string, query: string)
    requires selected != "all" && forall v :: v in vouchers.GetOr([]) ==> v.status != selected
    ensures FilterVouchers(vouchers, selected, query) == []
  {
    FilterNone(vouchers.GetOr([]), v => StatusSelected(selected, v));
  }

  /** The options of the status select. */
  const StatusOptions: seq<string> := ["all", Draft, Approved, Paid, Cancelled]

  /** Every option but "all" names a voucher status, and the options are distinct. */
  lemma StatusOptionsAreDistinct()
    ensures NoDuplicates(StatusOptions) && |StatusOptions| == 5 && StatusOptions[0] == "all"
  {
  }

  /** Approve appears in a voucher's menu while it is a draft. */
  predicate ApproveShown(v: Voucher) {
    v.status == Draft
  }

  /** The body Approve sends: `{ status: "approved" }`. */
  const ApproveBody := VoucherStatusOnly(Approved)

  /**
   * Approving a listed draft voucher answers 200 and stores it approved and
   * stamped with the caller and the time, every other field kept.
   */
  lemma ApproveStampsVoucher(db: Store.Db, user: User, v: Voucher, now: Time)
    requires Store.Valid(db) && v in Store.Vouchers(db) && ApproveShown(v)
    ensures var r := Routes.PutVoucher(db, user, v.id, ApproveBody, now);
      var stamped := v.(status := Approved, updatedAt := now, approvedBy := Some(user.id), approvedAt := Some(now));
      && r.1 == Routes.Reply(200, Some(stamped))
      && r.0 == db.(vouchers := db.vouchers[v.id := stamped])
  {
    Store.ListedRowIsStored(db.vouchers, db.currentId.vouchers, Store.VoucherId, v);
    assert Draft != Approved by { assert Draft[0] != Approved[0]; }
    Workflow.PutVoucherStampsApproval(db, user, v.id, ApproveBody, now);
  }
}
