/**
 * The rules of the disbursements page
 * (client/src/pages/treasury/disbursements.tsx): the status filter followed
 * by the search, the voucher choice that prefills the amount, the read-only
 * amount, the vouchers offered, and the issued-only Mark as Cleared action.
 */
module DisbursementsPage {
  import opened Wrappers
  import opened Seqs
  import opened Schema
  import Store
  import Routes
  import Workflow

  predicate StatusSelected(selected: string, d: Disbursement) {
    selected == "all" || d.status == selected
  }

  /** The search: an empty query, or the check number or bank account contains it, ignoring case. */
  predicate DisbursementMatches(query: string, d: Disbursement) {
    query == "" || Mentions(d.checkNumber, query) || Mentions(d.bankAccount, query)
  }

  /** `filteredDisbursements`: [] before the fetch, then the status filter, then the search. */
  function FilterDisbursements(disbursements: Option<seq<Disbursement>>, selected: string, query: string)
    : (r: seq<Disbursement>)
    ensures forall d :: d in r <==>
      d in disbursements.GetOr([]) && StatusSelected(selected, d) && DisbursementMatches(query, d)
    ensures IsSubseq(r, disbursements.GetOr([]))
  {
    var s := disbursements.GetOr([]);
    FilterTwiceIsSubseq(s, d => StatusSelected(selected, d), d => DisbursementMatches(query, d));
    Filter(Filter(s, d => StatusSelected(selected, d)), d => DisbursementMatches(query, d))
  }

  /** "all" and an empty search show every fetched disbursement, in order. */
  lemma AllStatusesAndNoQueryKeepEverything(disbursements: Option<seq<Disbursement>>)
    ensures FilterDisbursements(disbursements, "all", "") == disbursements.GetOr([])
  {
    FilterTwiceAll(disbursements.GetOr([]), d => StatusSelected("all", d), d => DisbursementMatches("", d));
  }

  /** Mark as Cleared appears in a disbursement's menu while it is issued. */
  predicate ClearShown(d: Disbursement) {
    d.status == Issued
  }

  // ---------------------------------------------------------------- the form

  datatype DisbursementForm = DisbursementForm(
    voucherId: nat, checkNumber: string, bankAccount: string, amount: Money,
    disbursementDate: Time, status: string, createdBy: nat)

  /** The defaults: the selected voucher (or 0), amount 0, status issued, the caller (or 0) as creator. */
  function DefaultForm(selected: nat, user: Option<User>, now: Time): DisbursementForm {
    DisbursementForm(selected, "", "", 0, now, DisbursementDefaultStatus, if user.Some? then user.value.id else 0)
  }

  /**
   * Choosing option `value` in the voucher select (0 for "Select a voucher"):
   * the field takes the value, and for a non-zero value the amount takes the
   * amount of the first fetched approved voucher with that id, if any.
   */
  function OnVoucherChosen(f: DisbursementForm, value: nat, approved: Option<seq<Voucher>>): DisbursementForm {
    var f1 := f.(voucherId := value);
    if value == 0 then f1
    else
      match Find(approved.GetOr([]), (v: Voucher) => v.id == value)
      case None => f1
      case Some(v) => f1.(amount := v.amount)
  }

  /** The amount input is read-only while a voucher is selected. */
  predicate AmountReadOnly(selected: nat) {
    selected != 0
  }

  /** The POST body; the store assigns the id and the timestamps. */
  function Body(f: DisbursementForm): Disbursement {
    Disbursement(0, f.voucherId, f.checkNumber, f.bankAccount, f.amount, f.disbursementDate, f.status, f.createdBy, 0, 0)
  }

  /** The vouchers the select offers: the answer to `?status=approved`. */
  function OfferedVouchers(db: Store.Db): (r: seq<Voucher>)
    ensures forall v :: v in r <==> v in Store.Vouchers(db) && v.status == Approved
  {
    Store.VouchersByStatus(db, Approved)
  }

  // ---------------------------------------------------------------- what the rules mean

  /** A stored approved voucher is among the offered ones. */
  lemma StoredApprovedIsOffered(db: Store.Db, id: nat)
    requires Store.Valid(db) && id in db.vouchers && db.vouchers[id].status == Approved
    ensures db.vouchers[id] in OfferedVouchers(db)
  {
    Store.RowsMembership(db.vouchers, db.currentId.vouchers, db.vouchers[id]);
  }

  /** Choosing an offered voucher prefills its amount and id, and makes the amount read-only. */
  lemma ChoosingPrefillsVoucherAmount(db: Store.Db, f: DisbursementForm, id: nat)
    requires Store.Valid(db) && id in db.vouchers && db.vouchers[id].status == Approved
    ensures var g := OnVoucherChosen(f, id, Some(OfferedVouchers(db)));
      g.voucherId == id && g.amount == db.vouchers[id].amount && AmountReadOnly(g.voucherId)
  {
    var offered := OfferedVouchers(db);
    StoredApprovedIsOffered(db, id);
    var k :| 0 <= k < |offered| && offered[k] == db.vouchers[id];
    var found := Find(offered, (v: Voucher) => v.id == id);
    assert found.Some?;
    assert found.value in offered;
    Store.ListedRowIsStored(db.vouchers, db.currentId.vouchers, Store.VoucherId, found.value);
  }

  /**
   * The page and the server agree: submitting the form for an offered
   * voucher is accepted (201), disburses the voucher's full amount and marks
   * the voucher paid.
   */
  lemma OfferedVoucherIsPaidInFull(db: Store.Db, user: User, f: DisbursementForm, id: nat, now: Time)
    requires Store.Valid(db) && id in db.vouchers && db.vouchers[id].status == Approved
    ensures var g := OnVoucherChosen(f, id, Some(OfferedVouchers(db)));
      var r := Routes.PostDisbursement(db, user, Body(g), now);
      && r.1.Reply? && r.1.code == 201 && r.1.body.amount == db.vouchers[id].amount
      && id in r.0.vouchers && r.0.vouchers[id].status == Paid
  {
    ChoosingPrefillsVoucherAmount(db, f, id);
    var g := OnVoucherChosen(f, id, Some(OfferedVouchers(db)));
    Workflow.PostDisbursementAccepted(db, user, Body(g), now);
  }

  /** Without a chosen voucher the form names voucher 0, which the server answers with 404. */
  lemma UnchosenVoucherIsRefused(db: Store.Db, user: User, f: DisbursementForm, now: Time)
    requires Store.Valid(db)
    ensures var g := OnVoucherChosen(f, 0, Some(OfferedVouchers(db)));
      && g.voucherId == 0 && g.amount == f.amount && !AmountReadOnly(g.voucherId)
      && Routes.PostDisbursement(db, user, Body(g), now) == (db, Routes.Reject(404, "Voucher not found"))
  {
  }

  // ---------------------------------------------------------------- who can list the vouchers

  /** A signed-in user whose stored role has the given module. */
  predicate HasRoleModule(session: Routes.Session, roles: map<nat, Role>, moduleName: string) {
    && session.authenticated && session.user.Some? && session.user.value.roleId != 0
    && session.user.value.roleId in roles && roles[session.user.value.roleId].moduleName == moduleName
  }

  /**
   * The voucher list sits behind the accounting check, so the page's fetch
   * of approved vouchers is refused with 403 for a treasury user, who is
   * left with no voucher to choose.
   */
  lemma TreasuryUserCannotListVouchers(session: Routes.Session, roles: map<nat, Role>)
    requires HasRoleModule(session, roles, Treasury)
    ensures Routes.CheckModuleAccess(session, roles, Accounting) == Routes.Deny(403, "Access denied to this module")
    ensures Routes.CheckModuleAccess(session, roles, Treasury) == Routes.Next
  {
    assert Treasury != Accounting by { assert Treasury[0] != Accounting[0]; }
    assert Treasury != Admin by { assert Treasury[0] != Admin[0]; }
  }

  /** The voucher list opened to the two modules that use it: accounting and treasury. */
  function VoucherListAccess(session: Routes.Session, roles: map<nat, Role>): (a: Routes.Access)
    ensures a == Routes.Next <==>
      Routes.CheckModuleAccess(session, roles, Accounting) == Routes.Next
      || Routes.CheckModuleAccess(session, roles, Treasury) == Routes.Next
  {
    if Routes.CheckModuleAccess(session, roles, Accounting) == Routes.Next then Routes.Next
    else Routes.CheckModuleAccess(session, roles, Treasury)
  }

  /** With that access a treasury user does receive the approved vouchers the page offers. */
  lemma TreasuryUserListsVouchers(session: Routes.Session, roles: map<nat, Role>)
    requires HasRoleModule(session, roles, Treasury)
    ensures VoucherListAccess(session, roles) == Routes.Next
  {
    TreasuryUserCannotListVouchers(session, roles);
  }
}
