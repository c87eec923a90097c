/**
 * The rules of the collections page
 * (client/src/pages/treasury/collections.tsx): the type filter followed by
 * the search, the form defaults, the type options and the recorded-only
 * Mark as Deposited action.
 */
module CollectionsPage {
  import opened Wrappers
  import opened Seqs
  import opened Schema
  import Store

  /** The type select: "all" or one collection type. */
  predicate TypeSelected(selected: string, c: Collection) {
    selected == "all" || c.collectionType == selected
  }

  /** The search: an empty query, or the receipt number, payor or description contains it, ignoring case. */
  predicate CollectionMatches(query: string, c: Collection) {
    query == "" || Mentions(c.receiptNumber, query) || Mentions(c.payor, query) || Mentions(c.description, query)
  }

  /** `filteredCollections`: [] before the fetch, then the type filter, then the search. */
  function FilterCollections(collections: Option<seq<Collection>>, selected: string, query: string)
    : (r: seq<Collection>)
    ensures forall c :: c in r <==> c in collections.GetOr([]) && TypeSelected(selected, c) && CollectionMatches(query, c)
    ensures IsSubseq(r, collections.GetOr([]))
  {
    var s := collections.GetOr([]);
    FilterTwiceIsSubseq(s, c => TypeSelected(selected, c), c => CollectionMatches(query, c));
    Filter(Filter(s, c => TypeSelected(selected, c)), c => CollectionMatches(query, c))
  }

  /** "All Types" and an empty search show every fetched collection, in order. */
  lemma AllTypesAndNoQueryKeepEverything(collections: Option<seq<Collection>>)
    ensures FilterCollections(collections, "all", "") == collections.GetOr([])
  {
    FilterTwiceAll(collections.GetOr([]), c => TypeSelected("all", c), c => CollectionMatches("", c));
  }

  /** The collection types of the type select, in its order. */
  const CollectionTypes: seq<string> := ["tax", "fee", "fine", "business_permit", "license", "other"]

  /** The options of the type select: "all", then each type. */
  const TypeOptions: seq<string> := ["all"] + CollectionTypes

  lemma TypeOptionsAreDistinct()
    ensures NoDuplicates(TypeOptions) && |TypeOptions| == 7 && TypeOptions[0] == "all"
    ensures forall t :: t in CollectionTypes ==> t in TypeOptions && t != "all"
  {
  }

  /** Mark as Deposited appears in a collection's menu while it is recorded. */
  predicate DepositShown(c: Collection) {
    c.status == Recorded
  }

  datatype CollectionForm = CollectionForm(
    receiptNumber: string, collectionDate: Time, payor: string, description: string, amount: Money,
    collectionType: string, accountCode: string, status: string, createdBy: nat)

  /** The defaults: amount 0, type "tax", status "recorded", the caller (or 0) as creator. */
  function DefaultForm(user: Option<User>, now: Time): CollectionForm {
    CollectionForm("", now, "", "", 0, CollectionTypes[0], "", Recorded, if user.Some? then user.value.id else 0)
  }

  /** The POST body; the store assigns the id and the timestamps. */
  function Body(f: CollectionForm): Collection {
    Collection(0, f.receiptNumber, f.collectionDate, f.payor, f.description, f.amount,
               f.collectionType, f.accountCode, f.status, f.createdBy, 0, 0)
  }

  /**
   * A collection created from the form with its default status is stored
   * as recorded, comes last in the list, shows under "All Types" and under
   * its own type, and offers Mark as Deposited.
   */
  lemma NewCollectionIsListedWithDeposit(db: Store.Db, f: CollectionForm, now: Time)
    requires Store.Valid(db) && f.status == DefaultForm(None, now).status
    ensures var (db', row) := Store.CreateCollection(db, Body(f), now);
      var listed := Store.Collections(db');
      && listed == Store.Collections(db) + [row]
      && row.status == CollectionDefaultStatus && DepositShown(row)
      && row in FilterCollections(Some(listed), "all", "")
      && row in FilterCollections(Some(listed), f.collectionType, "")
  {
    Store.CreateCollectionAppends(db, Body(f), now);
    var (db', row) := Store.CreateCollection(db, Body(f), now);
    assert row in Store.Collections(db');
  }
}
