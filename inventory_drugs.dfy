/** The pharmacist's inventory grid of
    frontend/src/components/Pharmacist/InventoryDrugs.jsx: the inventory
    items as the client receives them, the search-and-category filter,
    the three-way stock classification and the discount display rule. */
module InventoryDrugsView {
  import opened Common
  import InventoryModel

  /** The populated drug of an item; absent fields read as `undefined`. */
  datatype DrugInfo = DrugInfo(name: Option<string>, genericName: Option<string>, category: Option<string>)

  /** One inventory entry as the client receives it. */
  datatype InventoryItem = InventoryItem(
    drug: Option<DrugInfo>,
    quantity: int,
    price: real,
    discount: real,
    expiryDate: string,
    isAvailable: bool,
    minStockLevel: int,
    maxStockLevel: int)

  /** The client's view of a stored record, its drug populated and its
      expiry date serialised as `iso`. */
  function ItemOf(r: InventoryModel.InventoryRecord, d: Option<DrugInfo>, iso: string): InventoryItem {
    InventoryItem(d, r.quantity, r.price, r.discount, iso, r.isAvailable, r.minStockLevel, r.maxStockLevel)
  }

  datatype StockStatus = OutOfStock | LowStock | InStock

  /** `getStockStatus`: out of stock takes precedence over low stock. */
  function GetStockStatus(item: InventoryItem): (s: StockStatus)
    ensures s == OutOfStock <==> item.quantity == 0
    ensures s == LowStock <==> item.quantity != 0 && item.quantity <= item.minStockLevel
    ensures s == InStock <==> item.quantity != 0 && item.quantity > item.minStockLevel
  {
    if item.quantity == 0 then OutOfStock
    else if item.quantity <= item.minStockLevel then LowStock
    else InStock
  }

  /** The classification of a stored record agrees with the record's own
      low-stock check: in stock exactly when not low on stock. */
  lemma {:induction false} StatusAgreesWithLowStock(r: InventoryModel.InventoryRecord, d: Option<DrugInfo>, iso: string)
    requires InventoryModel.ValidRecord(r)
    ensures GetStockStatus(ItemOf(r, d, iso)) == InStock <==> !InventoryModel.IsLowStock(r)
    ensures GetStockStatus(ItemOf(r, d, iso)) == OutOfStock ==> InventoryModel.IsLowStock(r)
  {
    if r.quantity == 0 {
      InventoryModel.EmptyIsLowStock(r);
    }
  }

  /** `field?.toLowerCase().includes(term.toLowerCase())`: false when the
      field is absent. */
  predicate FieldMatches(field: Option<string>, term: string) {
    field.Some? && Contains(ToLower(field.value), ToLower(term))
  }

  /** The search half of the filter: the name or the generic name. */
  predicate MatchesSearch(item: InventoryItem, term: string) {
    item.drug.Some? && (FieldMatches(item.drug.value.name, term) || FieldMatches(item.drug.value.genericName, term))
  }

  /** The category half: 'all' or the drug's own category. */
  predicate MatchesCategory(item: InventoryItem, categoryFilter: string) {
    categoryFilter == "all" || (item.drug.Some? && item.drug.value.category == Some(categoryFilter))
  }

  predicate Keep(item: InventoryItem, term: string, categoryFilter: string) {
    MatchesSearch(item, term) && MatchesCategory(item, categoryFilter)
  }

  /** `filteredInventory`. */
  function FilteredInventory(inventory: seq<InventoryItem>, term: string, categoryFilter: string): (r: seq<InventoryItem>)
    ensures IsSubsequence(r, inventory)
    ensures forall item :: item in r <==> item in inventory && Keep(item, term, categoryFilter)
    ensures forall item :: item in r ==> multiset(r)[item] == multiset(inventory)[item]
  {
    Filter(inventory, item => Keep(item, term, categoryFilter))
  }

  /** With no search term and every category selected, each item whose drug
      has a name is listed. */
  lemma {:induction false} UnfilteredShowsNamedItems(inventory: seq<InventoryItem>, item: InventoryItem)
    requires item in inventory && item.drug.Some? && item.drug.value.name.Some?
    ensures item in FilteredInventory(inventory, "", "all")
  {
    assert ToLower("") == "";
    EmptyIsContained(ToLower(item.drug.value.name.value));
    assert Keep(item, "", "all");
  }

  /** The original-price row appears only for a discounted item. */
  predicate ShowsOriginalPrice(item: InventoryItem) {
    item.discount > 0.0
  }

  /** For a stored record with a non-zero price, the discount row appears
      exactly when the discounted price is below the listed one. */
  lemma {:induction false} OriginalPriceShownWhenReduced(r: InventoryModel.InventoryRecord, d: Option<DrugInfo>, iso: string)
    requires InventoryModel.ValidRecord(r) && r.price > 0.0
    ensures ShowsOriginalPrice(ItemOf(r, d, iso)) <==> InventoryModel.DiscountedPrice(r) < r.price
  {
    InventoryModel.DiscountLowersPrice(r);
  }
}
