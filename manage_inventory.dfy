/** The inventory manager of
    frontend/src/components/Pharmacist/ManageInventory.jsx: the name
    search, the low-stock and discount markers, and the edit form of
    `EditInventoryModal` (its initial contents and its change handler). */
module ManageInventoryView {
  import opened Common
  import InventoryModel
  import opened InventoryDrugsView

  /** `filteredInventory`: the search term alone, with no category. */
  function FilteredInventory(inventory: seq<InventoryItem>, term: string): (r: seq<InventoryItem>)
    ensures IsSubsequence(r, inventory)
    ensures forall item :: item in r <==> item in inventory && MatchesSearch(item, term)
    ensures forall item :: item in r ==> multiset(r)[item] == multiset(inventory)[item]
  {
    Filter(inventory, item => MatchesSearch(item, term))
  }

  /** The manager keeps exactly what the grid keeps under the 'all'
      category. */
  lemma {:induction false} SameAsGridUnderAll(inventory: seq<InventoryItem>, term: string)
    ensures forall item :: item in FilteredInventory(inventory, term) <==>
                           item in InventoryDrugsView.FilteredInventory(inventory, term, "all")
  {
    forall item
      ensures item in FilteredInventory(inventory, term) <==>
              item in InventoryDrugsView.FilteredInventory(inventory, term, "all")
    {
      assert MatchesCategory(item, "all");
    }
  }

  /** The warning marker next to the quantity. */
  predicate ShowsLowStockMarker(item: InventoryItem) {
    item.quantity <= item.minStockLevel
  }

  /** The marker of a stored record is its low-stock check, and it is
      shown for every item the grid does not call in stock. */
  lemma {:induction false} MarkerIsLowStock(r: InventoryModel.InventoryRecord, d: Option<DrugInfo>, iso: string)
    requires InventoryModel.ValidRecord(r)
    ensures ShowsLowStockMarker(ItemOf(r, d, iso)) <==> InventoryModel.IsLowStock(r)
    ensures ShowsLowStockMarker(ItemOf(r, d, iso)) <==> GetStockStatus(ItemOf(r, d, iso)) != InStock
  {
    StatusAgreesWithLowStock(r, d, iso);
  }

  /** The discount row under the price. */
  predicate ShowsDiscountRow(item: InventoryItem) {
    item.discount > 0.0
  }

  /** For a stored record, the manager shows the discount row for the same
      items as the grid shows the original price, namely the discounted
      ones, whose edit form starts from that non-zero discount; for a
      record with a price, exactly those sold below it. */
  lemma {:induction false} DiscountRowIsReduction(r: InventoryModel.InventoryRecord, d: Option<DrugInfo>, iso: string)
    requires InventoryModel.ValidRecord(r)
    ensures ShowsDiscountRow(ItemOf(r, d, iso)) <==> ShowsOriginalPrice(ItemOf(r, d, iso))
    ensures ShowsDiscountRow(ItemOf(r, d, iso)) <==> InitialForm(ItemOf(r, d, iso))["discount"] != RealValue(0.0)
    ensures r.price > 0.0 ==> (ShowsDiscountRow(ItemOf(r, d, iso)) <==> InventoryModel.DiscountedPrice(r) < r.price)
  {
    InventoryModel.DiscountLowersPrice(r);
  }

  /** A value held by the edit form: numbers and flags copied from the item,
      or the raw text typed into an input. */
  datatype FormValue = IntValue(i: int) | RealValue(r: real) | Text(s: string) | Flag(b: bool)

  type Form = map<string, FormValue>

  /** `split('T')[0]`: the text before the first 'T', or all of it. */
  function BeforeFirstT(s: string): (r: string)
    ensures |r| <= |s| && r == s[..|r|]
    ensures 'T' !in r
    ensures |r| < |s| ==> s[|r|] == 'T'
  {
    if s == [] || s[0] == 'T' then []
    else
      var rest := BeforeFirstT(s[1..]);
      assert s[..|rest| + 1] == [s[0]] + rest;
      [s[0]] + rest
  }

  /** The form's initial contents. */
  function InitialForm(item: InventoryItem): (f: Form)
    ensures f.Keys == {"quantity", "price", "discount", "expiryDate", "isAvailable", "minStockLevel", "maxStockLevel"}
    ensures f["quantity"] == IntValue(item.quantity) && f["price"] == RealValue(item.price)
    ensures f["discount"] == RealValue(item.discount) && f["isAvailable"] == Flag(item.isAvailable)
    ensures f["minStockLevel"] == IntValue(item.minStockLevel) && f["maxStockLevel"] == IntValue(item.maxStockLevel)
    ensures f["expiryDate"] == Text(BeforeFirstT(item.expiryDate))
  {
    map[
      "quantity" := IntValue(item.quantity),
      "price" := RealValue(item.price),
      "discount" := RealValue(item.discount),
      "expiryDate" := Text(BeforeFirstT(item.expiryDate)),
      "isAvailable" := Flag(item.isAvailable),
      "minStockLevel" := IntValue(item.minStockLevel),
      "maxStockLevel" := IntValue(item.maxStockLevel)
    ]
  }

  /** The input event's target. */
  datatype InputTarget = InputTarget(name: string, value: string, inputType: string, checked: bool)

  /** `handleInputChange`: replaces the named field only; a checkbox stores
      its checked state, any other input its raw text. */
  function HandleInputChange(prev: Form, target: InputTarget): (next: Form)
    ensures next.Keys == prev.Keys + {target.name}
    ensures target.inputType == "checkbox" ==> next[target.name] == Flag(target.checked)
    ensures target.inputType != "checkbox" ==> next[target.name] == Text(target.value)
    ensures forall k :: k in prev && k != target.name ==> next[k] == prev[k]
  {
    prev[target.name := if target.inputType == "checkbox" then Flag(target.checked) else Text(target.value)]
  }
}
