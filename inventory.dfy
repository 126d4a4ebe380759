/** The inventory record of backend/models/Inventory.js: one record per
    (pharmacy, drug) pair holding stock, price, discount and stocking
    thresholds, the schema validators and defaults applied when a record is
    saved, the derived discounted price and the low-stock check, and the
    collection with its unique (pharmacy, drug) index. */
module InventoryModel {
  import opened Common

  type PharmacyId = nat
  type DrugId = nat
  /** Milliseconds since the epoch. */
  type Date = int

  /** The unique index of the collection. */
  datatype Key = Key(pharmacy: PharmacyId, drug: DrugId)

  datatype InventoryRecord = InventoryRecord(
    pharmacy: PharmacyId,
    drug: DrugId,
    quantity: int,
    price: real,
    discount: real,
    expiryDate: Date,
    batchNumber: Option<string>,
    supplier: Option<string>,
    isAvailable: bool,
    minStockLevel: int,
    maxStockLevel: int,
    lastRestocked: Option<Date>)

  /** The fields a caller supplies for a record; `None` is an omitted field. */
  datatype RecordInput = RecordInput(
    quantity: Option<int>,
    price: Option<real>,
    discount: Option<real>,
    expiryDate: Option<Date>,
    batchNumber: Option<string>,
    supplier: Option<string>,
    isAvailable: Option<bool>,
    minStockLevel: Option<int>,
    maxStockLevel: Option<int>,
    lastRestocked: Option<Date>)

  /** Why a save failed: the validation error lists every failing path. */
  datatype SaveError = Invalid(paths: set<string>) | DuplicateKey

  const DefaultQuantity := 0
  const DefaultDiscount := 0.0
  const DefaultMinStockLevel := 10
  const DefaultMaxStockLevel := 100

  /** The schema's field constraints on a stored record. */
  predicate ValidRecord(r: InventoryRecord) {
    && r.quantity >= 0
    && r.price >= 0.0
    && 0.0 <= r.discount <= 100.0
    && r.minStockLevel >= 0
    && r.maxStockLevel >= 0
  }

  /** The paths whose validator fails once defaults fill the omitted fields. */
  function Violations(input: RecordInput): set<string> {
    var q := input.quantity.GetOr(DefaultQuantity);
    var d := input.discount.GetOr(DefaultDiscount);
    var lo := input.minStockLevel.GetOr(DefaultMinStockLevel);
    var hi := input.maxStockLevel.GetOr(DefaultMaxStockLevel);
    (if q < 0 then {"quantity"} else {})
    + (if input.price.None? || input.price.value < 0.0 then {"price"} else {})
    + (if d < 0.0 || d > 100.0 then {"discount"} else {})
    + (if input.expiryDate.None? then {"expiryDate"} else {})
    + (if lo < 0 then {"minStockLevel"} else {})
    + (if hi < 0 then {"maxStockLevel"} else {})
  }

  /** A new document as saved: defaults for the omitted fields, then
      validation, which reports every failing path or yields the record. */
  function NewRecord(pharmacy: PharmacyId, drug: DrugId, input: RecordInput): (r: Result<InventoryRecord, SaveError>)
    ensures r.Ok? <==>
      && input.quantity.GetOr(0) >= 0
      && input.price.Some? && input.price.value >= 0.0
      && 0.0 <= input.discount.GetOr(0.0) <= 100.0
      && input.expiryDate.Some?
      && input.minStockLevel.GetOr(10) >= 0
      && input.maxStockLevel.GetOr(100) >= 0
    ensures r.Ok? ==> ValidRecord(r.value) && r.value.pharmacy == pharmacy && r.value.drug == drug
    ensures r.Ok? ==> r.value.price == input.price.value && r.value.expiryDate == input.expiryDate.value
    ensures r.Ok? && input.quantity.None? ==> r.value.quantity == 0
    ensures r.Ok? && input.discount.None? ==> r.value.discount == 0.0
    ensures r.Ok? && input.isAvailable.None? ==> r.value.isAvailable
    ensures r.Ok? && input.minStockLevel.None? ==> r.value.minStockLevel == 10
    ensures r.Ok? && input.maxStockLevel.None? ==> r.value.maxStockLevel == 100
    ensures r.Err? ==> r.error.Invalid? && r.error.paths != {}
    ensures r.Err? ==> ("price" in r.error.paths <==> input.price.None? || input.price.value < 0.0)
    ensures r.Err? ==> ("discount" in r.error.paths <==> !(0.0 <= input.discount.GetOr(0.0) <= 100.0))
  {
    var bad := Violations(input);
    if bad != {} then
      Err(Invalid(bad))
    else
      Ok(InventoryRecord(
        pharmacy, drug,
        input.quantity.GetOr(DefaultQuantity),
        input.price.value,
        input.discount.GetOr(DefaultDiscount),
        input.expiryDate.value,
        input.batchNumber,
        input.supplier,
        input.isAvailable.GetOr(true),
        input.minStockLevel.GetOr(DefaultMinStockLevel),
        input.maxStockLevel.GetOr(DefaultMaxStockLevel),
        input.lastRestocked))
  }

  /** The stored record seen as an input with every field given. */
  function AsInput(r: InventoryRecord): RecordInput {
    RecordInput(Some(r.quantity), Some(r.price), Some(r.discount), Some(r.expiryDate),
                r.batchNumber, r.supplier, Some(r.isAvailable),
                Some(r.minStockLevel), Some(r.maxStockLevel), r.lastRestocked)
  }

  /** A field update: every field the patch gives replaces the stored one. */
  function Patched(r: InventoryRecord, patch: RecordInput): RecordInput {
    RecordInput(
      if patch.quantity.Some? then patch.quantity else Some(r.quantity),
      if patch.price.Some? then patch.price else Some(r.price),
      if patch.discount.Some? then patch.discount else Some(r.discount),
      if patch.expiryDate.Some? then patch.expiryDate else Some(r.expiryDate),
      if patch.batchNumber.Some? then patch.batchNumber else r.batchNumber,
      if patch.supplier.Some? then patch.supplier else r.supplier,
      if patch.isAvailable.Some? then patch.isAvailable else Some(r.isAvailable),
      if patch.minStockLevel.Some? then patch.minStockLevel else Some(r.minStockLevel),
      if patch.maxStockLevel.Some? then patch.maxStockLevel else Some(r.maxStockLevel),
      if patch.lastRestocked.Some? then patch.lastRestocked else r.lastRestocked)
  }

  /** Saving a record unchanged reproduces it: defaults never override a
      stored value, and a valid record passes its own validators. */
  lemma {:induction false} ResaveIsIdentity(r: InventoryRecord)
    requires ValidRecord(r)
    ensures NewRecord(r.pharmacy, r.drug, AsInput(r)) == Ok(r)
  {
    assert Violations(AsInput(r)) == {};
  }

  /** The `discountedPrice` virtual. */
  function DiscountedPrice(r: InventoryRecord): (p: real)
    ensures ValidRecord(r) ==> 0.0 <= p <= r.price
    ensures r.discount == 0.0 ==> p == r.price
    ensures r.discount == 100.0 ==> p == 0.0
  {
    var p := r.price * (1.0 - r.discount / 100.0);
    if ValidRecord(r) then
      DiscountBounds(r.price, r.discount);
      p
    else
      p
  }

  lemma DiscountBounds(price: real, discount: real)
    requires price >= 0.0 && 0.0 <= discount <= 100.0
    ensures 0.0 <= price * (1.0 - discount / 100.0) <= price
  {
    var f := 1.0 - discount / 100.0;
    var g := discount / 100.0;
    assert 0.0 <= f <= 1.0 && 0.0 <= g <= 1.0;
    ProductNonNegative(price, f);
    ProductNonNegative(price, g);
    assert price * f == price - price * g;
  }

  lemma ProductNonNegative(a: real, b: real)
    requires a >= 0.0 && b >= 0.0
    ensures a * b >= 0.0
  {
  }

  /** A valid record is shown at a reduced price exactly when it is
      discounted and not free. */
  lemma {:induction false} DiscountLowersPrice(r: InventoryRecord)
    requires ValidRecord(r)
    ensures DiscountedPrice(r) < r.price <==> r.discount > 0.0 && r.price > 0.0
  {
    var off := r.price * (r.discount / 100.0);
    assert DiscountedPrice(r) == r.price - off;
    if r.discount > 0.0 && r.price > 0.0 {
      assert r.discount / 100.0 > 0.0;
      assert off > 0.0;
    }
  }

  /** The `isLowStock` method. */
  predicate IsLowStock(r: InventoryRecord) {
    r.quantity <= r.minStockLevel
  }

  /** An empty shelf is always low on stock, since thresholds are never
      negative. */
  lemma {:induction false} EmptyIsLowStock(r: InventoryRecord)
    requires ValidRecord(r) && r.quantity == 0
    ensures IsLowStock(r)
  {
  }

  /** The inventory collection under its unique (pharmacy, drug) index. */
  class InventoryCollection {
    var records: map<Key, InventoryRecord>

    ghost predicate Valid()
      reads this
    {
      forall k :: k in records ==>
        ValidRecord(records[k]) && records[k].pharmacy == k.pharmacy && records[k].drug == k.drug
    }

    constructor ()
      ensures Valid() && records == map[]
    {
      records := map[];
    }

    /** Reads the record of a pair, if there is one. */
    method Find(pharmacy: PharmacyId, drug: DrugId) returns (r: Option<InventoryRecord>)
      requires Valid()
      ensures r.Some? <==> Key(pharmacy, drug) in records
      ensures r.Some? ==> r.value == records[Key(pharmacy, drug)] && ValidRecord(r.value)
    {
      var k := Key(pharmacy, drug);
      if k in records {
        r := Some(records[k]);
      } else {
        r := None;
      }
    }

    /** Saves a new record: validation first, then the unique index, which
        refuses a second record for the same pair and leaves the
        collection as it was. */
    method Insert(pharmacy: PharmacyId, drug: DrugId, input: RecordInput) returns (res: Result<InventoryRecord, SaveError>)
      requires Valid()
      modifies this
      ensures Valid()
      ensures var made := NewRecord(pharmacy, drug, input);
        if made.Err? then res == made && records == old(records)
        else if Key(pharmacy, drug) in old(records) then res == Err(DuplicateKey) && records == old(records)
        else res == made && records == old(records)[Key(pharmacy, drug) := made.value]
    {
      var made := NewRecord(pharmacy, drug, input);
      var k := Key(pharmacy, drug);
      if made.Err? {
        res := made;
      } else if k in records {
        res := Err(DuplicateKey);
      } else {
        records := records[k := made.value];
        res := made;
      }
    }

    /** Replaces the given fields of an existing record and saves it,
        validating the whole result; a failed validation or an unknown
        pair changes nothing. */
    method Update(pharmacy: PharmacyId, drug: DrugId, patch: RecordInput) returns (res: Option<Result<InventoryRecord, SaveError>>)
      requires Valid()
      modifies this
      ensures Valid()
      ensures Key(pharmacy, drug) !in old(records) ==> res.None? && records == old(records)
      ensures Key(pharmacy, drug) in old(records) ==>
        var made := NewRecord(pharmacy, drug, Patched(old(records)[Key(pharmacy, drug)], patch));
        res == Some(made) &&
        records == if made.Ok? then old(records)[Key(pharmacy, drug) := made.value] else old(records)
    {
      var k := Key(pharmacy, drug);
      if k !in records {
        res := None;
        return;
      }
      var made := NewRecord(pharmacy, drug, Patched(records[k], patch));
      if made.Ok? {
        records := records[k := made.value];
      }
      res := Some(made);
    }
  }

  /** Inserting leaves at most one record per pair and never loses one. */
  lemma {:induction false} InsertKeepsUniqueRecords(before: map<Key, InventoryRecord>, k: Key, made: InventoryRecord)
    requires k !in before
    ensures |before[k := made]| == |before| + 1
    ensures forall j :: j in before ==> j in before[k := made] && before[k := made][j] == before[j]
  {
    assert before[k := made].Keys == before.Keys + {k};
  }
}
