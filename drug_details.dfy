/** The patient's drug details page
    (frontend/src/components/Patient/DrugDetails/DrugDetails.jsx): one
    search result shown with its pharmacy, a quantity counter, the price
    and delivery terms that follow from it, and the order routing. */
module DrugDetails {
  import opened Common

  /** The quantity counter. It starts at one; "−" never takes it below
      one and "+" adds one. */
  class QuantitySelector {
    var quantity: int

    predicate Valid()
      reads this
    {
      quantity >= 1
    }

    constructor ()
      ensures Valid() && quantity == 1
    {
      quantity := 1;
    }

    /** The "−" button is disabled at one or below. */
    predicate DecrementDisabled()
      reads this
    {
      quantity <= 1
    }

    /** `setQuantity(Math.max(1, quantity - 1))`. */
    method Decrement()
      requires Valid()
      modifies this
      ensures Valid()
      ensures quantity == Stepped(old(quantity), Less)
    {
      quantity := if quantity - 1 > 1 then quantity - 1 else 1;
    }

    /** `setQuantity(quantity + 1)`. */
    method Increment()
      requires Valid()
      modifies this
      ensures Valid()
      ensures quantity == Stepped(old(quantity), More)
    {
      quantity := quantity + 1;
    }
  }

  datatype Click = Less | More

  /** The counter after one click. */
  function Stepped(q: int, c: Click): (r: int)
    ensures c.More? ==> r == q + 1
    ensures c.Less? && q >= 2 ==> r == q - 1
    ensures c.Less? ==> r >= 1 && r <= if q > 1 then q else 1
  {
    match c
    case More => q + 1
    case Less => if q - 1 > 1 then q - 1 else 1
  }

  /** The counter after a sequence of clicks, starting from one. */
  function QuantityAfter(clicks: seq<Click>): int
    decreases |clicks|
  {
    if clicks == [] then 1 else Stepped(QuantityAfter(clicks[..|clicks| - 1]), clicks[|clicks| - 1])
  }

  function Increments(clicks: seq<Click>): nat
    decreases |clicks|
  {
    if clicks == [] then 0
    else Increments(clicks[..|clicks| - 1]) + (if clicks[|clicks| - 1].More? then 1 else 0)
  }

  /** Whatever the clicks, the quantity is at least one and at most one
      more than the number of "+" clicks. */
  lemma {:induction false} QuantityBounds(clicks: seq<Click>)
    ensures 1 <= QuantityAfter(clicks) <= 1 + Increments(clicks)
    decreases |clicks|
  {
    if clicks != [] {
      QuantityBounds(clicks[..|clicks| - 1]);
    }
  }

  /** The "−" button is disabled exactly when a click on it would change
      nothing. */
  lemma DecrementDisabledWhenUseless(q: int)
    requires q >= 1
    ensures q <= 1 <==> Stepped(q, Less) == q
  {
  }

  /** `price * quantity`. */
  function TotalPrice(price: real, quantity: int): (total: real)
    ensures quantity >= 1 && price >= 0.0 ==> total >= price
    ensures total == price * quantity as real
  {
    price * quantity as real
  }

  /** Each "+" adds one unit price to the total, and a "−" above one takes
      one off. */
  lemma TotalFollowsCounter(price: real, q: int)
    ensures TotalPrice(price, Stepped(q, More)) == TotalPrice(price, q) + price
    ensures q >= 2 ==> TotalPrice(price, Stepped(q, Less)) == TotalPrice(price, q) - price
  {
  }

  datatype Delivery = Delivery(sameDay: bool, fee: int)

  /** Within five kilometres: same-day delivery for 100; otherwise delivery
      within 24 hours for 200. */
  function DeliveryTerms(distance: real): (d: Delivery)
    ensures d.sameDay <==> distance < 5.0
    ensures d.fee == 100 <==> d.sameDay
    ensures d.fee == 100 || d.fee == 200
  {
    if distance < 5.0 then Delivery(true, 100) else Delivery(false, 200)
  }

  /** A nearer pharmacy never charges a higher fee and never delivers later. */
  lemma NearerIsNoWorse(near: real, far: real)
    requires near <= far
    ensures DeliveryTerms(near).fee <= DeliveryTerms(far).fee
    ensures DeliveryTerms(far).sameDay ==> DeliveryTerms(near).sameDay
  {
  }

  /** `pharmacy.address`: absent, a string, or an object with `address`
      and `city`. */
  datatype AddressValue = NoAddress | AddressText(text: string) | AddressObject(address: Option<string>, city: Option<string>)

  /** JavaScript truthiness of an optional string. */
  predicate Given(v: Option<string>) {
    v.Some? && v.value != ""
  }

  /** The part of the address both the page and the directions link use:
      a string as it is; an object with a non-empty `address` as that text
      followed by ", city" when the city is non-empty; nothing otherwise. */
  function AddressLine(a: AddressValue): (r: Option<string>)
    ensures a.AddressText? ==> r == Some(a.text)
    ensures a.AddressObject? && Given(a.address) && Given(a.city) ==>
              r == Some(a.address.value + ", " + a.city.value)
    ensures a.AddressObject? && Given(a.address) && !Given(a.city) ==> r == Some(a.address.value)
    ensures r.None? <==> a.NoAddress? || (a.AddressObject? && !Given(a.address))
  {
    match a
    case NoAddress => None
    case AddressText(text) => Some(text)
    case AddressObject(address, city) =>
      if !Given(address) then None
      else if Given(city) then Some(address.value + ", " + city.value)
      else Some(address.value)
  }

  /** The address shown on the page. */
  function AddressDisplay(a: AddressValue): (r: string)
    ensures AddressLine(a).Some? ==> r == AddressLine(a).value
    ensures AddressLine(a).None? ==> r == "Address not provided"
  {
    match AddressLine(a)
    case Some(line) => line
    case None => "Address not provided"
  }

  /** The destination of the directions link: the same text, or "". */
  function DirectionsDestination(a: AddressValue): (r: string)
    ensures AddressLine(a).Some? ==> r == AddressLine(a).value
    ensures AddressLine(a).None? ==> r == ""
  {
    match AddressLine(a)
    case Some(line) => line
    case None => ""
  }

  const MapsDirectionsPrefix := "https://www.google.com/maps/dir/?api=1&destination="

  /** The map link for a destination; `encode` stands for
      `encodeURIComponent`. */
  function MapsUrl(destination: string, encode: string -> string): (r: string)
    ensures |r| >= |MapsDirectionsPrefix| && r[..|MapsDirectionsPrefix|] == MapsDirectionsPrefix
    ensures r[|MapsDirectionsPrefix|..] == encode(destination)
  {
    MapsDirectionsPrefix + encode(destination)
  }

  /** Two links agree exactly when the encoded destinations do: the link
      carries the encoded destination and nothing else that varies. */
  lemma LinkDeterminesDestination(a: string, b: string, encode: string -> string)
    ensures MapsUrl(a, encode) == MapsUrl(b, encode) <==> encode(a) == encode(b)
  {
    if MapsUrl(a, encode) == MapsUrl(b, encode) {
      assert MapsUrl(a, encode)[|MapsDirectionsPrefix|..] == MapsUrl(b, encode)[|MapsDirectionsPrefix|..];
    }
  }

  /** The directions button is disabled when `pharmacy.address` is falsy. */
  predicate DirectionsDisabled(a: AddressValue) {
    a.NoAddress? || a == AddressText("")
  }

  /** The page and the directions link agree: the same text whenever there
      is one; otherwise the page shows a notice and the link gets "". An
      enabled directions button on a string address has a destination. */
  lemma AddressDisplaysAgree(a: AddressValue)
    ensures AddressLine(a).Some? ==> AddressDisplay(a) == DirectionsDestination(a)
    ensures AddressLine(a).None? ==> AddressDisplay(a) == "Address not provided" && DirectionsDestination(a) == ""
    ensures !DirectionsDisabled(a) && a.AddressText? ==> DirectionsDestination(a) != ""
  {
  }

  /** `pharmacy.operatingHours`: absent, a string, or an object with the
      keys `open` and `closing` that the page reads. */
  datatype HoursValue = NoHours | HoursText(text: string) | HoursObject(open: Option<string>, closing: Option<string>)

  function OrEmpty(v: Option<string>): (r: string)
    ensures Given(v) ==> r == v.value
    ensures !Given(v) ==> r == ""
  {
    if Given(v) then v.value else ""
  }

  /** The hours line: a string as it is; an object as `open - closing`,
      with the separator only when both are non-empty; otherwise a fixed
      notice. */
  function HoursDisplay(h: HoursValue): (r: string)
    ensures h.NoHours? ==> r == "Hours not available"
    ensures h.HoursText? ==> r == h.text
    ensures h.HoursObject? && Given(h.open) && Given(h.closing) ==> r == h.open.value + " - " + h.closing.value
    ensures h.HoursObject? && !(Given(h.open) && Given(h.closing)) ==> r == OrEmpty(h.open) + OrEmpty(h.closing)
  {
    match h
    case NoHours => "Hours not available"
    case HoursText(text) => text
    case HoursObject(open, closing) =>
      OrEmpty(open) + (if Given(open) && Given(closing) then " - " else "") + OrEmpty(closing)
  }

  /** The separator appears only between two non-empty parts: with one
      part missing, the line is the other part alone. */
  lemma SeparatorOnlyBetweenParts(open: Option<string>, closing: Option<string>)
    ensures Given(open) && Given(closing) ==>
              |HoursDisplay(HoursObject(open, closing))| == |open.value| + 3 + |closing.value|
    ensures !Given(open) ==> HoursDisplay(HoursObject(open, closing)) == OrEmpty(closing)
    ensures !Given(closing) ==> HoursDisplay(HoursObject(open, closing)) == OrEmpty(open)
  {
  }

  /** `a || b || fallback` over two optional strings, as the pharmacy's
      name, phone and e-mail are shown. */
  function FirstGiven(a: Option<string>, b: Option<string>, fallback: string): (r: string)
    ensures Given(a) ==> r == a.value
    ensures !Given(a) && Given(b) ==> r == b.value
    ensures !Given(a) && !Given(b) ==> r == fallback
  {
    if Given(a) then a.value else if Given(b) then b.value else fallback
  }

  /** The pharmacy as the page reads it. */
  datatype PharmacyView = PharmacyView(
    name: Option<string>, businessName: Option<string>,
    address: AddressValue,
    phone: Option<string>, contactPhone: Option<string>,
    email: Option<string>, contactEmail: Option<string>,
    operatingHours: HoursValue,
    rating: Option<real>)

  /** The drug as the page reads it. */
  datatype DrugView = DrugView(name: string, category: string, manufacturer: string, description: string, prescriptionRequired: bool)

  /** One search result handed to the page. */
  datatype SearchResult = SearchResult(drug: DrugView, pharmacy: PharmacyView, price: real, distance: real, inStock: bool)

  /** `{ ...result, quantity }`. */
  datatype OrderData = OrderData(result: SearchResult, quantity: int)

  /** Where "Order Now" goes, and with what navigation state. */
  datatype Navigation = Navigation(path: string, returnTo: Option<string>, orderData: OrderData)

  const CheckoutPath := "/patient/checkout"

  /** Logged out: the login page, told to return to checkout; logged in:
      checkout directly. Both carry the result and the quantity. */
  function OrderNow(loggedIn: bool, result: SearchResult, quantity: int): (n: Navigation)
    ensures n.orderData == OrderData(result, quantity)
    ensures !loggedIn ==> n.path == "/login" && n.returnTo == Some(CheckoutPath)
    ensures loggedIn ==> n.path == CheckoutPath && n.returnTo.None?
  {
    if !loggedIn then Navigation("/login", Some(CheckoutPath), OrderData(result, quantity))
    else Navigation(CheckoutPath, None, OrderData(result, quantity))
  }

  /** Logging in first leads to the same checkout, with the same order, as
      ordering while logged in. */
  lemma LoginLeadsToSameCheckout(result: SearchResult, quantity: int)
    ensures OrderNow(false, result, quantity).returnTo == Some(OrderNow(true, result, quantity).path)
    ensures OrderNow(false, result, quantity).orderData == OrderNow(true, result, quantity).orderData
  {
  }

  /** What the page shows. */
  datatype Page =
    | ErrorState(backTo: string)
    | Details(
        title: string,
        pharmacyName: string,
        address: string,
        phone: string,
        email: string,
        hours: string,
        prescriptionWarning: bool,
        total: real,
        delivery: Delivery,
        directionsEnabled: bool,
        orderEnabled: bool)

  /** The page for the navigation state's result (if any) and the current
      quantity. */
  function Render(result: Option<SearchResult>, quantity: int): (page: Page)
    ensures result.None? <==> page.ErrorState?
    ensures result.None? ==> page.backTo == "/patient/search"
    ensures result.Some? ==> page.orderEnabled == result.value.inStock
    ensures result.Some? ==> page.directionsEnabled == !DirectionsDisabled(result.value.pharmacy.address)
    ensures result.Some? ==> page.total == TotalPrice(result.value.price, quantity)
    ensures result.Some? ==> page.delivery == DeliveryTerms(result.value.distance)
    ensures result.Some? ==> page.address == AddressDisplay(result.value.pharmacy.address)
    ensures result.Some? ==> page.hours == HoursDisplay(result.value.pharmacy.operatingHours)
    ensures result.Some? ==> page.prescriptionWarning == result.value.drug.prescriptionRequired
    ensures result.Some? ==> page.title == result.value.drug.name
    ensures result.Some? ==> page.pharmacyName == FirstGiven(result.value.pharmacy.name, result.value.pharmacy.businessName, "Pharmacy")
    ensures result.Some? ==> page.phone == FirstGiven(result.value.pharmacy.phone, result.value.pharmacy.contactPhone, "N/A")
    ensures result.Some? ==> page.email == FirstGiven(result.value.pharmacy.email, result.value.pharmacy.contactEmail, "N/A")
  {
    match result
    case None => ErrorState("/patient/search")
    case Some(r) =>
      var p := r.pharmacy;
      Details(
        r.drug.name,
        FirstGiven(p.name, p.businessName, "Pharmacy"),
        AddressDisplay(p.address),
        FirstGiven(p.phone, p.contactPhone, "N/A"),
        FirstGiven(p.email, p.contactEmail, "N/A"),
        HoursDisplay(p.operatingHours),
        r.drug.prescriptionRequired,
        TotalPrice(r.price, quantity),
        DeliveryTerms(r.distance),
        !DirectionsDisabled(p.address),
        r.inStock)
  }

  /** An out-of-stock result can never be ordered, at any quantity. */
  lemma OutOfStockCannotBeOrdered(r: SearchResult, quantity: int)
    requires !r.inStock
    ensures Render(Some(r), quantity).Details? && !Render(Some(r), quantity).orderEnabled
  {
  }
}
