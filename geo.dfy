/** Where the patient's map places a pharmacy
    (frontend/src/utils/geo.js): three possible sources of a latitude and a
    longitude tried in a fixed order, a both-zero pair counting as unset. */
module Geo {
  import opened Common
  import PharmacyModel
  import PharmacyLocation

  /** A JavaScript value as the lookup sees it: `null` or `undefined`
      (what `??` skips), a number, or anything else. */
  datatype Val = Missing | Num(n: real) | NonNumber

  /** `a ?? b`. */
  function Coalesce(a: Val, b: Val): (r: Val)
    ensures a.Missing? ==> r == b
    ensures !a.Missing? ==> r == a
  {
    if a.Missing? then b else a
  }

  /** The value stored under a `coordinates` key: absent, a non-object
      value, an array, or an object with the four names the lookup tries. */
  datatype Coordinates =
    | Absent
    | NotObject
    | ArrayOf(items: seq<Val>)
    | Fields(lat: Val, lng: Val, latitude: Val, longitude: Val)

  /** `location` and `address` are absent or objects holding `coordinates`. */
  datatype Holder = NoHolder | HolderOf(coordinates: Coordinates)

  /** The parts of a pharmacy object the lookup reads. */
  datatype PharmacyShape = PharmacyShape(
    location: Holder,
    address: Holder,
    latitude: Val, lat: Val,
    longitude: Val, lng: Val)

  datatype Point = Point(lat: real, lng: real)

  /** `arr[i]`: `undefined` past the end. */
  function At(items: seq<Val>, i: nat): (v: Val)
    ensures i >= |items| ==> v.Missing?
    ensures i < |items| ==> v == items[i]
  {
    if i < |items| then items[i] else Missing
  }

  /** The test every source applies: two numbers, not both zero. */
  function Usable(lat: Val, lng: Val): (r: Option<Point>)
    ensures r.Some? <==> lat.Num? && lng.Num? && !(lat.n == 0.0 && lng.n == 0.0)
    ensures r.Some? ==> r.value == Point(lat.n, lng.n)
  {
    if lat.Num? && lng.Num? && !(lat.n == 0.0 && lng.n == 0.0) then Some(Point(lat.n, lng.n))
    else None
  }

  /** The GeoJSON source: an array read as `[lng, lat]`. */
  function FromLocation(location: Holder): (r: Option<Point>)
    ensures r.Some? ==> location.HolderOf? && location.coordinates.ArrayOf?
    ensures location.HolderOf? && location.coordinates.ArrayOf? ==>
              r == Usable(At(location.coordinates.items, 1), At(location.coordinates.items, 0))
  {
    if location.HolderOf? && location.coordinates.ArrayOf? then
      var items := location.coordinates.items;
      Usable(At(items, 1), At(items, 0))
    else None
  }

  /** The latitude an address `coordinates` value offers:
      `lat ?? latitude ?? (array ? [1] : undefined)`. */
  function AddressLat(c: Coordinates): Val {
    match c
    case Fields(lat, _, latitude, _) => Coalesce(lat, latitude)
    case ArrayOf(items) => At(items, 1)
    case _ => Missing
  }

  /** The longitude: `lng ?? longitude ?? (array ? [0] : undefined)`. */
  function AddressLng(c: Coordinates): Val {
    match c
    case Fields(_, lng, _, longitude) => Coalesce(lng, longitude)
    case ArrayOf(items) => At(items, 0)
    case _ => Missing
  }

  /** The address source: an object or an array under `address.coordinates`. */
  function FromAddress(address: Holder): (r: Option<Point>)
    ensures r.Some? ==> address.HolderOf? && (address.coordinates.Fields? || address.coordinates.ArrayOf?)
    ensures address.HolderOf? ==> r == Usable(AddressLat(address.coordinates), AddressLng(address.coordinates))
  {
    if address.HolderOf? && (address.coordinates.Fields? || address.coordinates.ArrayOf?) then
      Usable(AddressLat(address.coordinates), AddressLng(address.coordinates))
    else None
  }

  /** The flat fields: `latitude ?? lat` and `longitude ?? lng`. */
  function FromFlat(p: PharmacyShape): (r: Option<Point>)
    ensures r == Usable(Coalesce(p.latitude, p.lat), Coalesce(p.longitude, p.lng))
  {
    Usable(Coalesce(p.latitude, p.lat), Coalesce(p.longitude, p.lng))
  }

  /** `getLatLngFromPharmacy`: the first source that yields a usable pair. */
  function GetLatLngFromPharmacy(pharmacy: Option<PharmacyShape>): (r: Option<Point>)
    ensures pharmacy.None? ==> r.None?
    ensures r.Some? ==> !(r.value.lat == 0.0 && r.value.lng == 0.0)
  {
    if pharmacy.None? then None
    else
      var p := pharmacy.value;
      var fromLocation := FromLocation(p.location);
      if fromLocation.Some? then fromLocation
      else
        var fromAddress := FromAddress(p.address);
        if fromAddress.Some? then fromAddress
        else FromFlat(p)
  }

  /** `hasValidCoordinates`. */
  predicate HasValidCoordinates(pharmacy: Option<PharmacyShape>) {
    GetLatLngFromPharmacy(pharmacy).Some?
  }

  /** The result is a pair some source offers, with two numbers, and the
      sources are tried in order: GeoJSON first, the address second, the
      flat fields last. */
  lemma SourcesInOrder(p: PharmacyShape)
    ensures FromLocation(p.location).Some? ==>
              GetLatLngFromPharmacy(Some(p)) == FromLocation(p.location)
    ensures FromLocation(p.location).None? && FromAddress(p.address).Some? ==>
              GetLatLngFromPharmacy(Some(p)) == FromAddress(p.address)
    ensures FromLocation(p.location).None? && FromAddress(p.address).None? ==>
              GetLatLngFromPharmacy(Some(p)) == FromFlat(p)
    ensures GetLatLngFromPharmacy(Some(p)).None? <==>
              FromLocation(p.location).None? && FromAddress(p.address).None? && FromFlat(p).None?
  {
  }

  /** A GeoJSON array `[lng, lat]` of two numbers, not both zero, decides
      the answer whatever the other sources hold. */
  lemma GeoJsonWins(p: PharmacyShape, lng: real, lat: real, rest: seq<Val>)
    requires p.location == HolderOf(ArrayOf([Num(lng), Num(lat)] + rest))
    requires !(lat == 0.0 && lng == 0.0)
    ensures GetLatLngFromPharmacy(Some(p)) == Some(Point(lat, lng))
  {
    var items := [Num(lng), Num(lat)] + rest;
    assert At(items, 1) == Num(lat) && At(items, 0) == Num(lng);
  }

  /** An address `coordinates` object offers `lat` before `latitude` and
      `lng` before `longitude`; an address array is read as `[lng, lat]`. */
  lemma AddressNamesInOrder(c: Coordinates)
    ensures c.Fields? && !c.lat.Missing? ==> AddressLat(c) == c.lat
    ensures c.Fields? && c.lat.Missing? ==> AddressLat(c) == c.latitude
    ensures c.Fields? && !c.lng.Missing? ==> AddressLng(c) == c.lng
    ensures c.Fields? && c.lng.Missing? ==> AddressLng(c) == c.longitude
    ensures c.ArrayOf? && |c.items| >= 2 ==> AddressLat(c) == c.items[1] && AddressLng(c) == c.items[0]
  {
  }

  /** A value that is not a number never becomes a coordinate: a source
      whose latitude or longitude is not a number offers nothing. */
  lemma NonNumbersSkipped(p: PharmacyShape)
    ensures !Coalesce(p.latitude, p.lat).Num? ==> FromFlat(p).None?
    ensures p.address.HolderOf? && !AddressLat(p.address.coordinates).Num? ==> FromAddress(p.address).None?
    ensures p.location.HolderOf? && p.location.coordinates.ArrayOf? && !At(p.location.coordinates.items, 0).Num? ==>
              FromLocation(p.location).None?
  {
  }

  /** `hasValidCoordinates` holds exactly when one of the three sources
      offers a usable pair; a missing pharmacy has none. */
  lemma ValidIffPoint(pharmacy: Option<PharmacyShape>)
    ensures pharmacy.None? ==> !HasValidCoordinates(pharmacy)
    ensures pharmacy.Some? ==>
              (HasValidCoordinates(pharmacy) <==>
                 FromLocation(pharmacy.value.location).Some? || FromAddress(pharmacy.value.address).Some?
                 || FromFlat(pharmacy.value).Some?)
  {
    if pharmacy.Some? {
      SourcesInOrder(pharmacy.value);
    }
  }

  /** How a stored pharmacy looks to the lookup: the GeoJSON array holds
      the stored numbers, the address coordinates are an object with `lat`
      and `lng`, and the schema has no flat fields. */
  function ShapeOf(p: PharmacyModel.Pharmacy): (s: PharmacyShape)
    ensures s.location.HolderOf? && s.location.coordinates.ArrayOf?
    ensures |s.location.coordinates.items| == |p.location|
    ensures forall i :: 0 <= i < |p.location| ==> s.location.coordinates.items[i] == Num(p.location[i])
  {
    var address := match p.address.coordinates
      case None => Absent
      case Some(c) => Fields(Num(c.lat), Num(c.lng), Missing, Missing);
    PharmacyShape(
      HolderOf(ArrayOf(seq(|p.location|, i requires 0 <= i < |p.location| => Num(p.location[i])))),
      HolderOf(address),
      Missing, Missing, Missing, Missing)
  }

  /** A pharmacy the location route has placed is shown on the map at
      exactly the latitude and longitude the route was given. */
  lemma LocatedPharmacyIsOnTheMap(p: PharmacyModel.Pharmacy, lat: real, lng: real, address: Option<string>)
    requires PharmacyLocation.NumberGiven(Some(lat)) && PharmacyLocation.NumberGiven(Some(lng))
    ensures GetLatLngFromPharmacy(Some(ShapeOf(PharmacyLocation.Located(p, lat, lng, address)))) == Some(Point(lat, lng))
    ensures HasValidCoordinates(Some(ShapeOf(PharmacyLocation.Located(p, lat, lng, address))))
  {
    var s := ShapeOf(PharmacyLocation.Located(p, lat, lng, address));
    var items := s.location.coordinates.items;
    assert At(items, 1) == Num(lat) && At(items, 0) == Num(lng);
  }
}
