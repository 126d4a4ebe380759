/** The pharmacist's location routes of backend/routes/pharmacyLocation.js:
    placing an approved pharmacy on the map, and reading back where it is. */
module PharmacyLocation {
  import opened Common
  import opened PharmacyModel

  datatype LocationError = Forbidden | BadRequest | NotFound

  /** JavaScript truthiness of a numeric body field: an absent field and a
      literal zero are both falsy. */
  predicate NumberGiven(v: Option<real>) {
    v.Some? && v.value != 0.0
  }

  /** JavaScript truthiness of a text body field: absent and "" are falsy. */
  predicate TextGiven(v: Option<string>) {
    v.Some? && v.value != ""
  }

  /** The location writes: the GeoJSON point, longitude first; the address
      text only when one is given; the address coordinates; the flag.
      Nothing else in the document changes. */
  function Located(p: Pharmacy, lat: real, lng: real, address: Option<string>): (q: Pharmacy)
    ensures q.location == [lng, lat] && q.locationSet
    ensures q.address.coordinates == Some(LatLng(lat, lng))
    ensures TextGiven(address) ==> q.address.address == address
    ensures !TextGiven(address) ==> q.address.address == p.address.address
    ensures q.address.city == p.address.city
    ensures q.(location := p.location, address := p.address, locationSet := p.locationSet) == p
  {
    var text := if TextGiven(address) then address else p.address.address;
    p.(location := [lng, lat],
       address := p.address.(address := text, coordinates := Some(LatLng(lat, lng))),
       locationSet := true)
  }

  /** `findOne({ owner, status: 'approved' })`: the first document of the
      owner that is approved. */
  function IndexOfApproved(docs: seq<Pharmacy>, owner: UserId): (r: Option<PharmacyId>)
    ensures r.Some? ==> r.value < |docs| && docs[r.value].owner == owner && docs[r.value].status == Approved
    ensures r.Some? ==> forall j :: 0 <= j < r.value ==> !(docs[j].owner == owner && docs[j].status == Approved)
    ensures r.None? ==> forall i :: 0 <= i < |docs| ==> !(docs[i].owner == owner && docs[i].status == Approved)
  {
    if docs == [] then None
    else if docs[0].owner == owner && docs[0].status == Approved then Some(0)
    else
      match IndexOfApproved(docs[1..], owner)
      case None => None
      case Some(k) => Some(k + 1)
  }

  /** With one pharmacy per owner, the approved lookup finds the owner's
      pharmacy exactly when that pharmacy is approved. */
  lemma {:induction false} ApprovedLookupIsOwnersPharmacy(docs: seq<Pharmacy>, owner: UserId)
    requires ValidDocs(docs)
    ensures IndexOfApproved(docs, owner).Some? <==>
              IndexOfOwner(docs, owner).Some? && docs[IndexOfOwner(docs, owner).value].status == Approved
    ensures IndexOfApproved(docs, owner).Some? ==> IndexOfApproved(docs, owner) == IndexOfOwner(docs, owner)
  {
    var a := IndexOfApproved(docs, owner);
    var o := IndexOfOwner(docs, owner);
    if a.Some? {
      assert o.Some?;
    }
  }

  /** The loop behind the approved lookup. */
  method FindApproved(db: PharmacyCollection, owner: UserId) returns (r: Option<PharmacyId>)
    ensures r == IndexOfApproved(db.docs, owner)
  {
    var docs := db.docs;
    var i := 0;
    while i < |docs|
      invariant 0 <= i <= |docs|
      invariant forall j :: 0 <= j < i ==> !(docs[j].owner == owner && docs[j].status == Approved)
    {
      if docs[i].owner == owner && docs[i].status == Approved {
        return Some(i);
      }
      i := i + 1;
    }
    return None;
  }

  /** POST `/set-location`: the role check, then the coordinates check
      before any lookup, then the approved pharmacy of the caller. */
  method SetLocation(db: PharmacyCollection, caller: Caller, latitude: Option<real>, longitude: Option<real>, address: Option<string>)
    returns (r: Result<Pharmacy, LocationError>)
    requires db.Valid()
    modifies db
    ensures db.Valid()
    ensures caller.role != Pharmacist ==> r == Err(Forbidden) && db.docs == old(db.docs)
    ensures caller.role == Pharmacist && !(NumberGiven(latitude) && NumberGiven(longitude)) ==>
              r == Err(BadRequest) && db.docs == old(db.docs)
    ensures caller.role == Pharmacist && NumberGiven(latitude) && NumberGiven(longitude) ==>
              var at := IndexOfApproved(old(db.docs), caller.id);
              if at.None? then
                r == Err(NotFound) && db.docs == old(db.docs)
              else
                var q := Located(old(db.docs)[at.value], latitude.value, longitude.value, address);
                r == Ok(q) && db.docs == old(db.docs)[at.value := q]
  {
    if caller.role != Pharmacist {
      return Err(Forbidden);
    }
    if !NumberGiven(latitude) || !NumberGiven(longitude) {
      return Err(BadRequest);
    }
    var at := FindApproved(db, caller.id);
    if at.None? {
      return Err(NotFound);
    }
    var q := Located(db.docs[at.value], latitude.value, longitude.value, address);
    db.Store(at.value, q);
    r := Ok(q);
  }

  /** What `/location-status` answers. */
  datatype LocationReply = LocationReply(locationSet: bool, coordinates: seq<real>, address: Address)

  /** GET `/location-status`: any status of the caller's pharmacy. */
  method LocationStatus(db: PharmacyCollection, caller: Caller) returns (r: Result<LocationReply, LocationError>)
    requires db.Valid()
    ensures caller.role != Pharmacist ==> r == Err(Forbidden)
    ensures caller.role == Pharmacist && IndexOfOwner(db.docs, caller.id).None? ==> r == Err(NotFound)
    ensures caller.role == Pharmacist && IndexOfOwner(db.docs, caller.id).Some? ==>
              var p := db.docs[IndexOfOwner(db.docs, caller.id).value];
              r == Ok(LocationReply(p.locationSet, p.location, p.address))
  {
    if caller.role != Pharmacist {
      return Err(Forbidden);
    }
    var at := db.FindByOwner(caller.id);
    if at.None? {
      return Err(NotFound);
    }
    var p := db.docs[at.value];
    r := Ok(LocationReply(p.locationSet, p.location, p.address));
  }
}
