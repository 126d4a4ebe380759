/** The pharmacy document of backend/models/Pharmacy.js (its enums,
    defaults and validators) and the pharmacy collection the routes read
    and write, with the invariants the routes keep: one pharmacy per owner,
    unique licence numbers, and `isVerified` only on an approved pharmacy.
    A document's id is its position in the collection, so positions follow
    creation order. */
module PharmacyModel {
  import opened Common

  type PharmacyId = nat
  /** Milliseconds since the epoch. */
  type Date = int

  datatype Status = Draft | PendingApproval | Approved | Rejected

  /** The stored spelling of a status. */
  function StatusName(s: Status): string {
    match s
    case Draft => "draft"
    case PendingApproval => "pending_approval"
    case Approved => "approved"
    case Rejected => "rejected"
  }

  /** The status enum validator: the statuses are exactly four names. */
  function ParseStatus(name: string): (s: Option<Status>)
    ensures s.Some? ==> StatusName(s.value) == name
    ensures forall t: Status :: name == StatusName(t) ==> s == Some(t)
  {
    if name == "draft" then Some(Draft)
    else if name == "pending_approval" then Some(PendingApproval)
    else if name == "approved" then Some(Approved)
    else if name == "rejected" then Some(Rejected)
    else None
  }

  datatype SubscriptionType = Monthly | Yearly | NoSubscription

  datatype Subscription = Subscription(kind: SubscriptionType, startDate: Option<Date>, endDate: Option<Date>, isActive: bool)

  datatype LatLng = LatLng(lat: real, lng: real)

  datatype Address = Address(address: Option<string>, city: Option<string>, coordinates: Option<LatLng>)

  const NoAddress := Address(None, None, None)

  datatype Hours = Hours(open: Option<string>, close: Option<string>, days: seq<string>)

  datatype Certificate = Certificate(name: string, fileUrl: string)

  /** A stored pharmacy. `location` is the GeoJSON point's coordinate
      array, longitude first. */
  datatype Pharmacy = Pharmacy(
    owner: UserId,
    name: string,
    licenseNumber: string,
    email: Option<string>,
    phone: Option<string>,
    address: Address,
    location: seq<real>,
    locationSet: bool,
    operatingHours: Option<Hours>,
    services: seq<string>,
    description: Option<string>,
    certificates: seq<Certificate>,
    isVerified: bool,
    isActive: bool,
    subscription: Subscription,
    status: Status,
    rejectionReason: Option<string>,
    approvedBy: Option<UserId>,
    approvedAt: Option<Date>)

  /** A new document with every default of the schema. */
  function NewPharmacy(owner: UserId, name: string, licenseNumber: string): (p: Pharmacy)
    ensures p.owner == owner && p.name == name && p.licenseNumber == licenseNumber
    ensures p.status == Draft && StatusName(p.status) == "draft"
    ensures !p.isVerified && p.isActive
    ensures p.subscription.kind == NoSubscription && !p.subscription.isActive
    ensures p.rejectionReason.None? && p.approvedBy.None? && p.approvedAt.None?
  {
    Pharmacy(owner, name, licenseNumber, None, None, NoAddress, [], false, None, [], None, [],
             false, true, Subscription(NoSubscription, None, None, false), Draft, None, None, None)
  }

  /** The required validators: a non-empty name and licence number. */
  predicate SchemaValid(p: Pharmacy) {
    p.name != "" && p.licenseNumber != ""
  }

  /** The route-level invariant of one document. */
  predicate VerifiedOnlyIfApproved(p: Pharmacy) {
    p.isVerified ==> p.status == Approved
  }

  /** What the collection keeps: valid documents, the unique licence index,
      one pharmacy per owner, and verification only after approval. */
  ghost predicate ValidDocs(docs: seq<Pharmacy>) {
    && (forall i :: 0 <= i < |docs| ==> SchemaValid(docs[i]) && VerifiedOnlyIfApproved(docs[i]))
    && (forall i, j :: 0 <= i < j < |docs| ==> docs[i].licenseNumber != docs[j].licenseNumber)
    && (forall i, j :: 0 <= i < j < |docs| ==> docs[i].owner != docs[j].owner)
  }

  /** Whether a document other than `except` holds the licence number. */
  predicate LicenseTaken(docs: seq<Pharmacy>, license: string, except: Option<PharmacyId>) {
    exists i :: 0 <= i < |docs| && Some(i) != except && docs[i].licenseNumber == license
  }

  /** The first document of the owner, if any; with one pharmacy per
      owner, the owner's only one. */
  function IndexOfOwner(docs: seq<Pharmacy>, owner: UserId): (r: Option<PharmacyId>)
    ensures r.Some? ==> r.value < |docs| && docs[r.value].owner == owner
    ensures r.Some? ==> forall j :: 0 <= j < r.value ==> docs[j].owner != owner
    ensures r.None? ==> forall i :: 0 <= i < |docs| ==> docs[i].owner != owner
  {
    if docs == [] then None
    else if docs[0].owner == owner then Some(0)
    else
      match IndexOfOwner(docs[1..], owner)
      case None => None
      case Some(k) => Some(k + 1)
  }

  datatype SaveError = ValidationFailed | DuplicateLicense

  class PharmacyCollection {
    var docs: seq<Pharmacy>

    ghost predicate Valid()
      reads this
    {
      ValidDocs(docs)
    }

    constructor ()
      ensures Valid() && docs == []
    {
      docs := [];
    }

    /** `findOne({ owner })`: the owner's only pharmacy, if any. */
    method FindByOwner(owner: UserId) returns (r: Option<PharmacyId>)
      requires Valid()
      ensures r == IndexOfOwner(docs, owner)
      ensures r.Some? ==> forall i :: 0 <= i < |docs| && docs[i].owner == owner ==> i == r.value
    {
      var i := 0;
      while i < |docs|
        invariant 0 <= i <= |docs|
        invariant forall j :: 0 <= j < i ==> docs[j].owner != owner
      {
        if docs[i].owner == owner {
          return Some(i);
        }
        i := i + 1;
      }
      return None;
    }

    /** The unique index's lookup: a document other than `except` that
        holds the licence number, if any. */
    method LicenseHolder(license: string, except: Option<PharmacyId>) returns (r: Option<PharmacyId>)
      ensures r.Some? ==> r.value < |docs| && Some(r.value) != except && docs[r.value].licenseNumber == license
      ensures r.None? <==> !LicenseTaken(docs, license, except)
    {
      var i := 0;
      while i < |docs|
        invariant 0 <= i <= |docs|
        invariant forall j :: 0 <= j < i && Some(j) != except ==> docs[j].licenseNumber != license
      {
        if Some(i) != except && docs[i].licenseNumber == license {
          return Some(i);
        }
        i := i + 1;
      }
      return None;
    }

    /** Saves a new document: the validators first, then the unique
        licence index; a refused save changes nothing. */
    method Insert(p: Pharmacy) returns (res: Result<PharmacyId, SaveError>)
      requires Valid()
      requires VerifiedOnlyIfApproved(p)
      requires forall i :: 0 <= i < |docs| ==> docs[i].owner != p.owner
      modifies this
      ensures Valid()
      ensures !SchemaValid(p) ==> res == Err(ValidationFailed) && docs == old(docs)
      ensures SchemaValid(p) && LicenseTaken(old(docs), p.licenseNumber, None) ==>
                res == Err(DuplicateLicense) && docs == old(docs)
      ensures SchemaValid(p) && !LicenseTaken(old(docs), p.licenseNumber, None) ==>
                res == Ok(|old(docs)|) && docs == old(docs) + [p]
    {
      if !SchemaValid(p) {
        return Err(ValidationFailed);
      }
      var holder := LicenseHolder(p.licenseNumber, None);
      if holder.Some? {
        return Err(DuplicateLicense);
      }
      docs := docs + [p];
      res := Ok(|docs| - 1);
    }

    /** `findByIdAndUpdate` with validators: replaces a document kept by
        the same owner; a refused update changes nothing. */
    method Replace(id: PharmacyId, p: Pharmacy) returns (res: Option<SaveError>)
      requires Valid()
      requires id < |docs| && p.owner == docs[id].owner
      requires VerifiedOnlyIfApproved(p)
      modifies this
      ensures Valid()
      ensures !SchemaValid(p) ==> res == Some(ValidationFailed) && docs == old(docs)
      ensures SchemaValid(p) && LicenseTaken(old(docs), p.licenseNumber, Some(id)) ==>
                res == Some(DuplicateLicense) && docs == old(docs)
      ensures SchemaValid(p) && !LicenseTaken(old(docs), p.licenseNumber, Some(id)) ==>
                res.None? && docs == old(docs)[id := p]
    {
      if !SchemaValid(p) {
        return Some(ValidationFailed);
      }
      var holder := LicenseHolder(p.licenseNumber, Some(id));
      if holder.Some? {
        return Some(DuplicateLicense);
      }
      docs := docs[id := p];
      res := None;
    }

    /** Writes fields the validators and the unique index never refuse:
        name, licence number and owner stay as they were. */
    method Store(id: PharmacyId, p: Pharmacy)
      requires Valid()
      requires id < |docs|
      requires p.owner == docs[id].owner && p.name == docs[id].name && p.licenseNumber == docs[id].licenseNumber
      requires VerifiedOnlyIfApproved(p)
      modifies this
      ensures Valid()
      ensures docs == old(docs)[id := p]
    {
      docs := docs[id := p];
    }
  }
}
