/** The pharmacist's onboarding routes of
    backend/routes/pharmacyOnboarding.js: the profile status, the
    create-or-resubmit of the profile, which every pharmacy passes through
    on its way to approval, and the profile read. */
module PharmacyOnboarding {
  import opened Common
  import opened PharmacyModel

  /** The profile fields of the request body; `None` is an omitted field. */
  datatype ProfileData = ProfileData(
    name: Option<string>,
    licenseNumber: Option<string>,
    email: Option<string>,
    phone: Option<string>,
    address: Option<Address>,
    coordinates: Option<seq<real>>,
    operatingHours: Option<Hours>,
    services: Option<seq<string>>,
    description: Option<string>,
    certificates: Option<seq<Certificate>>)

  datatype RouteError = Forbidden | AlreadyApproved | ProfileInvalid | AlreadyExists | NotFound

  /** The submitted fields written over `p`. An omitted field is not part
      of the write and keeps its value (for a new document, the schema
      default); the name is trimmed; the GeoJSON point is always written.
      The status becomes pending approval and verification is withdrawn;
      everything the submission does not write (owner, rejection reason,
      approval record, activity, subscription, location flag) stays as it
      was. */
  function Submitted(p: Pharmacy, data: ProfileData): (q: Pharmacy)
    ensures q.status == PendingApproval && !q.isVerified && VerifiedOnlyIfApproved(q)
    ensures q.owner == p.owner && q.rejectionReason == p.rejectionReason
    ensures q.approvedBy == p.approvedBy && q.approvedAt == p.approvedAt
    ensures q.isActive == p.isActive && q.subscription == p.subscription && q.locationSet == p.locationSet
    ensures data.coordinates.None? ==> q.location == [0.0, 0.0]
    ensures data.coordinates.Some? ==> q.location == data.coordinates.value
    ensures data.name.Some? ==> q.name == Trim(data.name.value)
    ensures data.name.None? ==> q.name == p.name
    ensures q.licenseNumber == data.licenseNumber.GetOr(p.licenseNumber)
    ensures q.email == data.email.OrElse(p.email) && q.phone == data.phone.OrElse(p.phone)
    ensures q.address == data.address.GetOr(p.address) && q.services == data.services.GetOr(p.services)
    ensures q.operatingHours == data.operatingHours.OrElse(p.operatingHours)
    ensures q.description == data.description.OrElse(p.description)
    ensures q.certificates == data.certificates.GetOr(p.certificates)
    ensures SchemaValid(q) <==>
              (if data.name.Some? then Trim(data.name.value) != "" else p.name != "")
              && data.licenseNumber.GetOr(p.licenseNumber) != ""
  {
    var name := if data.name.Some? then Trim(data.name.value) else p.name;
    var license := data.licenseNumber.GetOr(p.licenseNumber);
    p.(name := name,
       licenseNumber := license,
       email := data.email.OrElse(p.email),
       phone := data.phone.OrElse(p.phone),
       address := data.address.GetOr(p.address),
       location := data.coordinates.GetOr([0.0, 0.0]),
       operatingHours := data.operatingHours.OrElse(p.operatingHours),
       services := data.services.GetOr(p.services),
       description := data.description.OrElse(p.description),
       certificates := data.certificates.GetOr(p.certificates),
       status := PendingApproval,
       isVerified := false)
  }

  /** A first submission: the schema defaults with the caller as owner. */
  function Created(owner: UserId, data: ProfileData): (q: Pharmacy)
    ensures SchemaValid(q) <==>
              data.name.Some? && Trim(data.name.value) != "" && data.licenseNumber.Some? && data.licenseNumber.value != ""
    ensures q.status == PendingApproval && !q.isVerified
    ensures q.owner == owner && q.isActive && q.rejectionReason.None? && q.approvedBy.None?
    ensures q.subscription.kind == NoSubscription && !q.subscription.isActive
  {
    Submitted(NewPharmacy(owner, "", ""), data)
  }

  /** What `/status` answers. */
  datatype StatusReply = StatusReply(hasPharmacy: bool, status: string, pharmacy: Option<Pharmacy>)

  /** GET `/status`. */
  method Status(db: PharmacyCollection, caller: Caller) returns (r: Result<StatusReply, RouteError>)
    requires db.Valid()
    ensures caller.role != Pharmacist ==> r == Err(Forbidden)
    ensures caller.role == Pharmacist && IndexOfOwner(db.docs, caller.id).None? ==>
              r == Ok(StatusReply(false, "no_pharmacy", None))
    ensures caller.role == Pharmacist && IndexOfOwner(db.docs, caller.id).Some? ==>
              var p := db.docs[IndexOfOwner(db.docs, caller.id).value];
              r == Ok(StatusReply(true, StatusName(p.status), Some(p)))
  {
    if caller.role != Pharmacist {
      return Err(Forbidden);
    }
    var at := db.FindByOwner(caller.id);
    if at.None? {
      return Ok(StatusReply(false, "no_pharmacy", None));
    }
    var p := db.docs[at.value];
    r := Ok(StatusReply(true, StatusName(p.status), Some(p)));
  }

  /** POST `/complete-profile`: refused for an approved pharmacy; otherwise
      the owner's pharmacy is overwritten, or a first one created, subject
      to the validators and the unique licence index. */
  method CompleteProfile(db: PharmacyCollection, caller: Caller, data: ProfileData) returns (r: Result<PharmacyId, RouteError>)
    requires db.Valid()
    modifies db
    ensures db.Valid()
    ensures caller.role != Pharmacist ==> r == Err(Forbidden) && db.docs == old(db.docs)
    ensures caller.role == Pharmacist ==>
      var at := IndexOfOwner(old(db.docs), caller.id);
      if at.Some? && old(db.docs)[at.value].status == Approved then
        r == Err(AlreadyApproved) && db.docs == old(db.docs)
      else
        var q := if at.Some? then Submitted(old(db.docs)[at.value], data) else Created(caller.id, data);
        if !SchemaValid(q) then
          r == Err(ProfileInvalid) && db.docs == old(db.docs)
        else if LicenseTaken(old(db.docs), q.licenseNumber, at) then
          r == Err(AlreadyExists) && db.docs == old(db.docs)
        else if at.Some? then
          r == Ok(at.value) && db.docs == old(db.docs)[at.value := q]
        else
          r == Ok(|old(db.docs)|) && db.docs == old(db.docs) + [q]
  {
    if caller.role != Pharmacist {
      return Err(Forbidden);
    }
    var at := db.FindByOwner(caller.id);
    if at.Some? && db.docs[at.value].status == Approved {
      return Err(AlreadyApproved);
    }
    if at.Some? {
      var q := Submitted(db.docs[at.value], data);
      var failed := db.Replace(at.value, q);
      match failed
      case None => r := Ok(at.value);
      case Some(ValidationFailed) => r := Err(ProfileInvalid);
      case Some(DuplicateLicense) => r := Err(AlreadyExists);
    } else {
      var q := Created(caller.id, data);
      var saved := db.Insert(q);
      match saved
      case Ok(id) => r := Ok(id);
      case Err(ValidationFailed) => r := Err(ProfileInvalid);
      case Err(DuplicateLicense) => r := Err(AlreadyExists);
    }
  }

  /** GET `/profile`. */
  method Profile(db: PharmacyCollection, caller: Caller) returns (r: Result<Pharmacy, RouteError>)
    requires db.Valid()
    ensures caller.role != Pharmacist ==> r == Err(Forbidden)
    ensures caller.role == Pharmacist && IndexOfOwner(db.docs, caller.id).None? ==> r == Err(NotFound)
    ensures caller.role == Pharmacist && IndexOfOwner(db.docs, caller.id).Some? ==>
              r == Ok(db.docs[IndexOfOwner(db.docs, caller.id).value])
  {
    if caller.role != Pharmacist {
      return Err(Forbidden);
    }
    var at := db.FindByOwner(caller.id);
    if at.None? {
      return Err(NotFound);
    }
    r := Ok(db.docs[at.value]);
  }
}
