/** The administrator's pharmacy routes of backend/routes/admin.js: the
    pending and approved listings, approval, rejection and the dashboard
    counts. Listings run newest first; a document's position stands for its
    creation time. */
module AdminRoutes {
  import opened Common
  import opened PharmacyModel

  datatype AdminError = NotFound

  /** The approval update: approved, verified, by whom and when. The
      prior status is not consulted. */
  function ApprovedBy(p: Pharmacy, admin: UserId, now: Date): (q: Pharmacy)
    ensures q.status == Approved && q.isVerified && VerifiedOnlyIfApproved(q)
    ensures q.approvedBy == Some(admin) && q.approvedAt == Some(now)
    ensures q.owner == p.owner && q.name == p.name && q.licenseNumber == p.licenseNumber
    ensures q.rejectionReason == p.rejectionReason && q.location == p.location && q.address == p.address
    ensures q.(status := p.status, isVerified := p.isVerified, approvedBy := p.approvedBy, approvedAt := p.approvedAt) == p
  {
    p.(status := Approved, isVerified := true, approvedBy := Some(admin), approvedAt := Some(now))
  }

  /** The rejection update: rejected and not verified, with the supplied
      reason; an omitted reason is not part of the write, so an earlier
      reason stays. */
  function RejectedFor(p: Pharmacy, reason: Option<string>): (q: Pharmacy)
    ensures q.status == Rejected && !q.isVerified && VerifiedOnlyIfApproved(q)
    ensures reason.Some? ==> q.rejectionReason == reason
    ensures reason.None? ==> q.rejectionReason == p.rejectionReason
    ensures q.owner == p.owner && q.name == p.name && q.licenseNumber == p.licenseNumber
    ensures q.approvedBy == p.approvedBy && q.approvedAt == p.approvedAt
    ensures q.(status := p.status, isVerified := p.isVerified, rejectionReason := p.rejectionReason) == p
  {
    p.(status := Rejected, rejectionReason := if reason.Some? then reason else p.rejectionReason, isVerified := false)
  }

  /** PUT `/pharmacies/:id/approve`. */
  method Approve(db: PharmacyCollection, id: PharmacyId, admin: UserId, now: Date) returns (r: Result<Pharmacy, AdminError>)
    requires db.Valid()
    modifies db
    ensures db.Valid()
    ensures id >= |old(db.docs)| ==> r == Err(NotFound) && db.docs == old(db.docs)
    ensures id < |old(db.docs)| ==>
              var q := ApprovedBy(old(db.docs)[id], admin, now);
              r == Ok(q) && db.docs == old(db.docs)[id := q]
  {
    if id >= |db.docs| {
      return Err(NotFound);
    }
    var q := ApprovedBy(db.docs[id], admin, now);
    db.Store(id, q);
    r := Ok(q);
  }

  /** PUT `/pharmacies/:id/reject`. */
  method Reject(db: PharmacyCollection, id: PharmacyId, reason: Option<string>) returns (r: Result<Pharmacy, AdminError>)
    requires db.Valid()
    modifies db
    ensures db.Valid()
    ensures id >= |old(db.docs)| ==> r == Err(NotFound) && db.docs == old(db.docs)
    ensures id < |old(db.docs)| ==>
              var q := RejectedFor(old(db.docs)[id], reason);
              r == Ok(q) && db.docs == old(db.docs)[id := q]
  {
    if id >= |db.docs| {
      return Err(NotFound);
    }
    var q := RejectedFor(db.docs[id], reason);
    db.Store(id, q);
    r := Ok(q);
  }

  function Reversed<T>(s: seq<T>): (r: seq<T>)
    ensures |r| == |s|
    ensures forall i :: 0 <= i < |s| ==> r[i] == s[|s| - 1 - i]
  {
    if s == [] then [] else Reversed(s[1..]) + [s[0]]
  }

  /** Reversing keeps every element as often as it was. */
  lemma {:induction false} ReversedIsPermutation<T>(s: seq<T>)
    ensures multiset(Reversed(s)) == multiset(s)
  {
    if s != [] {
      ReversedIsPermutation(s[1..]);
      assert s == [s[0]] + s[1..];
    }
  }

  /** The condition `{ status }` of a query. */
  function HasStatus(status: Status): Pharmacy -> bool {
    (p: Pharmacy) => p.status == status
  }

  /** The documents with the given status, newest first. */
  function WithStatus(docs: seq<Pharmacy>, status: Status): (r: seq<Pharmacy>)
    ensures forall p :: p in r <==> p in docs && p.status == status
    ensures IsSubsequence(r, Reversed(docs))
    ensures forall p :: p in r ==> multiset(r)[p] == multiset(docs)[p]
  {
    var rev := Reversed(docs);
    var r := Filter(rev, HasStatus(status));
    ReversedIsPermutation(docs);
    forall p
      ensures p in r <==> p in docs && p.status == status
      ensures p in r ==> multiset(r)[p] == multiset(docs)[p]
    {
      assert HasStatus(status)(p) == (p.status == status);
      assert p in rev <==> p in docs by {
        assert p in rev <==> p in multiset(rev);
      }
    }
    r
  }

  /** The listing loop: walks from the newest document to the oldest. */
  method ListByStatus(db: PharmacyCollection, status: Status) returns (r: seq<Pharmacy>)
    ensures r == WithStatus(db.docs, status)
  {
    var docs := db.docs;
    r := [];
    var i := |docs|;
    while i > 0
      invariant 0 <= i <= |docs|
      invariant r == Filter(Reversed(docs[i..]), HasStatus(status))
    {
      i := i - 1;
      assert docs[i..][1..] == docs[i + 1..];
      FilterAppendOne(Reversed(docs[i + 1..]), docs[i], HasStatus(status));
      if docs[i].status == status {
        r := r + [docs[i]];
      }
    }
    assert docs[0..] == docs;
  }

  /** GET `/pharmacies/pending`. */
  method Pending(db: PharmacyCollection) returns (r: seq<Pharmacy>)
    ensures forall p :: p in r <==> p in db.docs && p.status == PendingApproval
    ensures IsSubsequence(r, Reversed(db.docs))
  {
    r := ListByStatus(db, PendingApproval);
  }

  /** GET `/pharmacies/approved`. */
  method ApprovedList(db: PharmacyCollection) returns (r: seq<Pharmacy>)
    ensures forall p :: p in r <==> p in db.docs && p.status == Approved
    ensures IsSubsequence(r, Reversed(db.docs))
  {
    r := ListByStatus(db, Approved);
  }

  /** `countDocuments` with a status condition. */
  function CountStatus(docs: seq<Pharmacy>, status: Status): nat {
    |Filter(docs, HasStatus(status))|
  }

  /** Counting over one more document. */
  lemma CountStatusStep(docs: seq<Pharmacy>, i: nat, status: Status)
    requires i < |docs|
    ensures CountStatus(docs[..i + 1], status) == CountStatus(docs[..i], status) + (if docs[i].status == status then 1 else 0)
  {
    assert docs[..i + 1] == docs[..i] + [docs[i]];
    FilterAppendOne(docs[..i], docs[i], HasStatus(status));
  }

  /** Pending and approved pharmacies are disjoint parts of the whole. */
  lemma {:induction false} PendingAndApprovedWithinTotal(docs: seq<Pharmacy>)
    ensures CountStatus(docs, PendingApproval) + CountStatus(docs, Approved) <= |docs|
  {
    if docs != [] {
      PendingAndApprovedWithinTotal(docs[1..]);
    }
  }

  /** The condition `{ role }` of a query on users. */
  function HasRole(role: Role): Role -> bool {
    (u: Role) => u == role
  }

  /** `User.countDocuments({ role })`, the users standing for their roles. */
  function CountRole(users: seq<Role>, role: Role): nat {
    |Filter(users, HasRole(role))|
  }

  /** Counting over one more user. */
  lemma CountRoleStep(users: seq<Role>, i: nat, role: Role)
    requires i < |users|
    ensures CountRole(users[..i + 1], role) == CountRole(users[..i], role) + (if users[i] == role then 1 else 0)
  {
    assert users[..i + 1] == users[..i] + [users[i]];
    FilterAppendOne(users[..i], users[i], HasRole(role));
  }

  /** Patients and pharmacists are disjoint parts of all users. */
  lemma {:induction false} PatientsAndPharmacistsWithinUsers(users: seq<Role>)
    ensures CountRole(users, Patient) + CountRole(users, Pharmacist) <= |users|
  {
    if users != [] {
      PatientsAndPharmacistsWithinUsers(users[1..]);
    }
  }

  /** The user half of the dashboard counts. */
  method CountUsers(users: seq<Role>) returns (total: nat, patients: nat, pharmacists: nat)
    ensures total == |users|
    ensures patients == CountRole(users, Patient) && pharmacists == CountRole(users, Pharmacist)
    ensures patients + pharmacists <= total
  {
    patients, pharmacists := 0, 0;
    var i := 0;
    while i < |users|
      invariant 0 <= i <= |users|
      invariant patients == CountRole(users[..i], Patient)
      invariant pharmacists == CountRole(users[..i], Pharmacist)
    {
      CountRoleStep(users, i, Patient);
      CountRoleStep(users, i, Pharmacist);
      if users[i] == Patient {
        patients := patients + 1;
      } else if users[i] == Pharmacist {
        pharmacists := pharmacists + 1;
      }
      i := i + 1;
    }
    assert users[..i] == users;
    PatientsAndPharmacistsWithinUsers(users);
    total := |users|;
  }

  /** The dashboard counts. */
  datatype DashboardStats = DashboardStats(
    totalPharmacies: nat, pendingPharmacies: nat, approvedPharmacies: nat,
    totalUsers: nat, totalPatients: nat, totalPharmacists: nat)

  /** GET `/stats`: pharmacy counts by status and user counts by role; the
      user collection is given as the roles of its users. */
  method Stats(db: PharmacyCollection, users: seq<Role>) returns (s: DashboardStats)
    ensures s.totalPharmacies == |db.docs|
    ensures s.pendingPharmacies == CountStatus(db.docs, PendingApproval)
    ensures s.approvedPharmacies == CountStatus(db.docs, Approved)
    ensures s.pendingPharmacies + s.approvedPharmacies <= s.totalPharmacies
    ensures s.totalUsers == |users|
    ensures s.totalPatients == CountRole(users, Patient) && s.totalPharmacists == CountRole(users, Pharmacist)
    ensures s.totalPatients + s.totalPharmacists <= s.totalUsers
  {
    var docs := db.docs;
    var pending, approved := 0, 0;
    var i := 0;
    while i < |docs|
      invariant 0 <= i <= |docs|
      invariant pending == CountStatus(docs[..i], PendingApproval)
      invariant approved == CountStatus(docs[..i], Approved)
    {
      CountStatusStep(docs, i, PendingApproval);
      CountStatusStep(docs, i, Approved);
      if docs[i].status == PendingApproval {
        pending := pending + 1;
      } else if docs[i].status == Approved {
        approved := approved + 1;
      }
      i := i + 1;
    }
    assert docs[..i] == docs;
    PendingAndApprovedWithinTotal(docs);
    var totalUsers, patients, pharmacists := CountUsers(users);
    s := DashboardStats(|docs|, pending, approved, totalUsers, patients, pharmacists);
  }
}
