/** The approval lifecycle of one pharmacy, as the owner's submission
    (backend/routes/pharmacyOnboarding.js), the administrator's decisions
    (backend/routes/admin.js) and the location route
    (backend/routes/pharmacyLocation.js) move it between the four statuses.
    A refused request leaves the document as it was. */
module PharmacyLifecycle {
  import opened Common
  import opened PharmacyModel
  import opened PharmacyOnboarding
  import opened AdminRoutes
  import opened PharmacyLocation

  /** A request that reaches the pharmacy. `licenseFree` says whether the
      unique licence index lets the submitted licence number through. */
  datatype Event =
    | Submit(data: ProfileData, licenseFree: bool)
    | Approve(admin: UserId, now: Date)
    | Reject(reason: Option<string>)
    | Locate(latitude: Option<real>, longitude: Option<real>, address: Option<string>)

  /** The lifecycle's invariant: verified exactly when approved. */
  predicate VerifiedIffApproved(p: Pharmacy) {
    p.isVerified <==> p.status == Approved
  }

  /** One request applied to the pharmacy. */
  function Step(p: Pharmacy, e: Event): (q: Pharmacy)
    ensures VerifiedOnlyIfApproved(p) ==> VerifiedOnlyIfApproved(q)
    ensures VerifiedIffApproved(p) ==> VerifiedIffApproved(q)
    ensures q.owner == p.owner
    ensures p.status == Approved && q.status != Approved ==> e.Reject?
    ensures q.locationSet != p.locationSet ==> p.status == Approved && e.Locate?
    ensures e.Submit? && p.status != Approved && q != p ==> q.status == PendingApproval && !q.isVerified
  {
    match e
    case Submit(data, licenseFree) =>
      if p.status == Approved then p
      else
        var q := Submitted(p, data);
        if SchemaValid(q) && licenseFree then q else p
    case Approve(admin, now) => ApprovedBy(p, admin, now)
    case Reject(reason) => RejectedFor(p, reason)
    case Locate(lat, lng, address) =>
      if p.status == Approved && NumberGiven(lat) && NumberGiven(lng) then
        Located(p, lat.value, lng.value, address)
      else p
  }

  /** The requests applied in order. */
  function Replay(p: Pharmacy, events: seq<Event>): Pharmacy
    decreases |events|
  {
    if events == [] then p else Replay(Step(p, events[0]), events[1..])
  }

  /** Every pharmacy starts out verified exactly when approved, and every
      sequence of requests keeps it that way. */
  lemma {:induction false} ReplayKeepsVerifiedIffApproved(p: Pharmacy, events: seq<Event>)
    requires VerifiedIffApproved(p)
    ensures VerifiedIffApproved(Replay(p, events))
    decreases |events|
  {
    if events != [] {
      ReplayKeepsVerifiedIffApproved(Step(p, events[0]), events[1..]);
    }
  }

  /** The route invariant `isVerified` only when approved holds after any
      sequence of requests. */
  lemma {:induction false} ReplayKeepsVerifiedOnlyIfApproved(p: Pharmacy, events: seq<Event>)
    requires VerifiedOnlyIfApproved(p)
    ensures VerifiedOnlyIfApproved(Replay(p, events))
    decreases |events|
  {
    if events != [] {
      ReplayKeepsVerifiedOnlyIfApproved(Step(p, events[0]), events[1..]);
    }
  }

  /** A pharmacy created by the first submission satisfies the invariant,
      and so does every pharmacy it becomes. */
  lemma {:induction false} CreatedPharmacyStaysConsistent(owner: UserId, data: ProfileData, events: seq<Event>)
    ensures VerifiedIffApproved(Replay(Created(owner, data), events))
    ensures Replay(Created(owner, data), events).isVerified ==> Replay(Created(owner, data), events).status == Approved
  {
    ReplayKeepsVerifiedIffApproved(Created(owner, data), events);
  }

  /** Only an administrator's rejection takes an approved pharmacy out of
      the approved status: the owner cannot resubmit it. */
  lemma {:induction false} ApprovalLeftOnlyByRejection(p: Pharmacy, events: seq<Event>)
    requires p.status == Approved
    requires forall i :: 0 <= i < |events| ==> !events[i].Reject?
    ensures Replay(p, events).status == Approved
    decreases |events|
  {
    if events != [] {
      ApprovalLeftOnlyByRejection(Step(p, events[0]), events[1..]);
    }
  }
}
