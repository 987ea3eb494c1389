/**
 * The early-return checks of the venue-insights endpoint (route.ts, lines
 * 34-66): sign-in, the `verified_business` role, and the venue id.
 */
module Gate {
  import opened Inputs
  import opened Outcomes

  const BusinessRole := "verified_business"

  /** A query the endpoint sends to a table, in the order it sends them. */
  datatype Query = ProfileQuery(userId: string) | ConnectionsQuery(venueId: string)

  /** Either the reply the checks end with and the queries made so far, or the caller and venue to report on. */
  datatype Admission =
    | Refused(outcome: Outcome, queries: seq<Query>)
    | Admitted(user: User, venueId: string)

  /** The user, when `getUser` reported no error and returned one. */
  function SignedIn(auth: AuthReply): Option<User> {
    if auth.failed || auth.user.None? then None else auth.user
  }

  /** The profile lookup succeeded and its role is exactly `verified_business`. */
  predicate Privileged(p: ProfileReply) {
    !p.failed && p.role == Some(BusinessRole)
  }

  /**
   * The venue id: a non-empty `venue_id` parameter wins; otherwise the
   * user's metadata is used, and it too must be non-empty.
   */
  function ResolveVenue(param: Option<string>, metadata: Option<string>): (v: Option<string>)
    ensures Truthy(param) ==> v == param
    ensures !Truthy(param) && Truthy(metadata) ==> v == metadata
    ensures v.None? <==> !Truthy(param) && !Truthy(metadata)
    ensures v.Some? ==> v.value != ""
  {
    var venueId := if Truthy(param) then param else metadata;
    if Truthy(venueId) then venueId else None
  }

  /**
   * The checks in source order, each stopping at the first failure. No
   * refusal has queried the connections table, and an admitted request is
   * signed in, privileged and has a non-empty venue id.
   */
  function Admit(req: Request, auth: AuthReply, profileOf: string -> ProfileReply): (a: Admission)
    ensures a.Refused? ==> a.outcome.Unauthorized? || a.outcome.Forbidden? || a.outcome.BadRequest?
    ensures a.Refused? ==> forall i :: 0 <= i < |a.queries| ==> a.queries[i].ProfileQuery?
    ensures a.Admitted? ==>
      && SignedIn(auth) == Some(a.user)
      && Privileged(profileOf(a.user.id))
      && a.venueId != ""
      && ResolveVenue(req.venueParam, a.user.venueMetadata) == Some(a.venueId)
  {
    match SignedIn(auth)
    case None => Refused(Unauthorized, [])
    case Some(user) =>
      if !Privileged(profileOf(user.id)) then Refused(Forbidden, [ProfileQuery(user.id)])
      else
        match ResolveVenue(req.venueParam, user.venueMetadata)
        case None => Refused(BadRequest, [ProfileQuery(user.id)])
        case Some(venueId) => Admitted(user, venueId)
  }
}
