/** app/api/ipfs/metadata/route.ts: an administrator previews the badge metadata for
    given fields, without pinning anything. */
module MetadataRoute {
  import opened Wrappers
  import opened Strings
  import opened Platform
  import opened Ledger
  import opened Pinata
  import opened NftGenerator
  import opened Http
  import Auth
  import ClaimRoute

  /** The request body; each field may be absent. */
  datatype PreviewInput = PreviewInput(
    eventName: Option<string>,
    eventDate: Option<string>,
    eventLocation: Option<string>,
    userName: Option<string>,
    userEmail: Option<string>,
    tokenId: Option<string>,
    eventImageUrl: Option<string>)

  const GenerateFailed := "Failed to generate metadata"

  predicate HasRequiredFields(body: PreviewInput) {
    && Truthy(body.eventName) && Truthy(body.eventDate) && Truthy(body.userName)
    && Truthy(body.userEmail) && Truthy(body.tokenId)
  }

  /** The generator's parameters for a complete body: the date string parsed, the
      optional fields normalised with `|| null`. */
  function PreviewParams(body: PreviewInput, rt: Runtime): (p: GenerateParams)
    requires HasRequiredFields(body)
    ensures p.eventName == body.eventName.value && p.eventDate == rt.parseDate(body.eventDate.value)
    ensures p.userName == body.userName.value && p.userEmail == body.userEmail.value
    ensures p.tokenId == body.tokenId.value
    ensures p.eventLocation == OrNull(body.eventLocation) && p.eventImageUrl == OrNull(body.eventImageUrl)
  {
    GenerateParams(body.eventName.value, rt.parseDate(body.eventDate.value), OrNull(body.eventLocation),
                   body.userName.value, body.userEmail.value, body.tokenId.value, OrNull(body.eventImageUrl))
  }

  /** The response for the admin gate's outcome `gate`. An Invalid Date makes the
      generator throw, which the handler's `catch` reports as its 500. */
  function PreviewResponse(gate: Result<User, string>, body: PreviewInput, appUrl: Option<string>, rt: Runtime)
    : (r: Response<NftMetadata>)
    ensures gate.Err? ==> r == Err(AdminRouteError(gate.error, GenerateFailed))
    ensures gate.Ok? ==> (r.Ok? <==> HasRequiredFields(body) && rt.parseDate(body.eventDate.value).Date?)
    ensures gate.Ok? && !HasRequiredFields(body) ==> r == Err(Rejection(400, "Missing required fields"))
    ensures gate.Ok? && HasRequiredFields(body) && rt.parseDate(body.eventDate.value).InvalidDate? ==>
      r == Err(Rejection(500, GenerateFailed))
    ensures r.Ok? ==> r == Ok(GenerateNftMetadata(PreviewParams(body, rt), appUrl, rt).value)
  {
    if gate.Err? then Err(AdminRouteError(gate.error, GenerateFailed))
    else if !HasRequiredFields(body) then Err(Rejection(400, "Missing required fields"))
    else
      match GenerateNftMetadata(PreviewParams(body, rt), appUrl, rt)
      case Err(message) => Err(AdminRouteError(message, GenerateFailed))
      case Ok(metadata) => Ok(metadata)
  }

  /** The `|| null` normalisation changes nothing in the document: the generator already
      treats an empty location or image like a missing one. */
  lemma NormalisationIsInvisible(body: PreviewInput, appUrl: Option<string>, rt: Runtime)
    requires HasRequiredFields(body)
    ensures var p := PreviewParams(body, rt);
      GenerateNftMetadata(p, appUrl, rt)
        == GenerateNftMetadata(p.(eventLocation := body.eventLocation, eventImageUrl := body.eventImageUrl), appUrl, rt)
  {
  }

  /** The preview of a claim's fields is the document that claim uploads, provided the
      stored date survives the ISO round trip and the event's optional fields are already
      normalised, as the event route stores them. */
  lemma PreviewMatchesClaim(admin: User, e: Event, user: User, tokenId: string, appUrl: Option<string>, rt: Runtime)
    requires e.name != "" && user.email != "" && tokenId != ""
    requires BeforeFirst(user.email, '@') != ""
    requires e.date.Date? && rt.toISOString(e.date) != "" && rt.parseDate(rt.toISOString(e.date)) == e.date
    requires e.location == OrNull(e.location) && e.imageUrl == OrNull(e.imageUrl)
    ensures var body := PreviewInput(Some(e.name), Some(rt.toISOString(e.date)), e.location,
                                     Some(BeforeFirst(user.email, '@')), Some(user.email), Some(tokenId), e.imageUrl);
      PreviewResponse(Ok(admin), body, appUrl, rt) ==
        Ok(GenerateNftMetadata(ClaimRoute.BadgeParams(e, user, tokenId), appUrl, rt).value)
  {
    var body := PreviewInput(Some(e.name), Some(rt.toISOString(e.date)), e.location,
                             Some(BeforeFirst(user.email, '@')), Some(user.email), Some(tokenId), e.imageUrl);
    assert PreviewParams(body, rt) == ClaimRoute.BadgeParams(e, user, tokenId);
  }

  /** A date the runtime cannot parse, such as "tomorrow", gives the 500 even for an
      admin and an otherwise complete body. */
  lemma UnparseableDateIs500(admin: User, body: PreviewInput, appUrl: Option<string>, rt: Runtime)
    requires HasRequiredFields(body) && rt.parseDate(body.eventDate.value).InvalidDate?
    ensures PreviewResponse(Ok(admin), body, appUrl, rt) == Err(Rejection(500, GenerateFailed))
  {
    assert |InvalidTimeValue| != |Auth.ForbiddenMessage|;
  }

  /** `POST`. */
  method Post(db: Database, didToken: Option<string>, v: Auth.Validation, newUserId: string,
              body: PreviewInput, appUrl: Option<string>, rt: Runtime)
    returns (resp: Response<NftMetadata>)
    requires db.Valid()
    modifies db
    ensures db.Valid()
    ensures db.users == Auth.CurrentUser(old(db.users), didToken, v, newUserId).users
    ensures db.events == old(db.events) && db.nfts == old(db.nfts)
    ensures resp == PreviewResponse(Auth.AdminGate(Auth.CurrentUser(old(db.users), didToken, v, newUserId).user),
                                    body, appUrl, rt)
  {
    var gate := Auth.RequireAdmin(db, didToken, v, newUserId);
    resp := PreviewResponse(gate, body, appUrl, rt);
  }
}
