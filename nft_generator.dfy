/** lib/nft-generator.ts: the attendance-badge metadata document and its upload. */
module NftGenerator {
  import opened Wrappers
  import opened Strings
  import opened Platform
  import opened Pinata

  /** `GenerateNFTParams`. */
  datatype GenerateParams = GenerateParams(
    eventName: string,
    eventDate: Date,
    eventLocation: Option<string>,
    userName: string,
    userEmail: string,
    tokenId: string,
    eventImageUrl: Option<string>)

  /** What `uploadNFTToIPFS` returns. */
  datatype Uploaded = Uploaded(metadataUri: string, imageUrl: string)

  const DefaultAppUrl := "https://nft-attendance.vercel.app"
  const PlaceholderPath := "/placeholder.svg?height=500&width=500&query="

  /** `external_url`: the configured application URL, or the default one when the
      setting is unset or empty. */
  function ExternalUrl(appUrl: Option<string>): (u: string)
    ensures u != ""
    ensures Truthy(appUrl) ==> u == appUrl.value
    ensures !Truthy(appUrl) ==> u == DefaultAppUrl
  {
    if Truthy(appUrl) then appUrl.value else DefaultAppUrl
  }

  /** The placeholder image used when the event has none: the placeholder path queried
      with the encoded text `<event name> NFT Badge`. */
  function PlaceholderImage(eventName: string, rt: Runtime): (url: string)
    ensures StartsWith(url, PlaceholderPath)
    ensures url[|PlaceholderPath|..] == rt.encodeURIComponent(eventName + " NFT Badge")
  {
    PlaceholderPath + rt.encodeURIComponent(eventName + " NFT Badge")
  }

  /** The sentence naming the event and its locale date, common to every description. */
  function AttendanceSentence(p: GenerateParams, rt: Runtime): string {
    "This NFT certifies attendance at " + p.eventName + " on " + rt.toLocaleDateString(p.eventDate) + ". "
  }

  /** `generateNFTMetadata`. The five fixed attributes are built first and the Location
      attribute is pushed onto them only for a truthy location. Building the Date
      attribute throws for an Invalid Date. */
  function GenerateNftMetadata(p: GenerateParams, appUrl: Option<string>, rt: Runtime): (r: Result<NftMetadata, string>)
    ensures r.Err? <==> p.eventDate.InvalidDate?
    ensures r.Err? ==> r.error == InvalidTimeValue
    ensures r.Ok? ==>
      var m := r.value;
      && m.name == p.eventName + " - Attendance Badge"
      && (Truthy(p.eventImageUrl) ==> m.image == p.eventImageUrl.value)
      && (!Truthy(p.eventImageUrl) ==> m.image == PlaceholderImage(p.eventName, rt))
      && m.externalUrl == Some(ExternalUrl(appUrl))
      && |m.attributes| == (if Truthy(p.eventLocation) then 6 else 5)
      && m.attributes[..5] == [
           Attribute("Event", p.eventName),
           Attribute("Date", rt.toISOString(p.eventDate)),
           Attribute("Attendee", p.userName),
           Attribute("Email", p.userEmail),
           Attribute("Token ID", p.tokenId)]
      && (Truthy(p.eventLocation) <==> m.attributes[|m.attributes| - 1].traitType == "Location")
      && (Truthy(p.eventLocation) ==>
            m.attributes[5] == Attribute("Location", p.eventLocation.value) &&
            m.description == AttendanceSentence(p, rt) + "Location: " + p.eventLocation.value)
      && (!Truthy(p.eventLocation) ==> m.description == AttendanceSentence(p, rt))
  {
    if p.eventDate.InvalidDate? then Err(InvalidTimeValue)
    else
      var imageUrl := if Truthy(p.eventImageUrl) then p.eventImageUrl.value else PlaceholderImage(p.eventName, rt);
      var locationSentence := if Truthy(p.eventLocation) then "Location: " + p.eventLocation.value else "";
      var attributes := [
        Attribute("Event", p.eventName),
        Attribute("Date", rt.toISOString(p.eventDate)),
        Attribute("Attendee", p.userName),
        Attribute("Email", p.userEmail),
        Attribute("Token ID", p.tokenId)];
      var metadata := NftMetadata(
        p.eventName + " - Attendance Badge",
        AttendanceSentence(p, rt) + locationSentence,
        imageUrl,
        Some(ExternalUrl(appUrl)),
        attributes);
      if Truthy(p.eventLocation) then
        Ok(metadata.(attributes := metadata.attributes + [Attribute("Location", p.eventLocation.value)]))
      else
        Ok(metadata)
  }

  /** A location changes the document only by the Location sentence and the Location
      attribute appended after the five fixed ones. */
  lemma LocationOnlyAppends(p: GenerateParams, appUrl: Option<string>, rt: Runtime)
    requires Truthy(p.eventLocation)
    ensures var withLocation := GenerateNftMetadata(p, appUrl, rt);
      var withoutLocation := GenerateNftMetadata(p.(eventLocation := None), appUrl, rt);
      withLocation.Err? <==> withoutLocation.Err?
    ensures GenerateNftMetadata(p, appUrl, rt).Ok? ==>
      var with := GenerateNftMetadata(p, appUrl, rt).value;
      var without := GenerateNftMetadata(p.(eventLocation := None), appUrl, rt).value;
      && with.attributes == without.attributes + [Attribute("Location", p.eventLocation.value)]
      && with.description == without.description + "Location: " + p.eventLocation.value
      && with.(attributes := [], description := "") == without.(attributes := [], description := "")
  {
  }

  /** The document depends on the environment only through the resolved external URL:
      an unset and an empty setting give the same document. */
  lemma OnlyExternalUrlSettingMatters(p: GenerateParams, a1: Option<string>, a2: Option<string>, rt: Runtime)
    requires ExternalUrl(a1) == ExternalUrl(a2)
    ensures GenerateNftMetadata(p, a1, rt) == GenerateNftMetadata(p, a2, rt)
  {
  }

  /** `uploadNFTToIPFS`: the document is generated, pinned, and its image rewritten to a
      gateway URL. Generation fails only for an Invalid Date; otherwise a pinning failure
      is the upload's error. */
  function UploadNftToIpfs(p: GenerateParams, appUrl: Option<string>, gateway: Option<string>, rt: Runtime,
                           pinJson: NftMetadata -> PinResponse): (r: Result<Uploaded, string>)
    ensures p.eventDate.InvalidDate? ==> r == Err(InvalidTimeValue)
    ensures p.eventDate.Date? ==>
      var m := GenerateNftMetadata(p, appUrl, rt).value;
      && (r.Ok? <==> pinJson(m).Pinned?)
      && (r.Ok? ==> r.value.metadataUri == IpfsUri(pinJson(m).ipfsHash))
      && (r.Ok? ==> r.value.imageUrl == GatewayUrl(gateway, m.image))
      && (r.Err? ==> Contains(r.error, "IPFS"))
  {
    match GenerateNftMetadata(p, appUrl, rt)
    case Err(e) => Err(e)
    case Ok(metadata) =>
      match UploadMetadataToIpfs(metadata, pinJson)
      case Err(e) => Err(e)
      case Ok(metadataUri) => Ok(Uploaded(metadataUri, GatewayUrl(gateway, metadata.image)))
  }

  /** The placeholder image is not an `ipfs://` URI, so its image URL passes through the
      gateway rewrite unchanged; an event image pinned as `ipfs://<hash>` is served from
      the gateway. */
  lemma UploadedImageUrl(p: GenerateParams, appUrl: Option<string>, gateway: Option<string>, rt: Runtime,
                         pinJson: NftMetadata -> PinResponse)
    requires UploadNftToIpfs(p, appUrl, gateway, rt, pinJson).Ok?
    ensures var up := UploadNftToIpfs(p, appUrl, gateway, rt, pinJson).value;
      && (!Truthy(p.eventImageUrl) ==> up.imageUrl == PlaceholderImage(p.eventName, rt))
      && (forall h :: p.eventImageUrl == Some(IpfsUri(h)) ==> up.imageUrl == Gateway(gateway) + "/ipfs/" + h)
  {
    var m := GenerateNftMetadata(p, appUrl, rt).value;
    if !Truthy(p.eventImageUrl) {
      assert m.image[0] == PlaceholderPath[0] == '/';
      assert !StartsWith(m.image, IpfsScheme);
    }
  }
}
