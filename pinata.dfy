/** lib/pinata.ts: the metadata document shape, the `ipfs://<hash>` URIs the two
    uploads return, and the rewrite of such URIs into gateway URLs. The HTTP calls to
    the pinning service are received as functions from what is pinned to the service's
    answer. */
module Pinata {
  import opened Wrappers
  import opened Strings

  datatype Attribute = Attribute(traitType: string, value: string)

  /** `NFTMetadata`: an ERC-721 style metadata document. */
  datatype NftMetadata = NftMetadata(
    name: string,
    description: string,
    image: string,
    externalUrl: Option<string>,
    attributes: seq<Attribute>)

  /** The pinning service's answer: the content hash, or a failed request. */
  datatype PinResponse = Pinned(ipfsHash: string) | PinFailed

  const IpfsScheme := "ipfs://"
  const DefaultGateway := "https://gateway.pinata.cloud"
  const MetadataUploadError := "Failed to upload metadata to " + "IPFS"
  const ImageUploadError := "Failed to upload image to " + "IPFS"

  /** `ipfs://<hash>`, the URI both uploads return. */
  function IpfsUri(hash: string): (u: string)
    ensures StartsWith(u, IpfsScheme) && u[|IpfsScheme|..] == hash
  {
    IpfsScheme + hash
  }

  /** The configured gateway, or the public one when the setting is unset or empty. */
  function Gateway(configured: Option<string>): (g: string)
    ensures g != ""
    ensures Truthy(configured) ==> g == configured.value
    ensures !Truthy(configured) ==> g == DefaultGateway
  {
    if Truthy(configured) then configured.value else DefaultGateway
  }

  /** `getIPFSGatewayURL`: an `ipfs://` URI becomes `<gateway>/ipfs/<hash>`, where the
      hash is what follows the scheme; any other URI comes back unchanged. */
  function GatewayUrl(configured: Option<string>, ipfsUri: string): (url: string)
    ensures StartsWith(ipfsUri, IpfsScheme) ==>
      url == Gateway(configured) + "/ipfs/" + ipfsUri[|IpfsScheme|..]
    ensures !StartsWith(ipfsUri, IpfsScheme) ==> url == ipfsUri
  {
    if StartsWith(ipfsUri, IpfsScheme) then
      var hash := ReplaceFirst(ipfsUri, IpfsScheme, "");
      Gateway(configured) + "/ipfs/" + hash
    else
      ipfsUri
  }

  /** `uploadMetadataToIPFS`: the pinned document's URI, or the error it throws,
      whose message names IPFS. */
  function UploadMetadataToIpfs(metadata: NftMetadata, pinJson: NftMetadata -> PinResponse): (r: Result<string, string>)
    ensures r.Ok? <==> pinJson(metadata).Pinned?
    ensures r.Ok? ==> r.value == IpfsUri(pinJson(metadata).ipfsHash)
    ensures r.Err? ==> r.error == MetadataUploadError && Contains(r.error, "IPFS")
  {
    ContainsSuffix("Failed to upload metadata to ", "IPFS");
    match pinJson(metadata)
    case Pinned(hash) => Ok(IpfsUri(hash))
    case PinFailed => Err(MetadataUploadError)
  }

  /** `uploadImageToIPFS`: the pinned file's URI, or the error it throws, whose
      message names IPFS. */
  function UploadImageToIpfs(imageBuffer: seq<bv8>, filename: string,
                             pinFile: (seq<bv8>, string) -> PinResponse): (r: Result<string, string>)
    ensures r.Ok? <==> pinFile(imageBuffer, filename).Pinned?
    ensures r.Ok? ==> r.value == IpfsUri(pinFile(imageBuffer, filename).ipfsHash)
    ensures r.Err? ==> r.error == ImageUploadError && Contains(r.error, "IPFS")
  {
    ContainsSuffix("Failed to upload image to ", "IPFS");
    match pinFile(imageBuffer, filename)
    case Pinned(hash) => Ok(IpfsUri(hash))
    case PinFailed => Err(ImageUploadError)
  }

  /** What an upload returns resolves to the gateway path of the pinned hash. */
  lemma GatewayUrlOfIpfsUri(configured: Option<string>, hash: string)
    ensures GatewayUrl(configured, IpfsUri(hash)) == Gateway(configured) + "/ipfs/" + hash
  {
  }

  /** Rewriting an already rewritten URI changes nothing, as long as the gateway URL
      produced does not itself begin with the scheme; that is the case exactly when the
      gateway neither begins with `ipfs://` nor is `ipfs:/`. */
  lemma GatewayUrlIdempotent(configured: Option<string>, uri: string)
    requires !StartsWith(Gateway(configured), IpfsScheme) && Gateway(configured) != "ipfs:/"
    ensures GatewayUrl(configured, GatewayUrl(configured, uri)) == GatewayUrl(configured, uri)
  {
    if StartsWith(uri, IpfsScheme) {
      GatewayPathNotScheme(Gateway(configured), uri[|IpfsScheme|..]);
    }
  }

  /** A gateway path `<g>/ipfs/<hash>` begins with the scheme only when `g` does or
      `g` is `ipfs:/`. */
  lemma GatewayPathNotScheme(g: string, hash: string)
    requires !StartsWith(g, IpfsScheme) && g != "ipfs:/"
    ensures !StartsWith(g + "/ipfs/" + hash, IpfsScheme)
  {
    var url := g + "/ipfs/" + hash;
    if |g| >= |IpfsScheme| {
      assert url[..|IpfsScheme|] == g[..|IpfsScheme|];
    } else if |g| == 6 {
      assert url[..|IpfsScheme|] == g + "/";
      assert (g + "/")[..6] == g;
      assert IpfsScheme[..6] == "ipfs:/";
    } else {
      var i := if |g| == 5 then 6 else |g|;
      assert url[i] != IpfsScheme[i];
    }
  }

  /** The default gateway satisfies the condition, so with no setting the rewrite is
      idempotent. */
  lemma DefaultGatewayIdempotent(uri: string)
    ensures GatewayUrl(None, GatewayUrl(None, uri)) == GatewayUrl(None, uri)
  {
    assert DefaultGateway[0] != IpfsScheme[0];
    GatewayUrlIdempotent(None, uri);
  }

  /** Without the condition the rewrite is not idempotent: with the gateway `ipfs:/`,
      `ipfs://h` becomes `ipfs://ipfs/h`, which is rewritten again. */
  lemma GatewayUrlNotIdempotentForSchemeLikeGateway()
    ensures GatewayUrl(Some("ipfs:/"), GatewayUrl(Some("ipfs:/"), "ipfs://h")) !=
            GatewayUrl(Some("ipfs:/"), "ipfs://h")
  {
    var once := GatewayUrl(Some("ipfs:/"), "ipfs://h");
    assert StartsWith("ipfs://h", IpfsScheme);
    assert once == "ipfs://ipfs/h";
    assert StartsWith(once, IpfsScheme);
  }
}
