/** app/api/nft/claim/route.ts: redeeming a claim code for an attendance NFT.

    The handler authenticates the caller (upserting the user), runs its checks in the
    order empty code, unknown code, inactive event, supply reached, already claimed,
    builds the token id from the event's code and an 8-character random suffix, uploads
    the badge metadata, mints on chain when the user has a wallet (a failed mint is
    swallowed), and only then inserts the record. The random suffix, the pinning
    service's and the minter's answers are inputs. Calls are sequential: the checks and
    the insert are not atomic in the source. */
module ClaimRoute {
  import opened Wrappers
  import opened Strings
  import opened Platform
  import opened Ledger
  import opened Pinata
  import opened NftGenerator
  import opened Http
  import Auth

  /** The random 8-character suffix of a token id. */
  type NanoId = s: string | |s| == 8 witness "00000000"

  /** The minter's answer for a (wallet address, metadata URI) pair. */
  datatype MintOutcome = Minted(txHash: string) | MintFailed

  /** The `nft` object of the success response. */
  datatype ClaimedNft = ClaimedNft(
    tokenId: string,
    metadataUri: string,
    imageUrl: string,
    eventName: string,
    eventDate: Date)

  /** How the claim body ends when it does not succeed: an early error response, or an
      error thrown to the handler's `catch`. */
  datatype Failure = Rejected(rejection: Rejection) | Threw(message: string)

  const CodeRequired := Rejection(400, "Claim code is required")
  const InvalidCode := Rejection(404, "Invalid claim code")
  const EventInactive := Rejection(400, "This event is no longer active")
  const SupplyExhausted := Rejection(400, "Maximum supply reached for this event")
  const AlreadyClaimed := Rejection(400, "You have already claimed this NFT")
  const UploadFailedMessage := "Failed to upload to IPFS. Please try again."
  /** A stand-in for the message of the error the NFT insert throws on a duplicate token
      id. Only one fact about it matters to the handler: it does not contain "IPFS". */
  const TokenIdConflictMessage := "Unique const" + "raint failed" + " on the fiel" + "ds: (`tokenI" + "d`)"

  /** The validation chain, in the handler's order. The code is upper-cased before the
      lookup; a null or 0 `maxSupply` means no cap. */
  function CheckClaim(userId: string, claimCode: Option<string>, events: map<string, Event>,
                      nfts: seq<Nft>): (r: Result<Event, Rejection>)
    ensures r.Ok? <==>
      && Truthy(claimCode) && ToUpper(claimCode.value) in events
      && var e := events[ToUpper(claimCode.value)];
         e.isActive && !SupplyReached(e, ClaimCount(nfts, e.id)) && !HasClaimed(nfts, userId, e.id)
    ensures r.Ok? ==> r.value == events[ToUpper(claimCode.value)]
    ensures !Truthy(claimCode) ==> r == Err(CodeRequired)
    ensures Truthy(claimCode) && ToUpper(claimCode.value) !in events ==> r == Err(InvalidCode)
    ensures Truthy(claimCode) && ToUpper(claimCode.value) in events ==>
      var e := events[ToUpper(claimCode.value)];
      && (!e.isActive ==> r == Err(EventInactive))
      && (e.isActive && SupplyReached(e, ClaimCount(nfts, e.id)) ==> r == Err(SupplyExhausted))
      && (e.isActive && !SupplyReached(e, ClaimCount(nfts, e.id)) && HasClaimed(nfts, userId, e.id) ==>
            r == Err(AlreadyClaimed))
  {
    if !Truthy(claimCode) then Err(CodeRequired)
    else
      var code := ToUpper(claimCode.value);
      if code !in events then Err(InvalidCode)
      else
        var e := events[code];
        if !e.isActive then Err(EventInactive)
        else if SupplyReached(e, ClaimCount(nfts, e.id)) then Err(SupplyExhausted)
        else if HasClaimed(nfts, userId, e.id) then Err(AlreadyClaimed)
        else Ok(e)
  }

  /** The case variants of a code are one code: they get the same answer. */
  lemma CaseVariantsAgree(userId: string, a: string, b: string, events: map<string, Event>, nfts: seq<Nft>)
    requires ToUpper(a) == ToUpper(b)
    ensures CheckClaim(userId, Some(a), events, nfts) == CheckClaim(userId, Some(b), events, nfts)
  {
  }

  /** "ABC123", "abc123" and "AbC123" look up the same event. */
  lemma ConcreteCaseVariants()
    ensures ToUpper("abc123") == "ABC123" && ToUpper("AbC123") == "ABC123" && ToUpper("ABC123") == "ABC123"
  {
    assert ToUpper("abc123") == [UpperChar('a')] + ToUpper("bc123");
  }

  /** An event capped at two claims, claimed by A then B: a third attendee C is refused
      for supply, and so is A claiming again, because the supply check comes before the
      duplicate check; after A's claim alone, A's second attempt is the duplicate. */
  lemma SupplyCheckPrecedesDuplicateCheck()
    ensures var e := Event("ev", "Conf", None, Date(0), None, "CONF24", true, Some(2), None);
      var events := map["CONF24" := e];
      var a := Nft("CONF24-aaaaaaaa", "A", "ev", "ipfs://a", "/a.png", None);
      var b := Nft("CONF24-bbbbbbbb", "B", "ev", "ipfs://b", "/b.png", None);
      && CheckClaim("C", Some("CONF24"), events, [a, b]) == Err(SupplyExhausted)
      && CheckClaim("A", Some("CONF24"), events, [a, b]) == Err(SupplyExhausted)
      && CheckClaim("A", Some("CONF24"), events, [a]) == Err(AlreadyClaimed)
      && CheckClaim("B", Some("CONF24"), events, [a]) == Ok(e)
  {
    var up := ToUpper("CONF24");
    assert up[0] == 'C' && up[1] == 'O' && up[2] == 'N' && up[3] == 'F' && up[4] == '2' && up[5] == '4';
    assert up == "CONF24";
    var a := Nft("CONF24-aaaaaaaa", "A", "ev", "ipfs://a", "/a.png", None);
    var b := Nft("CONF24-bbbbbbbb", "B", "ev", "ipfs://b", "/b.png", None);
    assert [a, b][1..] == [b] && [b][1..] == [] && [a][1..] == [];
    assert ClaimCount([a, b], "ev") == 2;
    assert ClaimCount([a], "ev") == 1;
    assert [a][0].userId == "A";
    assert "B"[0] != "A"[0];
  }

  /** The token id: the event's stored code, a dash, then the random suffix. */
  function TokenIdFor(claimCode: string, suffix: NanoId): (t: string)
    ensures StartsWith(t, claimCode + "-")
    ensures |t| == |claimCode| + 9 && t[|claimCode| + 1..] == suffix
  {
    claimCode + "-" + suffix
  }

  /** The generator's parameters for a claim: the event's fields, the user's email and
      its part before the first "@" as the attendee name. */
  function BadgeParams(e: Event, user: User, tokenId: string): (p: GenerateParams)
    ensures p.userName == BeforeFirst(user.email, '@') && p.userEmail == user.email
    ensures p.tokenId == tokenId && p.eventName == e.name && p.eventDate == e.date
    ensures p.eventLocation == e.location && p.eventImageUrl == e.imageUrl
  {
    GenerateParams(e.name, e.date, e.location, BeforeFirst(user.email, '@'), user.email, tokenId, e.imageUrl)
  }

  /** The metadata upload for a claim of `e` by `user`. */
  function BadgeUpload(e: Event, user: User, suffix: NanoId, env: Environment, rt: Runtime,
                       pinJson: NftMetadata -> PinResponse): Result<Uploaded, string>
  {
    UploadNftToIpfs(BadgeParams(e, user, TokenIdFor(e.claimCode, suffix)), env.appUrl, env.pinataGateway, rt, pinJson)
  }

  /** The transaction hash the claim records: the mint is attempted only for a user with
      a wallet address, and a failed mint leaves it null. */
  function MintTx(user: User, metadataUri: string, mintNft: (string, string) -> MintOutcome): (tx: Option<string>)
    ensures tx.Some? <==> Truthy(user.walletAddress) && mintNft(user.walletAddress.value, metadataUri).Minted?
    ensures tx.Some? ==> tx.value == mintNft(user.walletAddress.value, metadataUri).txHash
  {
    if Truthy(user.walletAddress) then
      match mintNft(user.walletAddress.value, metadataUri)
      case Minted(h) => Some(h)
      case MintFailed => None
    else None
  }

  /** The handler's `catch`: "Unauthorized" is 401, a message naming IPFS is the upload
      failure 500, anything else the generic 500. */
  function ClaimErrorResponse(message: string): (r: Rejection)
    ensures message == Auth.UnauthorizedMessage ==> r == Rejection(401, "Authentication required")
    ensures message != Auth.UnauthorizedMessage && Contains(message, "IPFS") ==> r == Rejection(500, UploadFailedMessage)
    ensures message != Auth.UnauthorizedMessage && !Contains(message, "IPFS") ==> r == Rejection(500, "Failed to claim NFT")
  {
    if message == Auth.UnauthorizedMessage then Rejection(401, "Authentication required")
    else if Contains(message, "IPFS") then Rejection(500, UploadFailedMessage)
    else Rejection(500, "Failed to claim NFT")
  }

  /** A duplicate token id surfaces as the generic 500: its message does not name IPFS. */
  lemma TokenIdConflictIsGeneric()
    ensures ClaimErrorResponse(TokenIdConflictMessage) == Rejection(500, "Failed to claim NFT")
  {
    assert 'P' !in "Unique const" && 'P' !in "raint failed" && 'P' !in " on the fiel";
    assert 'P' !in "ds: (`tokenI" && 'P' !in "d`)";
    MissingCharNotContained(TokenIdConflictMessage, "IPFS", 'P');
  }

  /** Every upload failure surfaces as the IPFS 500. */
  lemma UploadFailureIsIpfs500(message: string)
    requires Contains(message, "IPFS")
    ensures ClaimErrorResponse(message) == Rejection(500, UploadFailedMessage)
  {
    MissingCharNotContained(Auth.UnauthorizedMessage, "IPFS", 'I');
  }

  /** The claim body for an authenticated `user`: everything after `requireAuth`.
      `txHash` is also the on-chain effect: a token minted before an insert that then
      throws stays minted with no record. */
  method Claim(db: Database, user: User, claimCode: Option<string>, suffix: NanoId,
               pinJson: NftMetadata -> PinResponse, mintNft: (string, string) -> MintOutcome,
               env: Environment, rt: Runtime)
    returns (out: Result<ClaimedNft, Failure>, txHash: Option<string>)
    requires db.Valid() && db.Sound()
    modifies db
    ensures db.Valid() && db.Sound()
    ensures db.users == old(db.users) && db.events == old(db.events)
    ensures var check := CheckClaim(user.id, claimCode, old(db.events), old(db.nfts));
      check.Err? ==> out == Err(Rejected(check.error)) && txHash.None? && db.nfts == old(db.nfts)
    ensures var check := CheckClaim(user.id, claimCode, old(db.events), old(db.nfts));
      check.Ok? ==>
        var e := check.value;
        var tokenId := TokenIdFor(e.claimCode, suffix);
        var up := BadgeUpload(e, user, suffix, env, rt, pinJson);
        && (up.Err? ==> out == Err(Threw(up.error)) && txHash.None? && db.nfts == old(db.nfts))
        && (up.Ok? ==> txHash == MintTx(user, up.value.metadataUri, mintNft))
        && (up.Ok? && tokenId in TokenIds(old(db.nfts)) ==>
              out == Err(Threw(TokenIdConflictMessage)) && db.nfts == old(db.nfts))
        && (up.Ok? && tokenId !in TokenIds(old(db.nfts)) ==>
              && db.nfts == old(db.nfts) + [Nft(tokenId, user.id, e.id, up.value.metadataUri, up.value.imageUrl, txHash)]
              && out == Ok(ClaimedNft(tokenId, up.value.metadataUri, up.value.imageUrl, e.name, e.date)))
  {
    txHash := None;
    var check := CheckClaim(user.id, claimCode, db.events, db.nfts);
    if check.Err? {
      out := Err(Rejected(check.error));
      return;
    }
    var event := check.value;
    var tokenId := TokenIdFor(event.claimCode, suffix);
    var uploaded := BadgeUpload(event, user, suffix, env, rt, pinJson);
    if uploaded.Err? {
      out := Err(Threw(uploaded.error));
      return;
    }
    var metadataUri, imageUrl := uploaded.value.metadataUri, uploaded.value.imageUrl;
    if Truthy(user.walletAddress) {
      var minted := mintNft(user.walletAddress.value, metadataUri);
      if minted.Minted? {
        txHash := Some(minted.txHash);
      }
      // a failed mint is logged and the record is still created
    }
    var nft := Nft(tokenId, user.id, event.id, metadataUri, imageUrl, txHash);
    AcceptedClaimKeepsSound(db.events, db.nfts, ToUpper(claimCode.value), nft);
    var inserted := db.CreateNft(nft);
    if !inserted {
      out := Err(Threw(TokenIdConflictMessage));
      return;
    }
    out := Ok(ClaimedNft(tokenId, metadataUri, imageUrl, event.name, event.date));
  }

  /** `POST`: authentication, then the claim body, with thrown errors mapped by the
      handler's `catch`. */
  method Post(db: Database, didToken: Option<string>, v: Auth.Validation, newUserId: string,
              claimCode: Option<string>, suffix: NanoId,
              pinJson: NftMetadata -> PinResponse, mintNft: (string, string) -> MintOutcome,
              env: Environment, rt: Runtime)
    returns (resp: Response<ClaimedNft>, txHash: Option<string>)
    requires db.Valid() && db.Sound()
    modifies db
    ensures db.Valid() && db.Sound()
    ensures db.users == Auth.CurrentUser(old(db.users), didToken, v, newUserId).users
    ensures db.events == old(db.events)
    ensures var user := Auth.CurrentUser(old(db.users), didToken, v, newUserId).user;
      user.None? ==> resp == Err(Rejection(401, "Authentication required")) && txHash.None? && db.nfts == old(db.nfts)
    ensures var user := Auth.CurrentUser(old(db.users), didToken, v, newUserId).user;
      user.Some? ==>
        var check := CheckClaim(user.value.id, claimCode, old(db.events), old(db.nfts));
        check.Err? ==> resp == Err(check.error) && txHash.None? && db.nfts == old(db.nfts)
    ensures var user := Auth.CurrentUser(old(db.users), didToken, v, newUserId).user;
      user.Some? && CheckClaim(user.value.id, claimCode, old(db.events), old(db.nfts)).Ok? ==>
        var e := CheckClaim(user.value.id, claimCode, old(db.events), old(db.nfts)).value;
        var tokenId := TokenIdFor(e.claimCode, suffix);
        var up := BadgeUpload(e, user.value, suffix, env, rt, pinJson);
        && (up.Err? ==> resp == Err(Rejection(500, UploadFailedMessage)) && txHash.None? && db.nfts == old(db.nfts))
        && (up.Ok? ==> txHash == MintTx(user.value, up.value.metadataUri, mintNft))
        && (up.Ok? && tokenId in TokenIds(old(db.nfts)) ==>
              resp == Err(Rejection(500, "Failed to claim NFT")) && db.nfts == old(db.nfts))
        && (up.Ok? && tokenId !in TokenIds(old(db.nfts)) ==>
              && db.nfts == old(db.nfts) + [Nft(tokenId, user.value.id, e.id, up.value.metadataUri, up.value.imageUrl, txHash)]
              && resp == Ok(ClaimedNft(tokenId, up.value.metadataUri, up.value.imageUrl, e.name, e.date)))
  {
    var auth := Auth.RequireAuth(db, didToken, v, newUserId);
    if auth.Err? {
      resp, txHash := Err(ClaimErrorResponse(auth.error)), None;
      return;
    }
    var out;
    out, txHash := Claim(db, auth.value, claimCode, suffix, pinJson, mintNft, env, rt);
    match out
    case Ok(nft) =>
      resp := Ok(nft);
    case Err(Rejected(r)) =>
      resp := Err(r);
    case Err(Threw(message)) =>
      if message == TokenIdConflictMessage {
        TokenIdConflictIsGeneric();
      } else {
        UploadFailureIsIpfs500(message);
      }
      resp := Err(ClaimErrorResponse(message));
  }
}
