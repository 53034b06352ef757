# Attendance NFT claims: a Dafny model

This project models the server-side core of an event-attendance NFT application written in
TypeScript on Next.js with Prisma. An administrator creates an event with a claim code. An
attendee signs in and redeems the code. The server then checks the code and the event,
builds an attendance-badge metadata document, pins it to IPFS, mints a token when the
attendee has a wallet, and records the claim. The model also covers the page guard, the
authentication gates and the administrator's metadata preview.

Modules follow the source files:

- `Ledger` holds the three database tables the core touches. They are the `Database`
  class, whose fields `users`, `events` and `nfts` are updated in place.
  - `Valid()` states the constraints the database is assumed to enforce. The schema is
    not part of this model, so these are assumptions: unique email, claim code, token id
    and primary keys, claims that reference existing events, and no Invalid Date in a
    date column. The `findUnique` lookups on the claim code and the token id support the
    two unique columns. A new user's non-admin role and a new event's `isActive = true`
    are likewise assumed column defaults.
  - `Sound()` states what the application keeps: stored codes are upper case, there is at
    most one claim per (user, event), and no capped event is claimed beyond its cap.
- `Auth`, `ClaimRoute`, `AdminEvents` and `MetadataRoute` are the handlers. They are
  methods over a `Database`, proved against pure functions of the request and the old
  state.
- `NftGenerator`, `Pinata` and `Middleware` are pure functions.
- `Strings` holds the JavaScript string operations and truthiness rules the source relies
  on. `Platform` holds the runtime functions the model treats as opaque.

Inputs the model receives rather than computes:

- the session token and the identity provider's validation result;
- the generated primary keys and the 8-character `nanoid` suffix;
- the pinning service's answer;
- the minter's answer;
- the `/api/auth/me` outcome in the page guard;
- `toLocaleDateString`, `toISOString`, `encodeURIComponent` and `new Date(string)`, as
  functions in `Platform.Runtime`;
- the environment settings `NEXT_PUBLIC_APP_URL` and `NEXT_PUBLIC_PINATA_GATEWAY`.

Three facts about the code's order and atomicity:

- The token is minted (`app/api/nft/claim/route.ts:67-78`) before the claim record is
  inserted (line 81). So `ClaimRoute.Claim` can report a minted transaction even when
  the insert then fails.
- The checks and the insert are separate steps with no transaction, so the model is
  sequential.
- The supply check (lines 36-38) runs before the duplicate check (lines 41-50). So
  once an event's cap is full, a user who already holds a claim and tries again is
  refused with "Maximum supply reached for this event", not "You have already claimed
  this NFT" (`ClaimRoute.SupplyCheckPrecedesDuplicateCheck`).

## Model

| member | source | states |
|---|---|---|
| Strings.ReplaceFirst | lib/pinata.ts:71 | `replace` on a string pattern: a pattern that does not occur leaves the string unchanged, and a leading occurrence is replaced by the replacement |
| Strings.BeforeFirst | app/api/nft/claim/route.ts:60 | `split("@")[0]`: the result is a prefix of the email, contains no `@`, and is followed by `@` whenever it is shorter than the email |
| Strings.ToUpper | app/api/nft/claim/route.ts:19 | `toUpperCase`: same length, each character upper-cased independently |
| Strings.ToUpperIdempotent | app/api/admin/events/route.ts:31 | an upper-cased code is upper case, so stored codes stay upper case |
| Strings.OrNull | app/api/admin/events/route.ts:28-33 | `x \|\| null`: a truthy string is kept, empty or missing becomes null |
| Strings.NumberOrNull | app/api/admin/events/route.ts:32 | `maxSupply \|\| null`: 0 and missing become null, any other number is kept |
| Ledger.ClaimCount | app/api/nft/claim/route.ts:20-24 | the event's claim count is at most the number of records, and is 0 exactly when no record points at the event |
| Ledger.ClaimCountAppend | app/api/nft/claim/route.ts:81-93 | appending a record adds one to its event's count and leaves every other count unchanged |
| Ledger.UpsertByEmail | lib/auth.ts:24-33 | upsert by email: an existing user keeps id, email and role and gets the wallet only when the address is truthy; a new user gets the fresh id, the email and the default role; fails only on a primary-key collision |
| Ledger.UpsertIdempotent | lib/auth.ts:24-33 | upserting the same email and address twice leaves the table as one upsert does |
| Ledger.AcceptedClaimKeepsSound | app/api/nft/claim/route.ts:36-50 | a record that passes the supply and duplicate checks keeps one claim per (user, event) and every capped event within its cap |
| Ledger.EventIdsAfterInsert | app/api/admin/events/route.ts:25-35 | inserting an event under a free code adds exactly its id to the set of event ids |
| Ledger.NewEventKeepsSound | app/api/admin/events/route.ts:25-35 | inserting an event with a fresh id and an upper-case code keeps the claim invariants |
| Ledger.Database.UpsertUser | lib/auth.ts:24-33 | the `users` table becomes the upsert's table, and the other tables and the constraints are kept |
| Ledger.Database.CreateEvent | app/api/admin/events/route.ts:25-35 | the insert succeeds exactly when the code and the id are free and the date is valid; then one event is added under its code and nothing else changes |
| Ledger.Database.CreateNft | app/api/nft/claim/route.ts:81-93 | the insert succeeds exactly when the token id is free and the event exists; then exactly the record is appended |
| Pinata.IpfsUri | lib/pinata.ts:37-38 | the upload result is `ipfs://` followed by the pinned hash |
| Pinata.Gateway | lib/pinata.ts:68 | the configured gateway when truthy, otherwise `https://gateway.pinata.cloud` |
| Pinata.GatewayUrl | lib/pinata.ts:67-75 | an `ipfs://` URI becomes `<gateway>/ipfs/<rest>`; any other URI is returned unchanged |
| Pinata.UploadMetadataToIpfs | lib/pinata.ts:29-43 | succeeds exactly when pinning succeeds, with `ipfs://<hash>`; otherwise fails with a message containing "IPFS" |
| Pinata.UploadImageToIpfs | lib/pinata.ts:46-64 | succeeds exactly when pinning succeeds, with `ipfs://<hash>`; otherwise fails with a message containing "IPFS" |
| Pinata.GatewayUrlOfIpfsUri | lib/pinata.ts:70-73 | what an upload returns resolves to `<gateway>/ipfs/<hash>` |
| Pinata.GatewayUrlIdempotent | lib/pinata.ts:70-74 | rewriting twice equals rewriting once when the gateway neither starts with `ipfs://` nor is `ipfs:/` |
| Pinata.GatewayPathNotScheme | lib/pinata.ts:72 | a gateway path begins with `ipfs://` only when its gateway does or is `ipfs:/` |
| Pinata.DefaultGatewayIdempotent | lib/pinata.ts:68-74 | with no gateway setting the rewrite is idempotent |
| Pinata.GatewayUrlNotIdempotentForSchemeLikeGateway | lib/pinata.ts:70-74 | with the gateway `ipfs:/` the rewrite is not idempotent |
| NftGenerator.ExternalUrl | lib/nft-generator.ts:28 | the configured application URL when truthy, otherwise the default one |
| NftGenerator.PlaceholderImage | lib/nft-generator.ts:18-19 | the placeholder path followed by the encoded `<event name> NFT Badge` |
| NftGenerator.GenerateNftMetadata | lib/nft-generator.ts:14-61 | fails with "Invalid time value" exactly for an Invalid Date; otherwise name `<event> - Attendance Badge`; image is the event image when truthy, else the placeholder; the five fixed attributes in order; a last Location attribute and a Location sentence exactly when the location is truthy; 6 attributes with a location, 5 without |
| NftGenerator.LocationOnlyAppends | lib/nft-generator.ts:53-58 | a location does not change whether generation fails, and changes the document only by the appended attribute and the description suffix |
| NftGenerator.OnlyExternalUrlSettingMatters | lib/nft-generator.ts:14-28 | the document depends on the environment only through the resolved external URL |
| NftGenerator.UploadNftToIpfs | lib/nft-generator.ts:64-77 | an Invalid Date fails with the generator's error before anything is pinned; for a valid date it succeeds exactly when pinning succeeds; `metadataUri` is the pinned URI and `imageUrl` the gateway rewrite of the document's image; a failure names IPFS |
| NftGenerator.UploadedImageUrl | lib/nft-generator.ts:64-77 | without an event image the placeholder passes the rewrite unchanged; an `ipfs://<h>` event image is served from the gateway |
| Auth.CurrentUser | lib/auth.ts:8-40 | no user exactly when the token is missing, validation fails, the email is missing or the upsert fails; otherwise the upsert's user, whose email is the validated one |
| Auth.AuthGate | lib/auth.ts:49-55 | fails with "Unauthorized" exactly when there is no user, otherwise returns that user |
| Auth.AdminGate | lib/auth.ts:58-64 | "Unauthorized" when there is no user, "Forbidden: Admin access required" for a non-admin, otherwise the admin user |
| Auth.IsAdminUser | lib/auth.ts:43-46 | true exactly when there is a user whose role is admin |
| Auth.GatesAgree | lib/auth.ts:43-64 | the admin gate passes exactly when `isAdmin` holds, and then agrees with the authentication gate |
| Auth.GetCurrentUser | lib/auth.ts:8-40 | returns `CurrentUser`'s user and leaves its users table; events and claims are unchanged |
| Auth.RequireAuth | lib/auth.ts:49-55 | returns the authentication gate of the current user, with the same state change |
| Auth.RequireAdmin | lib/auth.ts:58-64 | returns the admin gate of the current user, with the same state change |
| Auth.IsAdmin | lib/auth.ts:43-46 | returns whether the current user is an admin, with the same state change |
| Http.AdminRouteError | app/api/admin/events/route.ts:38-44 | the admin-gate refusal becomes 403 "Forbidden", any other error the route's 500 |
| Middleware.SomePrefix | middleware.ts:16-17 | true exactly when some listed route is a prefix of the path |
| Middleware.SomeEqual | middleware.ts:18 | true exactly when the path is one of the listed routes |
| Middleware.Guard | middleware.ts:11-56 | to /login with `redirect=<path>` exactly for a `/dashboard` or `/admin` prefix without a token; to /login for an admin path whose identity check is not OK or throws; to /dashboard for a non-admin role on an admin path or for /login with a token; otherwise through |
| Middleware.AdminRoutesAreProtected | middleware.ts:5-7 | every admin path is a protected path |
| Middleware.PrefixNotSegment | middleware.ts:16-17 | `/adminx` is guarded like `/admin` |
| Middleware.PublicRoutesPassWithoutToken | middleware.ts:18-55 | `/` and `/login` pass without a token; `/login` with a token goes to /dashboard |
| ClaimRoute.CheckClaim | app/api/nft/claim/route.ts:13-50 | accepts exactly a truthy code whose upper-cased form names an active event below its cap that the user has not claimed; otherwise fails, in this order, with 400 code required, 404 invalid code, 400 inactive, 400 supply reached, 400 already claimed |
| ClaimRoute.CaseVariantsAgree | app/api/nft/claim/route.ts:19 | codes equal up to case get the same answer |
| ClaimRoute.ConcreteCaseVariants | app/api/nft/claim/route.ts:19 | `abc123`, `AbC123` and `ABC123` all look up `ABC123` |
| ClaimRoute.SupplyCheckPrecedesDuplicateCheck | app/api/nft/claim/route.ts:36-50 | with a cap of two filled by A and B, C and A again both get the supply refusal; after A alone, A again gets the duplicate refusal and B is accepted |
| ClaimRoute.TokenIdFor | app/api/nft/claim/route.ts:53 | the token id is the event's code, `-`, then the 8-character suffix |
| ClaimRoute.BadgeParams | app/api/nft/claim/route.ts:56-64 | the badge is built from the event's fields, the user's email and the part of the email before the first `@` |
| ClaimRoute.MintTx | app/api/nft/claim/route.ts:67-78 | a transaction hash exactly when the user has a wallet and minting succeeds; null otherwise |
| ClaimRoute.ClaimErrorResponse | app/api/nft/claim/route.ts:108-121 | "Unauthorized" is 401; a message naming IPFS is 500 "Failed to upload to IPFS. Please try again."; anything else is 500 "Failed to claim NFT" |
| ClaimRoute.TokenIdConflictIsGeneric | app/api/nft/claim/route.ts:120 | a duplicate token id on insert ends in the generic 500 |
| ClaimRoute.UploadFailureIsIpfs500 | app/api/nft/claim/route.ts:115-117 | any upload failure ends in the IPFS 500 |
| ClaimRoute.Claim | app/api/nft/claim/route.ts:13-107 | a failed check returns its refusal and changes nothing; a failed upload changes nothing and mints nothing; otherwise the mint hash is `MintTx`, and exactly one record with the token id, user, event, URIs and hash is appended unless the token id is taken; the claim invariants are kept |
| ClaimRoute.Post | app/api/nft/claim/route.ts:8-122 | no current user gives 401 and no claim; otherwise as `Claim`, with thrown errors mapped to their statuses |
| AdminEvents.PrecheckAsWritten | app/api/admin/events/route.ts:12-23 | accepts exactly complete input whose raw code is not a stored key; otherwise 400 missing fields, then 400 code exists |
| AdminEvents.Precheck | app/api/admin/events/route.ts:12-23 | as `PrecheckAsWritten`, with the duplicate lookup on the upper-cased code |
| AdminEvents.NewEvent | app/api/admin/events/route.ts:25-35 | the row has the upper-cased code, is active, has the parsed date, and stores falsy description, location, image and `maxSupply` (including 0) as null |
| AdminEvents.PrechecksAgreeOnUpperCase | app/api/admin/events/route.ts:17-23 | for an upper-case code the raw and normalised prechecks agree |
| AdminEvents.LowerCaseDuplicateSlipsThrough | app/api/admin/events/route.ts:18 | with `ABC` stored, input `abc` passes the raw precheck although its stored code `ABC` is taken |
| AdminEvents.AcceptedCodeIsFree | app/api/admin/events/route.ts:17-31 | a request the corrected precheck accepts never collides on the code |
| AdminEvents.Post | app/api/admin/events/route.ts:5-45 | gate refusals map to 403 or 500 and change nothing; a refusal of the raw-code precheck changes nothing; otherwise 500 with nothing inserted when the upper-cased code or the id is taken or the date is invalid, and else exactly the new event is added under its code; nothing else changes and the claim invariants are kept |
| MetadataRoute.PreviewParams | app/api/ipfs/metadata/route.ts:17-25 | the generator gets the body's fields, the parsed date and the null-coerced location and image |
| MetadataRoute.PreviewResponse | app/api/ipfs/metadata/route.ts:6-35 | the gate refusal maps to 403 or 500; a missing required field gives 400; an unparseable date gives 500 "Failed to generate metadata"; otherwise the response is the generated document |
| MetadataRoute.NormalisationIsInvisible | app/api/ipfs/metadata/route.ts:20-24 | null-coercing the location and image does not change the document |
| MetadataRoute.PreviewMatchesClaim | app/api/ipfs/metadata/route.ts:17-27 | previewing a claim's fields yields the document the claim uploads |
| MetadataRoute.UnparseableDateIs500 | app/api/ipfs/metadata/route.ts:19 | an admin with a complete body whose date does not parse gets 500 "Failed to generate metadata" |
| MetadataRoute.Post | app/api/ipfs/metadata/route.ts:6-35 | the response is the preview for the admin gate's outcome; only the users table changes, by the upsert |

## Left out

- Concurrency: handlers run one at a time. The source's check-then-insert is not atomic, and the model claims no race safety.
- Unicode case mapping: `Strings.ToUpper` upper-cases ASCII letters only.
- Database outages: only constraint violations are modelled as failed writes.
- The NFT row's generated `id` and `claimedAt`: nothing in the core reads them, so they are not part of `Ledger.Nft`.
- The success response's `id` field: no modelled behaviour depends on it.
- The `matcher` regex of `middleware.ts`: the guard is modelled for any path it is given.
- The `/api/auth/me` handler: the guard receives its outcome.
- Middleware.Guard: the redirect URLs are reduced to their targets, because building them depends on the request URL, which is not modelled.
- On-chain minting (`lib/blockchain.ts`), the Magic SDK (`lib/magic.ts`), the Pinata HTTP requests and the image upload route: these are network calls, so their answers are inputs.
- The login route, the event toggle route and the user NFT list route: they are cookie handling, an update of one flag and a query. The login route's upsert is the one `Auth` models.
- The React pages and components, including the claim dialog's client-side upper-casing: these are UI.
- Thrown errors with a value that is not an `Error`, and request bodies that are not JSON objects: fields are modelled as present or absent only.
- Pinata.GatewayUrlIdempotent: it also requires that the gateway is not exactly `ipfs:/`. For that gateway the rewrite is not idempotent (`Pinata.GatewayUrlNotIdempotentForSchemeLikeGateway`).
- The range of JavaScript dates: every integer is a valid time in `Platform.Date`, and only an unparseable string gives an Invalid Date.

## Findings

| source | as written | input that shows it | evidently intended | confidence | as-written member | corrected member |
|---|---|---|---|---|---|---|
| app/api/admin/events/route.ts:18 | the duplicate lookup uses the claim code as sent, while line 31 stores it upper-cased | stored code `ABC`, request code `abc`: the precheck passes, the insert of `ABC` violates the unique constraint, and the response is 500 "Failed to create event" | 400 "Claim code already exists" for any code that upper-cases to a stored one | medium, not executed | AdminEvents.LowerCaseDuplicateSlipsThrough | AdminEvents.AcceptedCodeIsFree |

`AdminEvents.Post` models the handler as written, so it answers the generic 500 in this case. `AdminEvents.Precheck` is the corrected check.
