/** The three database tables the handlers read and write (users, events and NFT
    claim records), with the integrity constraints the database is assumed to enforce,
    the invariants the claim flow is meant to keep, and the three writes the handlers
    issue: a user upsert, an event insert and an NFT insert.

    The database schema is not part of this model, so its constraints are assumptions:
    unique email (the upsert's key), unique claim code and token id (both read with
    `findUnique`), unique primary keys, claims that reference an existing event, no
    Invalid Date in a date column, a non-admin default role for a new user and an
    active default for a new event. */
module Ledger {
  import opened Wrappers
  import opened Strings
  import opened Platform

  datatype Role = UserRole | AdminRole

  datatype User = User(id: string, email: string, walletAddress: Option<string>, role: Role)

  datatype Event = Event(
    id: string,
    name: string,
    description: Option<string>,
    date: Date,
    location: Option<string>,
    claimCode: string,
    isActive: bool,
    maxSupply: Option<int>,
    imageUrl: Option<string>)

  /** One attendance claim: the NFT record the claim handler inserts. */
  datatype Nft = Nft(
    tokenId: string,
    userId: string,
    eventId: string,
    metadataUri: string,
    imageUrl: string,
    txHash: Option<string>)

  function UserIds(users: map<string, User>): set<string> {
    set k | k in users :: users[k].id
  }

  function EventIds(events: map<string, Event>): set<string> {
    set k | k in events :: events[k].id
  }

  function TokenIds(nfts: seq<Nft>): set<string> {
    set i | 0 <= i < |nfts| :: nfts[i].tokenId
  }

  /** `_count.nfts` of an event: how many claim records point at it. */
  function ClaimCount(nfts: seq<Nft>, eventId: string): (n: nat)
    ensures n <= |nfts|
    ensures n == 0 <==> forall i :: 0 <= i < |nfts| ==> nfts[i].eventId != eventId
  {
    if nfts == [] then 0
    else (if nfts[0].eventId == eventId then 1 else 0) + ClaimCount(nfts[1..], eventId)
  }

  /** The `findFirst` on (userId, eventId): some record of this user for this event. */
  predicate HasClaimed(nfts: seq<Nft>, userId: string, eventId: string) {
    exists i :: 0 <= i < |nfts| && nfts[i].userId == userId && nfts[i].eventId == eventId
  }

  /** The supply test: a truthy `maxSupply` (not null, not 0) that the count has reached. */
  predicate SupplyReached(e: Event, count: nat) {
    NumberTruthy(e.maxSupply) && count >= e.maxSupply.value
  }

  /** The cap the supply test protects: with a truthy `maxSupply` the count is within it
      (a negative cap admits no claim at all, so its count stays 0). */
  predicate WithinSupply(e: Event, count: nat) {
    NumberTruthy(e.maxSupply) ==> count == 0 || count <= e.maxSupply.value
  }

  // ---- constraints the database is assumed to enforce (unique columns, primary and foreign keys)

  ghost predicate KeyedByEmail(users: map<string, User>) {
    forall k :: k in users ==> users[k].email == k
  }

  ghost predicate KeyedByCode(events: map<string, Event>) {
    forall k :: k in events ==> events[k].claimCode == k
  }

  ghost predicate DistinctUserIds(users: map<string, User>) {
    forall k1, k2 :: k1 in users && k2 in users && users[k1].id == users[k2].id ==> k1 == k2
  }

  ghost predicate DistinctEventIds(events: map<string, Event>) {
    forall k1, k2 :: k1 in events && k2 in events && events[k1].id == events[k2].id ==> k1 == k2
  }

  ghost predicate DistinctTokenIds(nfts: seq<Nft>) {
    forall i, j :: 0 <= i < j < |nfts| ==> nfts[i].tokenId != nfts[j].tokenId
  }

  ghost predicate ClaimsReferenceEvents(events: map<string, Event>, nfts: seq<Nft>) {
    forall i :: 0 <= i < |nfts| ==> nfts[i].eventId in EventIds(events)
  }

  /** A date column holds a time: an Invalid Date is refused on insert. */
  ghost predicate DatesValid(events: map<string, Event>) {
    forall k :: k in events ==> events[k].date.Date?
  }

  ghost predicate Constraints(users: map<string, User>, events: map<string, Event>, nfts: seq<Nft>) {
    && KeyedByEmail(users) && DistinctUserIds(users)
    && KeyedByCode(events) && DistinctEventIds(events) && DatesValid(events)
    && DistinctTokenIds(nfts) && ClaimsReferenceEvents(events, nfts)
  }

  // ---- invariants the handlers' checks are there to keep (no constraint backs them)

  ghost predicate CodesUpperCase(events: map<string, Event>) {
    forall k :: k in events ==> IsUpperCase(k)
  }

  ghost predicate OneClaimPerAttendee(nfts: seq<Nft>) {
    forall i, j :: 0 <= i < j < |nfts| ==>
      nfts[i].userId != nfts[j].userId || nfts[i].eventId != nfts[j].eventId
  }

  ghost predicate SupplyRespected(events: map<string, Event>, nfts: seq<Nft>) {
    forall k :: k in events ==> WithinSupply(events[k], ClaimCount(nfts, events[k].id))
  }

  ghost predicate SoundState(events: map<string, Event>, nfts: seq<Nft>) {
    CodesUpperCase(events) && OneClaimPerAttendee(nfts) && SupplyRespected(events, nfts)
  }

  // ---- the user upsert keyed by email

  datatype Upserted = Upserted(user: Option<User>, users: map<string, User>)

  /** The user upsert keyed by email. An existing user keeps its id and role and has its
      wallet replaced only by a truthy address; a new user gets the fresh id, the
      assumed non-admin default role and the address when truthy; a fresh id that
      collides with another user's primary key makes the upsert throw (no user). */
  function UpsertByEmail(users: map<string, User>, email: string, publicAddress: Option<string>,
                         newId: string): (r: Upserted)
    ensures r.user.None? <==> email !in users && newId in UserIds(users)
    ensures r.user.None? ==> r.users == users
    ensures r.user.Some? ==> r.users == users[email := r.user.value]
    ensures r.user.Some? ==>
      r.user.value.walletAddress == (if Truthy(publicAddress) then publicAddress
                                     else if email in users then users[email].walletAddress
                                     else None)
    ensures r.user.Some? && email in users ==>
      r.user.value.id == users[email].id && r.user.value.email == users[email].email &&
      r.user.value.role == users[email].role
    ensures r.user.Some? && email !in users ==>
      r.user.value.id == newId && r.user.value.email == email && r.user.value.role == UserRole
  {
    if email in users then
      var existing := users[email];
      var updated := if Truthy(publicAddress) then existing.(walletAddress := publicAddress) else existing;
      Upserted(Some(updated), users[email := updated])
    else if newId in UserIds(users) then
      Upserted(None, users)
    else
      var created := User(newId, email, OrNull(publicAddress), UserRole);
      Upserted(Some(created), users[email := created])
  }

  /** Provisioning the same identity twice leaves the table as the first call left it. */
  lemma UpsertIdempotent(users: map<string, User>, email: string, publicAddress: Option<string>, newId: string)
    ensures var r := UpsertByEmail(users, email, publicAddress, newId);
      UpsertByEmail(r.users, email, publicAddress, newId) == r
  {
  }

  // ---- insertion lemmas

  lemma {:induction false} ClaimCountAppend(nfts: seq<Nft>, n: Nft, eventId: string)
    ensures ClaimCount(nfts + [n], eventId) ==
      ClaimCount(nfts, eventId) + (if n.eventId == eventId then 1 else 0)
  {
    if nfts != [] {
      assert (nfts + [n])[1..] == nfts[1..] + [n];
      ClaimCountAppend(nfts[1..], n, eventId);
    }
  }

  /** Inserting an event under a new code adds exactly its id to the event ids. */
  lemma EventIdsAfterInsert(events: map<string, Event>, code: string, e: Event)
    requires code !in events
    ensures EventIds(events[code := e]) == EventIds(events) + {e.id}
  {
    var after := events[code := e];
    forall x | x in EventIds(events) ensures x in EventIds(after) {
      var k :| k in events && events[k].id == x;
      assert k != code && after[k] == events[k];
    }
    assert after[code] == e;
  }

  /** A claim that passed the supply and duplicate checks for the event stored under
      `code` keeps every invariant when it is appended. */
  lemma AcceptedClaimKeepsSound(events: map<string, Event>, nfts: seq<Nft>, code: string, n: Nft)
    requires DistinctEventIds(events) && SoundState(events, nfts)
    requires code in events && n.eventId == events[code].id
    requires !SupplyReached(events[code], ClaimCount(nfts, n.eventId))
    requires !HasClaimed(nfts, n.userId, n.eventId)
    ensures SoundState(events, nfts + [n])
  {
    var s := nfts + [n];
    forall i, j | 0 <= i < j < |s|
      ensures s[i].userId != s[j].userId || s[i].eventId != s[j].eventId
    {
      if j == |nfts| {
        assert s[i] == nfts[i];
      }
    }
    forall k | k in events
      ensures WithinSupply(events[k], ClaimCount(s, events[k].id))
    {
      ClaimCountAppend(nfts, n, events[k].id);
      if events[k].id == n.eventId {
        assert k == code;
      }
    }
  }

  /** An event with a fresh id and an upper-case code keeps every invariant when it is
      inserted: no claim can point at its id yet. */
  lemma NewEventKeepsSound(events: map<string, Event>, nfts: seq<Nft>, e: Event)
    requires ClaimsReferenceEvents(events, nfts) && SoundState(events, nfts)
    requires e.id !in EventIds(events) && IsUpperCase(e.claimCode)
    ensures SoundState(events[e.claimCode := e], nfts)
  {
    forall i | 0 <= i < |nfts| ensures nfts[i].eventId != e.id {
      assert nfts[i].eventId in EventIds(events);
    }
  }

  class Database {
    var users: map<string, User>
    var events: map<string, Event>
    var nfts: seq<Nft>

    /** The assumed constraints of the schema. */
    ghost predicate Valid()
      reads this
    {
      Constraints(users, events, nfts)
    }

    /** The invariants of the claim flow. */
    ghost predicate Sound()
      reads this
    {
      SoundState(events, nfts)
    }

    constructor ()
      ensures Valid() && Sound()
      ensures users == map[] && events == map[] && nfts == []
    {
      users, events, nfts := map[], map[], [];
    }

    /** `prisma.user.upsert` keyed by email. */
    method UpsertUser(email: string, publicAddress: Option<string>, newId: string) returns (user: Option<User>)
      requires Valid()
      modifies this
      ensures Valid()
      ensures user == UpsertByEmail(old(users), email, publicAddress, newId).user
      ensures users == UpsertByEmail(old(users), email, publicAddress, newId).users
      ensures events == old(events) && nfts == old(nfts)
    {
      var r := UpsertByEmail(users, email, publicAddress, newId);
      if r.user.Some? && email !in users {
        assert r.user.value.id !in UserIds(users);
      }
      users := r.users;
      user := r.user;
    }

    /** `prisma.event.create`: refused (it throws) when the claim code or the id is taken
        or the date is an Invalid Date. */
    method CreateEvent(e: Event) returns (ok: bool)
      requires Valid()
      modifies this
      ensures Valid()
      ensures ok <==> e.claimCode !in old(events) && e.id !in EventIds(old(events)) && e.date.Date?
      ensures events == if ok then old(events)[e.claimCode := e] else old(events)
      ensures users == old(users) && nfts == old(nfts)
    {
      ok := e.claimCode !in events && e.id !in EventIds(events) && e.date.Date?;
      if ok {
        EventIdsAfterInsert(events, e.claimCode, e);
        events := events[e.claimCode := e];
      }
    }

    /** `prisma.nFT.create`: refused (it throws) when the token id is taken or the event
        does not exist. */
    method CreateNft(n: Nft) returns (ok: bool)
      requires Valid()
      modifies this
      ensures Valid()
      ensures ok <==> n.tokenId !in TokenIds(old(nfts)) && n.eventId in EventIds(events)
      ensures nfts == if ok then old(nfts) + [n] else old(nfts)
      ensures users == old(users) && events == old(events)
    {
      ok := n.tokenId !in TokenIds(nfts) && n.eventId in EventIds(events);
      if ok {
        nfts := nfts + [n];
      }
    }
  }
}
