/** app/api/admin/events/route.ts: an administrator creates an event.

    The handler checks the admin gate, the required fields and that the claim code is
    free, then inserts the event with its code upper-cased, the optional fields
    normalised with `|| null` and `isActive` at its assumed default, true. Any thrown error other than the
    admin-gate refusal, including the unauthenticated one and a failed insert, is the
    generic 500. */
module AdminEvents {
  import opened Wrappers
  import opened Strings
  import opened Platform
  import opened Ledger
  import opened Http
  import Auth

  /** The request body; each field may be absent. */
  datatype EventInput = EventInput(
    name: Option<string>,
    description: Option<string>,
    date: Option<string>,
    location: Option<string>,
    claimCode: Option<string>,
    maxSupply: Option<int>,
    imageUrl: Option<string>)

  const MissingFields := Rejection(400, "Missing required fields")
  const CodeTaken := Rejection(400, "Claim code already exists")
  const CreateFailed := "Failed to create event"

  predicate HasRequiredFields(input: EventInput) {
    Truthy(input.name) && Truthy(input.date) && Truthy(input.claimCode)
  }

  /** The checks before the insert, as the handler writes them: the duplicate lookup
      uses the code as sent, while the stored codes are upper-cased. */
  function PrecheckAsWritten(events: map<string, Event>, input: EventInput): (r: Option<Rejection>)
    ensures r.None? <==> HasRequiredFields(input) && input.claimCode.value !in events
    ensures !HasRequiredFields(input) ==> r == Some(MissingFields)
    ensures HasRequiredFields(input) && input.claimCode.value in events ==> r == Some(CodeTaken)
  {
    if !HasRequiredFields(input) then Some(MissingFields)
    else if input.claimCode.value in events then Some(CodeTaken)
    else None
  }

  /** The checks before the insert, with the duplicate lookup on the code that is
      going to be stored. */
  function Precheck(events: map<string, Event>, input: EventInput): (r: Option<Rejection>)
    ensures r.None? <==> HasRequiredFields(input) && ToUpper(input.claimCode.value) !in events
    ensures !HasRequiredFields(input) ==> r == Some(MissingFields)
    ensures HasRequiredFields(input) && ToUpper(input.claimCode.value) in events ==> r == Some(CodeTaken)
  {
    if !HasRequiredFields(input) then Some(MissingFields)
    else if ToUpper(input.claimCode.value) in events then Some(CodeTaken)
    else None
  }

  /** The row the handler inserts; `id` is the generated primary key. */
  function NewEvent(input: EventInput, id: string, rt: Runtime): (e: Event)
    requires HasRequiredFields(input)
    ensures e.id == id && e.name == input.name.value && e.date == rt.parseDate(input.date.value)
    ensures e.claimCode == ToUpper(input.claimCode.value) && IsUpperCase(e.claimCode)
    ensures e.isActive
    ensures e.description == OrNull(input.description) && e.location == OrNull(input.location)
    ensures e.imageUrl == OrNull(input.imageUrl) && e.maxSupply == NumberOrNull(input.maxSupply)
    ensures e.location != Some("") && e.imageUrl != Some("") && e.maxSupply != Some(0)
  {
    ToUpperIdempotent(input.claimCode.value);
    Event(id, input.name.value, OrNull(input.description), rt.parseDate(input.date.value),
          OrNull(input.location), ToUpper(input.claimCode.value), true,
          NumberOrNull(input.maxSupply), OrNull(input.imageUrl))
  }

  /** For a code sent already upper-cased, as the admin dialog sends it, the two
      prechecks agree. */
  lemma PrechecksAgreeOnUpperCase(events: map<string, Event>, input: EventInput)
    requires Truthy(input.claimCode) && IsUpperCase(input.claimCode.value)
    ensures PrecheckAsWritten(events, input) == Precheck(events, input)
  {
  }

  /** The precheck as written lets a lower-case duplicate of a stored code through, and
      the insert of its upper-cased code then fails on the unique constraint, so the
      request ends in the generic 500 rather than "Claim code already exists". */
  lemma LowerCaseDuplicateSlipsThrough(rt: Runtime)
    ensures var stored := Event("e1", "Conf", None, Date(0), None, "ABC", true, None, None);
      var events := map["ABC" := stored];
      var input := EventInput(Some("Conf 2"), None, Some("2024-01-01"), None, Some("abc"), None, None);
      && PrecheckAsWritten(events, input).None?
      && NewEvent(input, "e2", rt).claimCode in events
      && Precheck(events, input) == Some(CodeTaken)
  {
    assert "abc"[0] != "ABC"[0];
    var up := ToUpper("abc");
    assert up[0] == 'A' && up[1] == 'B' && up[2] == 'C';
    assert up == "ABC";
  }

  /** With the corrected precheck, an accepted request never collides on the code: the
      insert can then only fail on the generated id. */
  lemma AcceptedCodeIsFree(events: map<string, Event>, input: EventInput, id: string, rt: Runtime)
    requires Precheck(events, input).None?
    ensures NewEvent(input, id, rt).claimCode !in events
  {
  }

  /** `POST`, with the precheck as written. A code that upper-cases to a stored one but
      is not itself stored passes the precheck, and the insert then throws: the generic
      500. So does an Invalid Date, which the insert refuses. */
  method Post(db: Database, didToken: Option<string>, v: Auth.Validation, newUserId: string,
              input: EventInput, newEventId: string, rt: Runtime)
    returns (resp: Response<Event>)
    requires db.Valid() && db.Sound()
    modifies db
    ensures db.Valid() && db.Sound()
    ensures db.users == Auth.CurrentUser(old(db.users), didToken, v, newUserId).users
    ensures db.nfts == old(db.nfts)
    ensures var gate := Auth.AdminGate(Auth.CurrentUser(old(db.users), didToken, v, newUserId).user);
      gate.Err? ==> resp == Err(AdminRouteError(gate.error, CreateFailed)) && db.events == old(db.events)
    ensures var gate := Auth.AdminGate(Auth.CurrentUser(old(db.users), didToken, v, newUserId).user);
      gate.Ok? && PrecheckAsWritten(old(db.events), input).Some? ==>
        resp == Err(PrecheckAsWritten(old(db.events), input).value) && db.events == old(db.events)
    ensures var gate := Auth.AdminGate(Auth.CurrentUser(old(db.users), didToken, v, newUserId).user);
      gate.Ok? && PrecheckAsWritten(old(db.events), input).None? ==>
        var e := NewEvent(input, newEventId, rt);
        var refused := e.claimCode in old(db.events) || newEventId in EventIds(old(db.events)) || e.date.InvalidDate?;
        && (refused ==> resp == Err(Rejection(500, CreateFailed)) && db.events == old(db.events))
        && (!refused ==> resp == Ok(e) && db.events == old(db.events)[e.claimCode := e])
  {
    var gate := Auth.RequireAdmin(db, didToken, v, newUserId);
    if gate.Err? {
      resp := Err(AdminRouteError(gate.error, CreateFailed));
      return;
    }
    var check := PrecheckAsWritten(db.events, input);
    if check.Some? {
      resp := Err(check.value);
      return;
    }
    var e := NewEvent(input, newEventId, rt);
    if e.id !in EventIds(db.events) {
      NewEventKeepsSound(db.events, db.nfts, e);
    }
    var created := db.CreateEvent(e);
    if !created {
      resp := Err(Rejection(500, CreateFailed));
      return;
    }
    resp := Ok(e);
  }
}
