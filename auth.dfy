/** lib/auth.ts: resolving the caller from the session token (with the user upsert it
    performs) and the three gates built on it. The token validation service is not
    modelled; its answer for the token is an input. */
module Auth {
  import opened Wrappers
  import opened Strings
  import opened Ledger

  const UnauthorizedMessage := "Unauthorized"
  const ForbiddenMessage := "Forbidden: Admin access required"

  /** What `validateMagicToken` answers for the session token. */
  datatype Validation = Validation(isValid: bool, email: Option<string>, publicAddress: Option<string>)

  /** `getCurrentUser` on the user table: no user without a token, for an invalid token,
      for a validation without email, or when the upsert throws; otherwise the upserted
      user. The table changes only through the upsert. */
  function CurrentUser(users: map<string, User>, didToken: Option<string>, v: Validation,
                       newUserId: string): (r: Upserted)
    ensures r.user.None? <==>
      || !Truthy(didToken) || !v.isValid || !Truthy(v.email)
      || (v.email.value !in users && newUserId in UserIds(users))
    ensures r.user.None? ==> r.users == users
    ensures r.user.Some? ==> r == UpsertByEmail(users, v.email.value, v.publicAddress, newUserId)
    ensures r.user.Some? && KeyedByEmail(users) ==> r.user.value.email == v.email.value
  {
    if !Truthy(didToken) then Upserted(None, users)
    else if !v.isValid || !Truthy(v.email) then Upserted(None, users)
    else UpsertByEmail(users, v.email.value, v.publicAddress, newUserId)
  }

  /** `requireAuth`'s decision: the user, or "Unauthorized" exactly when there is none. */
  function AuthGate(user: Option<User>): (r: Result<User, string>)
    ensures r.Err? <==> user.None?
    ensures r.Err? ==> r.error == UnauthorizedMessage
    ensures r.Ok? ==> r.value == user.value
  {
    if user.None? then Err(UnauthorizedMessage) else Ok(user.value)
  }

  /** `requireAdmin`'s decision: "Unauthorized" first when there is no user, then
      "Forbidden: Admin access required" for a user who is not an admin. */
  function AdminGate(user: Option<User>): (r: Result<User, string>)
    ensures r == Err(UnauthorizedMessage) <==> user.None?
    ensures r == Err(ForbiddenMessage) <==> user.Some? && user.value.role != AdminRole
    ensures r.Ok? <==> user.Some? && user.value.role == AdminRole
    ensures r.Ok? ==> r.value == user.value
  {
    match AuthGate(user)
    case Err(e) => Err(e)
    case Ok(u) => if u.role != AdminRole then Err(ForbiddenMessage) else Ok(u)
  }

  /** `isAdmin`'s decision. */
  function IsAdminUser(user: Option<User>): (b: bool)
    ensures b <==> user.Some? && user.value.role == AdminRole
  {
    user.Some? && user.value.role == AdminRole
  }

  /** The three gates agree: the admin gate passes exactly for the admins, and whoever
      passes it passes the authentication gate as the same user. */
  lemma GatesAgree(user: Option<User>)
    ensures AdminGate(user).Ok? <==> IsAdminUser(user)
    ensures AdminGate(user).Ok? ==> AuthGate(user) == AdminGate(user)
  {
  }

  method GetCurrentUser(db: Database, didToken: Option<string>, v: Validation, newUserId: string)
    returns (user: Option<User>)
    requires db.Valid()
    modifies db
    ensures db.Valid()
    ensures user == CurrentUser(old(db.users), didToken, v, newUserId).user
    ensures db.users == CurrentUser(old(db.users), didToken, v, newUserId).users
    ensures db.events == old(db.events) && db.nfts == old(db.nfts)
  {
    if !Truthy(didToken) {
      return None;
    }
    if !v.isValid || !Truthy(v.email) {
      return None;
    }
    user := db.UpsertUser(v.email.value, v.publicAddress, newUserId);
  }

  method RequireAuth(db: Database, didToken: Option<string>, v: Validation, newUserId: string)
    returns (r: Result<User, string>)
    requires db.Valid()
    modifies db
    ensures db.Valid()
    ensures r == AuthGate(CurrentUser(old(db.users), didToken, v, newUserId).user)
    ensures db.users == CurrentUser(old(db.users), didToken, v, newUserId).users
    ensures db.events == old(db.events) && db.nfts == old(db.nfts)
  {
    var user := GetCurrentUser(db, didToken, v, newUserId);
    if user.None? {
      return Err(UnauthorizedMessage);
    }
    return Ok(user.value);
  }

  method RequireAdmin(db: Database, didToken: Option<string>, v: Validation, newUserId: string)
    returns (r: Result<User, string>)
    requires db.Valid()
    modifies db
    ensures db.Valid()
    ensures r == AdminGate(CurrentUser(old(db.users), didToken, v, newUserId).user)
    ensures db.users == CurrentUser(old(db.users), didToken, v, newUserId).users
    ensures db.events == old(db.events) && db.nfts == old(db.nfts)
  {
    r := RequireAuth(db, didToken, v, newUserId);
    if r.Ok? && r.value.role != AdminRole {
      r := Err(ForbiddenMessage);
    }
  }

  method IsAdmin(db: Database, didToken: Option<string>, v: Validation, newUserId: string)
    returns (b: bool)
    requires db.Valid()
    modifies db
    ensures db.Valid()
    ensures b == IsAdminUser(CurrentUser(old(db.users), didToken, v, newUserId).user)
    ensures db.users == CurrentUser(old(db.users), didToken, v, newUserId).users
    ensures db.events == old(db.events) && db.nfts == old(db.nfts)
  {
    var user := GetCurrentUser(db, didToken, v, newUserId);
    b := user.Some? && user.value.role == AdminRole;
  }
}
