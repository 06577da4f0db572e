/** `requireAuth(roles)`: the middleware that turns a bearer token into the
    request's principal and enforces a route's role allow-list. */
module AuthGuard {
  import opened Common
  import opened Store
  import opened Credentials

  /** `req.user`: the principal a handler sees. */
  datatype Principal = Principal(userId: nat, email: string, role: string, customerId: nat)

  /** Either the guard calls `next()` with the principal attached, or it
      answers the request itself. */
  datatype GuardResult = Next(principal: Principal) | Deny(status: int, message: string)

  /** The principal built from a stored user: the customer id comes from the
      row, the role is the storage enum lowercased. */
  function PrincipalOf(u: User): (p: Principal)
    ensures p.userId == u.id && p.email == u.email && p.customerId == u.customerId
    ensures p.role == AppName(u.role)
  {
    StorageNameLowered(u.role);
    Principal(u.id, u.email, Lower(StorageName(u.role)), u.customerId)
  }

  /** `req.header('Authorization')?.replace('Bearer ', '')`. */
  function ExtractToken(header: Option<string>): (t: Option<string>)
    ensures header.None? <==> t.None?
  {
    match header
    case None => None
    case Some(h) => Some(ReplaceFirst(h, "Bearer ", ""))
  }

  lemma BearerHeaderYieldsToken(token: string)
    ensures ExtractToken(Some("Bearer " + token)) == Some(token)
  {
    ReplaceFirstOfPrefix("Bearer ", token);
  }

  /** The stored user a token names, if the token verifies and the user exists. */
  function TokenSubject(token: string, crypto: Crypto, users: seq<User>): (r: Option<nat>)
    ensures r.Some? ==> crypto.verify(token).Some? && r.value < |users|
    ensures r.Some? ==> users[r.value].id == crypto.verify(token).value.sub
    ensures r.None? && crypto.verify(token).Some? ==>
      forall i :: 0 <= i < |users| ==> users[i].id != crypto.verify(token).value.sub
  {
    match crypto.verify(token)
    case None => None
    case Some(claims) => UserWithId(users, claims.sub)
  }

  /** The guard chain, in the source's order: no token, a token that does not
      verify, no such user, an inactive user (all 401), then the role check
      (403). The user's `isVerified` flag is never consulted. */
  function RequireAuth(roles: seq<string>, header: Option<string>, crypto: Crypto, users: seq<User>): (r: GuardResult)
    ensures !Truthy(ExtractToken(header)) ==> r == Deny(401, "No token provided")
    ensures Truthy(ExtractToken(header)) && crypto.verify(ExtractToken(header).value).None? ==>
      r == Deny(401, "Invalid token")
    ensures r.Deny? ==> r.status == 401 || r.status == 403
    ensures r.Next? ==>
      && Truthy(ExtractToken(header))
      && var k := TokenSubject(ExtractToken(header).value, crypto, users);
      && k.Some?
      && users[k.value].isActive
      && r.principal == PrincipalOf(users[k.value])
      && (|roles| == 0 || r.principal.role in roles)
    ensures r.Deny? && r.status == 403 ==>
      && Truthy(ExtractToken(header))
      && var k := TokenSubject(ExtractToken(header).value, crypto, users);
      && k.Some? && users[k.value].isActive
      && |roles| > 0 && AppName(users[k.value].role) !in roles
  {
    var token := ExtractToken(header);
    if !Truthy(token) then Deny(401, "No token provided")
    else if crypto.verify(token.value).None? then Deny(401, "Invalid token")
    else match TokenSubject(token.value, crypto, users)
      case None => Deny(401, "User not found")
      case Some(k) =>
        if !users[k].isActive then Deny(401, "User is inactive")
        else
          var principal := PrincipalOf(users[k]);
          if |roles| > 0 && principal.role !in roles then Deny(403, "Insufficient permissions")
          else Next(principal)
  }

  /** A request whose bearer token names the stored user at index `k`. */
  ghost predicate Presents(header: Option<string>, crypto: Crypto, users: seq<User>, k: nat) {
    && k < |users|
    && Truthy(ExtractToken(header))
    && TokenSubject(ExtractToken(header).value, crypto, users) == Some(k)
  }

  /** Whether `next()` is reached: a presented, active user whose role is on
      the list, or any active user when the list is empty. */
  lemma {:induction false} RequireAuthAdmits(roles: seq<string>, header: Option<string>, crypto: Crypto, users: seq<User>, k: nat)
    requires Presents(header, crypto, users, k)
    ensures RequireAuth(roles, header, crypto, users).Next? <==>
      users[k].isActive && (|roles| == 0 || AppName(users[k].role) in roles)
    ensures !users[k].isActive ==> RequireAuth(roles, header, crypto, users) == Deny(401, "User is inactive")
    ensures users[k].isActive && |roles| > 0 && AppName(users[k].role) !in roles ==>
      RequireAuth(roles, header, crypto, users) == Deny(403, "Insufficient permissions")
  {
    var p := PrincipalOf(users[k]);
    assert p.role == AppName(users[k].role);
  }

  /** An active account that never verified its e-mail still passes. */
  lemma UnverifiedActiveUserPasses(header: Option<string>, crypto: Crypto, users: seq<User>, k: nat)
    requires Presents(header, crypto, users, k)
    requires users[k].isActive && !users[k].isVerified
    ensures RequireAuth([], header, crypto, users) == Next(PrincipalOf(users[k]))
  {
  }

  // -------------------------------------------------------------------
  // Reading the principal inside a handler

  /** `req.user?.customer_id`, with a falsy (missing or 0) id read as absent. */
  function CustomerIdOf(ctx: Option<Principal>): (c: Option<nat>)
    ensures c.Some? <==> ctx.Some? && ctx.value.customerId != 0
    ensures c.Some? ==> c.value == ctx.value.customerId && c.value >= 1
  {
    if ctx.Some? && ctx.value.customerId != 0 then Some(ctx.value.customerId) else None
  }

  /** `req.user?.user_id`, with a falsy id read as absent. */
  function UserIdOf(ctx: Option<Principal>): (u: Option<nat>)
    ensures u.Some? <==> ctx.Some? && ctx.value.userId != 0
    ensures u.Some? ==> u.value == ctx.value.userId && u.value >= 1
  {
    if ctx.Some? && ctx.value.userId != 0 then Some(ctx.value.userId) else None
  }
}
