/** `invitationController.ts`: an organisation's admin or owner invites an
    e-mail address; the invitee accepts with the token and becomes a member. */
module Invitations {
  import opened Common
  import opened Ordering
  import opened Store
  import opened Credentials
  import opened AuthGuard

  /** Days an invitation stays valid. */
  const InviteDays: nat := 7

  /** `inviteUser`: both the inviter id and the organisation id must be in
      the principal (401); an address that any user already has, compared
      as given (not lowercased), is refused (400); otherwise a new pending
      invitation is always added, with the fresh `token` and an expiry seven
      calendar days ahead. A token that breaks the unique index makes the
      insert throw (500). The e-mail is sent afterwards and its failure is
      swallowed, so the reply is 201 with the invitation's id. */
  method InviteUser(db: Db, ctx: Option<Principal>, email: string, now: int, token: string, addDays: (int, nat) -> int)
    returns (r: Reply<nat>)
    requires db.Valid()
    modifies db
    ensures db.Valid()
    ensures db.users == old(db.users) && db.customers == old(db.customers) && db.licenses == old(db.licenses)
    ensures UserIdOf(ctx).None? || CustomerIdOf(ctx).None? ==> r == Err(401, "User not authenticated")
    ensures UserIdOf(ctx).Some? && CustomerIdOf(ctx).Some? && EmailTaken(old(db.users), email) ==>
      r == Err(400, "User already exists in the system")
    ensures UserIdOf(ctx).Some? && CustomerIdOf(ctx).Some? && !EmailTaken(old(db.users), email)
            && InvitationWithToken(old(db.invitations), token).Some? ==>
      r == Err(500, "Failed to send invitation")
    ensures r.Ok? <==>
      UserIdOf(ctx).Some? && CustomerIdOf(ctx).Some? && !EmailTaken(old(db.users), email)
      && InvitationWithToken(old(db.invitations), token).None?
    ensures r.Ok? ==>
      && r == Ok(201, old(db.nextInvitationId))
      && db.invitations == old(db.invitations) +
           [Invitation(old(db.nextInvitationId), email, token, UserIdOf(ctx).value, CustomerIdOf(ctx).value,
                       Pending, addDays(now, InviteDays), now)]
    ensures !r.Ok? ==> db.invitations == old(db.invitations) && db.nextInvitationId == old(db.nextInvitationId)
  {
    var inviterId := UserIdOf(ctx);
    var customerId := CustomerIdOf(ctx);
    if inviterId.None? || customerId.None? {
      return Err(401, "User not authenticated");
    }
    if UserWithEmail(db.users, email).Some? {
      return Err(400, "User already exists in the system");
    }
    var expiresAt := addDays(now, InviteDays);
    if InvitationWithToken(db.invitations, token).Some? {
      return Err(500, "Failed to send invitation");
    }
    var invitation := Invitation(db.nextInvitationId, email, token, inviterId.value, customerId.value, Pending, expiresAt, now);
    db.invitations := db.invitations + [invitation];
    db.nextInvitationId := db.nextInvitationId + 1;
    r := Ok(201, invitation.id);
  }

  /** A new invitation outlives the moment it was issued. */
  lemma InvitationExpiresLater(now: int, addDays: (int, nat) -> int)
    requires MovesForward(addDays)
    ensures addDays(now, InviteDays) > now
  {
  }

  // -------------------------------------------------------------------
  // Listing

  function CreatedKey(v: Invitation): int {
    v.createdAt
  }

  /** The rows the query selects: pending, and of the given organisation when
      one is given. A missing `customer_id` is `undefined`, which the query
      builder drops from the filter. */
  predicate Selected(v: Invitation, customerId: Option<nat>) {
    v.status == Pending && (customerId.None? || v.customerId == customerId.value)
  }

  /** `getPendingInvitations`: the selected rows, newest first. */
  function GetPendingInvitations(invitations: seq<Invitation>, ctx: Option<Principal>): (r: Reply<seq<Invitation>>)
    ensures r.Ok? && r.status == 200
    ensures SortedDesc(r.body, CreatedKey)
    ensures forall v: Invitation ::
      multiset(r.body)[v] == if Selected(v, if ctx.Some? then Some(ctx.value.customerId) else None) then multiset(invitations)[v] else 0
  {
    var customerId := if ctx.Some? then Some(ctx.value.customerId) else None;
    var selected := Filter(invitations, (v: Invitation) => Selected(v, customerId));
    assert forall v: Invitation ::
      multiset(selected)[v] == if Selected(v, customerId) then multiset(invitations)[v] else 0 by {
      forall v: Invitation ensures multiset(selected)[v] == (if Selected(v, customerId) then multiset(invitations)[v] else 0) {
        FilterMultiplicity(invitations, (v: Invitation) => Selected(v, customerId), v);
      }
    }
    Ok(200, SortDesc(selected, CreatedKey))
  }

  /** With an organisation in the principal, no other organisation's row and
      no accepted row is listed. */
  lemma {:induction false} PendingListIsTenantScoped(invitations: seq<Invitation>, p: Principal, v: Invitation)
    requires v in GetPendingInvitations(invitations, Some(p)).body
    ensures v.customerId == p.customerId && v.status == Pending && v in invitations
  {
    var body := GetPendingInvitations(invitations, Some(p)).body;
    assert multiset(body)[v] > 0;
  }

  // -------------------------------------------------------------------
  // Accepting

  datatype AcceptRequest = AcceptRequest(token: string, password: string, firstName: string, lastName: string)

  /** The schema: a password of 6 or more and non-empty names. */
  predicate AcceptShaped(req: AcceptRequest) {
    |req.password| >= 6 && |req.firstName| >= 1 && |req.lastName| >= 1
  }

  /** Why the invitation found for a token cannot be accepted, if it cannot:
      unknown token 404, no longer pending 400, expired 400, in that order. */
  function AcceptRefusal(found: Option<Invitation>, now: int): (e: Option<(int, string)>)
    ensures e.None? <==> found.Some? && found.value.status == Pending && now <= found.value.expiresAt
  {
    if found.None? then Some((404, "Invalid invitation token"))
    else if found.value.status != Pending then Some((400, "Invitation already accepted or expired"))
    else if now > found.value.expiresAt then Some((400, "Invitation expired"))
    else None
  }

  /** An invitation that has been accepted is refused from then on. */
  lemma AcceptedInvitationRefused(v: Invitation, now: int)
    ensures AcceptRefusal(Some(v.(status := Accepted)), now) == Some((400, "Invitation already accepted or expired"))
  {
  }

  /** The member an accepted invitation creates: a verified, active USER of
      the inviting organisation, under the invited address. */
  function Member(id: nat, v: Invitation, req: AcceptRequest, hash: string): (u: User)
    ensures u.email == v.email && u.customerId == v.customerId && u.role == USER
    ensures u.isVerified && u.isActive && Cleared(u)
  {
    User(id, v.customerId, v.email, hash, req.firstName, req.lastName, USER, true, true, None, None, 0, None)
  }

  /** `acceptInvite`: two separate writes, the user insert and then the status
      update. An address already taken breaks the unique index on the insert
      (500) before anything is written. */
  method AcceptInvite(db: Db, req: AcceptRequest, now: int, crypto: Crypto) returns (r: Reply<nat>)
    requires db.Valid()
    modifies db
    ensures db.Valid()
    ensures db.customers == old(db.customers) && db.licenses == old(db.licenses)
    ensures !AcceptShaped(req) ==> r == Err(400, "Invalid input data") && unchanged(db)
    ensures AcceptShaped(req) ==>
      var k := InvitationWithToken(old(db.invitations), req.token);
      var refusal := AcceptRefusal(At(old(db.invitations), k), now);
      && (refusal.Some? ==> r == Err(refusal.value.0, refusal.value.1) && unchanged(db))
      && (refusal.None? && EmailTaken(old(db.users), old(db.invitations)[k.value].email) ==>
            r == Err(500, "Failed to accept invitation") && unchanged(db))
      && (refusal.None? && !EmailTaken(old(db.users), old(db.invitations)[k.value].email) ==>
            && r == Ok(201, old(db.nextUserId))
            && db.users == old(db.users) + [Member(old(db.nextUserId), old(db.invitations)[k.value], req, crypto.hash(req.password))]
            && db.invitations == old(db.invitations)[k.value := old(db.invitations)[k.value].(status := Accepted)])
  {
    if !AcceptShaped(req) {
      return Err(400, "Invalid input data");
    }
    var k := InvitationWithToken(db.invitations, req.token);
    if k.None? {
      return Err(404, "Invalid invitation token");
    }
    var invitation := db.invitations[k.value];
    if invitation.status != Pending {
      return Err(400, "Invitation already accepted or expired");
    }
    if now > invitation.expiresAt {
      return Err(400, "Invitation expired");
    }
    var hash := crypto.hash(req.password);
    if EmailTaken(db.users, invitation.email) {
      return Err(500, "Failed to accept invitation");
    }
    var user := Member(db.nextUserId, invitation, req, hash);
    AppendUserOk(db.users, db.nextUserId, user);
    db.users := db.users + [user];
    db.nextUserId := db.nextUserId + 1;
    db.invitations := db.invitations[k.value := invitation.(status := Accepted)];
    r := Ok(201, user.id);
  }
}
