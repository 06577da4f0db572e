/** `userController.ts`: an organisation's member management (create, list,
    delete), always scoped to the caller's organisation. */
module Users {
  import opened Common
  import opened Store
  import opened Credentials
  import opened AuthGuard

  datatype CreateUserRequest = CreateUserRequest(email: string, password: string, firstName: string, lastName: string,
                                                 role: Option<string>)

  /** The schema: a password of 6 or more, non-empty names and, when present,
      the role 'admin' or 'user'. */
  predicate CreateUserShaped(req: CreateUserRequest) {
    |req.password| >= 6 && |req.firstName| >= 1 && |req.lastName| >= 1
    && (req.role.None? || req.role.value in {"admin", "user"})
  }

  /** `role.toUpperCase()` on the schema's roles; the default is 'user'. */
  function MemberRole(role: Option<string>): (r: Role)
    ensures r == ADMIN <==> role == Some("admin")
    ensures r != OWNER
  {
    if role == Some("admin") then ADMIN else USER
  }

  /** The row `createUser` inserts: verified and active, in the organisation. */
  function CreatedMember(id: nat, customerId: nat, req: CreateUserRequest, hash: string): (u: User)
    ensures u.customerId == customerId && u.email == req.email && u.isVerified && u.isActive && Cleared(u)
    ensures u.role == MemberRole(req.role)
  {
    User(id, customerId, req.email, hash, req.firstName, req.lastName, MemberRole(req.role), true, true, None, None, 0, None)
  }

  /** `createUser`. A missing organisation id (401) and a taken address
      (unique index) are both caught and answered 500; only the schema
      keeps its 400. */
  method CreateUser(db: Db, ctx: Option<Principal>, req: CreateUserRequest, crypto: Crypto) returns (r: Reply<nat>)
    requires db.Valid()
    modifies db
    ensures db.Valid()
    ensures db.customers == old(db.customers) && db.licenses == old(db.licenses) && db.invitations == old(db.invitations)
    ensures !CreateUserShaped(req) ==> r == Err(400, "Invalid input data")
    ensures CreateUserShaped(req) && CustomerIdOf(ctx).None? ==> r == Err(500, "Failed to create user")
    ensures CreateUserShaped(req) && CustomerIdOf(ctx).Some? && EmailTaken(old(db.users), req.email) ==>
      r == Err(500, "Failed to create user")
    ensures r.Ok? <==> CreateUserShaped(req) && CustomerIdOf(ctx).Some? && !EmailTaken(old(db.users), req.email)
    ensures r.Ok? ==>
      && r == Ok(201, old(db.nextUserId))
      && db.users == old(db.users) + [CreatedMember(old(db.nextUserId), CustomerIdOf(ctx).value, req, crypto.hash(req.password))]
    ensures !r.Ok? ==> unchanged(db)
  {
    if !CreateUserShaped(req) {
      return Err(400, "Invalid input data");
    }
    var customerId := CustomerIdOf(ctx);
    if customerId.None? {
      return Err(500, "Failed to create user");
    }
    var hash := crypto.hash(req.password);
    if EmailTaken(db.users, req.email) {
      return Err(500, "Failed to create user");
    }
    var user := CreatedMember(db.nextUserId, customerId.value, req, hash);
    AppendUserOk(db.users, db.nextUserId, user);
    db.users := db.users + [user];
    db.nextUserId := db.nextUserId + 1;
    r := Ok(201, user.id);
  }

  // -------------------------------------------------------------------
  // Listing

  /** The selected columns: no password hash and no verification code. The
      role is the storage enum's spelling. */
  datatype MemberSummary = MemberSummary(id: nat, firstName: string, lastName: string, email: string, role: string,
                                         isActive: bool, lastVerificationSent: Option<int>, isVerified: bool)

  function Summary(u: User): MemberSummary {
    MemberSummary(u.id, u.firstName, u.lastName, u.email, StorageName(u.role), u.isActive, u.lastVerificationSent, u.isVerified)
  }

  /** The organisation's rows, in table order. */
  function Members(users: seq<User>, customerId: nat): (r: seq<User>)
    ensures forall i :: 0 <= i < |r| ==> r[i] in users && r[i].customerId == customerId
    ensures forall i :: 0 <= i < |users| && users[i].customerId == customerId ==> users[i] in r
  {
    Filter(users, (u: User) => u.customerId == customerId)
  }

  /** `getAllUsers`: one summary per member of the caller's organisation; a
      missing organisation id is a 401 the catch turns into 500. */
  function GetAllUsers(users: seq<User>, ctx: Option<Principal>): (r: Reply<seq<MemberSummary>>)
    ensures CustomerIdOf(ctx).None? <==> r == Err(500, "Failed to fetch users")
    ensures r.Ok? ==> r.status == 200 && |r.body| == |Members(users, CustomerIdOf(ctx).value)|
    ensures r.Ok? ==> forall i :: 0 <= i < |r.body| ==>
      exists j :: 0 <= j < |users| && users[j].customerId == CustomerIdOf(ctx).value && r.body[i] == Summary(users[j])
    ensures r.Ok? ==> forall j :: 0 <= j < |users| && users[j].customerId == CustomerIdOf(ctx).value ==>
      Summary(users[j]) in r.body
  {
    match CustomerIdOf(ctx)
    case None => Err(500, "Failed to fetch users")
    case Some(c) =>
      var members := Members(users, c);
      var body := seq(|members|, i requires 0 <= i < |members| => Summary(members[i]));
      assert forall j :: 0 <= j < |users| && users[j].customerId == c ==> Summary(users[j]) in body by {
        forall j | 0 <= j < |users| && users[j].customerId == c ensures Summary(users[j]) in body {
          var i :| 0 <= i < |members| && members[i] == users[j];
          assert body[i] == Summary(users[j]);
        }
      }
      Ok(200, body)
  }

  // -------------------------------------------------------------------
  // Deleting

  /** The rows `deleteMany` matches: the id, and the organisation when the
      principal carries one (an absent `customer_id` is dropped from the
      filter). */
  predicate DeleteMatches(u: User, id: int, scope: Option<nat>) {
    u.id == id && (scope.None? || u.customerId == scope.value)
  }

  /** `deleteUser` for the path parameter parsed as `id` (`None` for a value
      `parseInt` reads as NaN, which the query rejects). No matching row is a
      404 that the catch rewraps, like every error here, as 500. */
  method DeleteUser(db: Db, ctx: Option<Principal>, id: Option<int>) returns (r: Reply<string>)
    requires db.Valid()
    modifies db
    ensures db.Valid()
    ensures db.customers == old(db.customers) && db.licenses == old(db.licenses) && db.invitations == old(db.invitations)
    ensures db.nextUserId == old(db.nextUserId)
    ensures id.None? ==> r == Err(500, "Failed to delete user") && db.users == old(db.users)
    ensures id.Some? ==>
      var scope := if ctx.Some? then Some(ctx.value.customerId) else None;
      var k := FindIndex(old(db.users), (u: User) => DeleteMatches(u, id.value, scope));
      && (k.None? ==> r == Err(500, "Failed to delete user") && db.users == old(db.users))
      && (k.Some? ==>
            && r == Ok(200, "User deleted successfully")
            && db.users == old(db.users)[..k.value] + old(db.users)[k.value + 1..]
            && old(db.users)[k.value].id == id.value
            && (scope.Some? ==> old(db.users)[k.value].customerId == scope.value))
  {
    if id.None? {
      return Err(500, "Failed to delete user");
    }
    var scope := if ctx.Some? then Some(ctx.value.customerId) else None;
    var k := FindIndex(db.users, (u: User) => DeleteMatches(u, id.value, scope));
    if k.None? {
      return Err(500, "Failed to delete user");
    }
    RemoveUserOk(db.users, db.nextUserId, k.value);
    db.users := db.users[..k.value] + db.users[k.value + 1..];
    r := Ok(200, "User deleted successfully");
  }

  /** Deleting by id removes every row with that id: ids are unique, so the
      row found is the only one. */
  lemma {:induction false} DeletionRemovesTheId(users: seq<User>, next: nat, k: nat)
    requires UsersOk(users, next) && k < |users|
    ensures forall u :: u in users[..k] + users[k + 1..] ==> u.id != users[k].id
  {
    var rest := users[..k] + users[k + 1..];
    forall i | 0 <= i < |rest| ensures rest[i].id != users[k].id {
      if i < k {
        assert rest[i] == users[i];
      } else {
        assert rest[i] == users[i + 1];
      }
    }
  }

  /** With an organisation in the principal, another organisation's member
      is never deleted. */
  lemma OtherOrganisationUntouched(users: seq<User>, id: int, c: nat, j: nat)
    requires j < |users| && users[j].customerId != c
    ensures FindIndex(users, (u: User) => DeleteMatches(u, id, Some(c))) != Some(j)
  {
  }
}
