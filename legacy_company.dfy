/** The legacy registration and login of `companyController.ts`, written
    against the knex `customers`/`users` tables: a company owner founds a
    new organisation, anyone else joins one with its invitation code. */
module LegacyCompany {
  import opened Common
  import opened Store

  datatype LegacyCustomer = LegacyCustomer(
    id: nat,
    firstName: string,
    lastName: string,
    email: string,
    address: string,
    phone: string,
    customerType: CustomerType,
    invitationCode: Option<string>,
    registrationDate: int)

  /** A row of the legacy `users` table; `userId` is the UUID the handler draws. */
  datatype LegacyUser = LegacyUser(
    userId: string,
    customerId: nat,
    email: string,
    passwordHash: string,
    firstName: string,
    lastName: string,
    phone: string,
    role: string,
    isActive: bool)

  /** Customer ids below the counter, ids and e-mails unique. */
  ghost predicate LegacyCustomersOk(customers: seq<LegacyCustomer>, next: nat) {
    && (forall i :: 0 <= i < |customers| ==> 1 <= customers[i].id < next)
    && (forall i, j :: 0 <= i < j < |customers| ==>
          customers[i].id != customers[j].id && customers[i].email != customers[j].email)
  }

  /** User ids and e-mails unique. */
  ghost predicate LegacyUsersOk(users: seq<LegacyUser>) {
    forall i, j :: 0 <= i < j < |users| ==> users[i].userId != users[j].userId && users[i].email != users[j].email
  }

  lemma AppendLegacyCustomerOk(customers: seq<LegacyCustomer>, next: nat, c: LegacyCustomer)
    requires LegacyCustomersOk(customers, next) && c.id == next >= 1
    requires LegacyCustomerWithEmail(customers, c.email).None?
    ensures LegacyCustomersOk(customers + [c], next + 1)
  {
  }

  lemma AppendLegacyUserOk(users: seq<LegacyUser>, u: LegacyUser)
    requires LegacyUsersOk(users)
    requires LegacyUserWithEmail(users, u.email).None? && LegacyUserWithId(users, u.userId).None?
    ensures LegacyUsersOk(users + [u])
  {
  }

  /** The legacy tables: unique customer ids and e-mails, unique user ids and
      e-mails. */
  class LegacyDb {
    var customers: seq<LegacyCustomer>
    var users: seq<LegacyUser>
    var nextCustomerId: nat

    ghost predicate Valid()
      reads this
    {
      nextCustomerId >= 1 && LegacyCustomersOk(customers, nextCustomerId) && LegacyUsersOk(users)
    }

    constructor ()
      ensures Valid() && customers == [] && users == []
    {
      customers, users, nextCustomerId := [], [], 1;
    }
  }

  function LegacyUserWithEmail(users: seq<LegacyUser>, email: string): (r: Option<nat>)
    ensures r.Some? ==> r.value < |users| && users[r.value].email == email
    ensures r.None? ==> forall i :: 0 <= i < |users| ==> users[i].email != email
  {
    FindIndex(users, (u: LegacyUser) => u.email == email)
  }

  function LegacyUserWithId(users: seq<LegacyUser>, userId: string): (r: Option<nat>)
    ensures r.Some? ==> r.value < |users| && users[r.value].userId == userId
    ensures r.None? ==> forall i :: 0 <= i < |users| ==> users[i].userId != userId
  {
    FindIndex(users, (u: LegacyUser) => u.userId == userId)
  }

  function LegacyCustomerWithEmail(customers: seq<LegacyCustomer>, email: string): (r: Option<nat>)
    ensures r.None? ==> forall i :: 0 <= i < |customers| ==> customers[i].email != email
  {
    FindIndex(customers, (c: LegacyCustomer) => c.email == email)
  }

  /** The first company whose invitation code is `code`. */
  function CompanyWithCode(customers: seq<LegacyCustomer>, code: string): (r: Option<nat>)
    ensures r.Some? ==> r.value < |customers| && customers[r.value].invitationCode == Some(code)
                        && customers[r.value].customerType == Company
    ensures r.None? ==> forall i :: 0 <= i < |customers| ==>
      customers[i].invitationCode != Some(code) || customers[i].customerType != Company
  {
    FindIndex(customers, (c: LegacyCustomer) => c.invitationCode == Some(code) && c.customerType == Company)
  }

  datatype LegacyRegisterRequest = LegacyRegisterRequest(
    email: string,
    password: string,
    firstName: string,
    lastName: string,
    phone: Option<string>,
    address: Option<string>,
    customerType: string,
    role: Option<string>,
    invitationCode: Option<string>,
    companyName: Option<string>)

  /** The schema's explicit rules; the role, when present, is 'owner' or 'user'. */
  predicate LegacyShaped(req: LegacyRegisterRequest) {
    && |req.password| >= 8
    && |req.firstName| >= 1
    && |req.lastName| >= 1
    && req.customerType in {"company", "individual"}
    && (req.role.None? || req.role.value in {"owner", "user"})
  }

  /** The role after the schema's default. */
  function RoleOf(req: LegacyRegisterRequest): (r: string)
    ensures req.role.Some? ==> r == req.role.value
    ensures req.role.None? ==> r == "user"
  {
    if req.role.Some? then req.role.value else "user"
  }

  /** Only a company owner founds a new organisation. */
  predicate FoundsCompany(req: LegacyRegisterRequest) {
    req.customerType == "company" && RoleOf(req) == "owner"
  }

  /** The name a founded company gets: the company name, or "first last's
      Company" when none (or an empty one) is given. */
  function CompanyDisplayName(req: LegacyRegisterRequest): (n: string)
    ensures Truthy(req.companyName) ==> n == req.companyName.value
    ensures !Truthy(req.companyName) ==> n == req.firstName + " " + req.lastName + "'s Company"
  {
    OrElse(req.companyName, req.firstName + " " + req.lastName + "'s Company")
  }

  function FoundedCompany(id: nat, email: string, req: LegacyRegisterRequest, now: int): LegacyCustomer {
    LegacyCustomer(id, CompanyDisplayName(req), "", email, OrElse(req.address, ""), OrElse(req.phone, ""), Company, None, now)
  }

  function NewLegacyUser(userId: string, customerId: nat, email: string, req: LegacyRegisterRequest, hash: string): LegacyUser {
    LegacyUser(userId, customerId, email, hash, req.firstName, req.lastName, OrElse(req.phone, ""), RoleOf(req), true)
  }

  /** The reply body: the token and the user's public fields. */
  datatype LegacyAuthBody = LegacyAuthBody(token: string, userId: string, email: string, role: string,
                                           firstName: string, lastName: string, customerId: nat)

  /** Which organisation a registration joins, before any write: the one it
      founds (`None` here, created next), the company with the trimmed
      invitation code, or an error. */
  datatype Choice = Found | Join(customerId: nat) | Refuse(status: int, message: string)

  function ChooseOrganisation(customers: seq<LegacyCustomer>, req: LegacyRegisterRequest): (c: Choice)
    ensures c.Found? <==> FoundsCompany(req)
    ensures c.Join? ==>
      && !FoundsCompany(req) && Truthy(req.invitationCode)
      && exists i :: 0 <= i < |customers| && customers[i].id == c.customerId
           && customers[i].invitationCode == Some(Trim(req.invitationCode.value)) && customers[i].customerType == Company
    ensures !FoundsCompany(req) && !Truthy(req.invitationCode) ==>
      c == Refuse(400, "Invitation code required for joining existing company")
  {
    if FoundsCompany(req) then Found
    else if Truthy(req.invitationCode) then
      match CompanyWithCode(customers, Trim(req.invitationCode.value))
      case None => Refuse(404, "Invalid invitation code or company not found")
      case Some(k) => Join(customers[k].id)
    else Refuse(400, "Invitation code required for joining existing company")
  }

  /** An individual without an invitation code can never register. */
  lemma IndividualNeedsCode(customers: seq<LegacyCustomer>, req: LegacyRegisterRequest)
    requires req.customerType == "individual" && !Truthy(req.invitationCode)
    ensures ChooseOrganisation(customers, req) == Refuse(400, "Invitation code required for joining existing company")
  {
  }

  /** `register`. Every failure other than a thrown `ApiError` is answered
      500, the schema's included. There is no transaction: when the user
      insert fails after a company was founded, the company row stays. */
  method Register(db: LegacyDb, req: LegacyRegisterRequest, now: int, userId: string,
                  hash: string -> string, sign: (string, string) -> string)
    returns (r: Reply<LegacyAuthBody>)
    requires db.Valid()
    modifies db
    ensures db.Valid()
    ensures !LegacyShaped(req) ==> r == Err(500, "Failed to register user") && unchanged(db)
    ensures LegacyShaped(req) && LegacyUserWithEmail(old(db.users), Lower(req.email)).Some? ==>
      r == Err(409, "Email already registered") && unchanged(db)
    ensures r.Ok? ==>
      && LegacyShaped(req) && LegacyUserWithEmail(old(db.users), Lower(req.email)).None?
      && LegacyUserWithId(old(db.users), userId).None?
      && var choice := ChooseOrganisation(old(db.customers), req);
      && !choice.Refuse?
      && var customerId := if choice.Found? then old(db.nextCustomerId) else choice.customerId;
      && r.status == 201
      && r.body == LegacyAuthBody(sign(userId, RoleOf(req)), userId, Lower(req.email), RoleOf(req),
                                  req.firstName, req.lastName, customerId)
      && db.users == old(db.users) + [NewLegacyUser(userId, customerId, Lower(req.email), req, hash(req.password))]
      && db.customers == (if choice.Found? then old(db.customers) + [FoundedCompany(customerId, Lower(req.email), req, now)]
                          else old(db.customers))
    ensures LegacyShaped(req) && ChooseOrganisation(old(db.customers), req).Refuse? &&
            LegacyUserWithEmail(old(db.users), Lower(req.email)).None? ==>
      var choice := ChooseOrganisation(old(db.customers), req);
      r == Err(choice.status, choice.message) && unchanged(db)
    ensures LegacyShaped(req) && LegacyUserWithEmail(old(db.users), Lower(req.email)).None? && FoundsCompany(req) ==>
      var clash := LegacyCustomerWithEmail(old(db.customers), Lower(req.email)).Some?;
      && (clash ==> r == Err(500, "Failed to register user") && unchanged(db))
      && (!clash && LegacyUserWithId(old(db.users), userId).Some? ==>
            && r == Err(500, "Failed to register user") && db.users == old(db.users)
            && db.customers == old(db.customers) + [FoundedCompany(old(db.nextCustomerId), Lower(req.email), req, now)])
    ensures
      (&& LegacyShaped(req) && LegacyUserWithEmail(old(db.users), Lower(req.email)).None?
       && !ChooseOrganisation(old(db.customers), req).Refuse?
       && (FoundsCompany(req) ==> LegacyCustomerWithEmail(old(db.customers), Lower(req.email)).None?)
       && LegacyUserWithId(old(db.users), userId).None?)
      ==> r.Ok?
    ensures
      (&& LegacyShaped(req) && LegacyUserWithEmail(old(db.users), Lower(req.email)).None?
       && ChooseOrganisation(old(db.customers), req).Join?
       && LegacyUserWithId(old(db.users), userId).Some?)
      ==> r == Err(500, "Failed to register user") && unchanged(db)
    ensures r.Err? && r.status == 500 ==> db.users == old(db.users)
    ensures r.Err? ==> |db.customers| <= |old(db.customers)| + 1
  {
    if !LegacyShaped(req) {
      return Err(500, "Failed to register user");
    }
    var key := Lower(req.email);
    if LegacyUserWithEmail(db.users, key).Some? {
      return Err(409, "Email already registered");
    }
    var customerId: nat;
    var choice := ChooseOrganisation(db.customers, req);
    if choice.Found? {
      if LegacyCustomerWithEmail(db.customers, key).Some? {
        return Err(500, "Failed to register user");
      }
      customerId := db.nextCustomerId;
      AppendLegacyCustomerOk(db.customers, db.nextCustomerId, FoundedCompany(customerId, key, req, now));
      db.customers := db.customers + [FoundedCompany(customerId, key, req, now)];
      db.nextCustomerId := db.nextCustomerId + 1;
    } else if choice.Join? {
      customerId := choice.customerId;
    } else {
      return Err(choice.status, choice.message);
    }
    var passwordHash := hash(req.password);
    if LegacyUserWithId(db.users, userId).Some? {
      return Err(500, "Failed to register user");
    }
    AppendLegacyUserOk(db.users, NewLegacyUser(userId, customerId, key, req, passwordHash));
    db.users := db.users + [NewLegacyUser(userId, customerId, key, req, passwordHash)];
    r := Ok(201, LegacyAuthBody(sign(userId, RoleOf(req)), userId, key, RoleOf(req), req.firstName, req.lastName, customerId));
  }

  // -------------------------------------------------------------------
  // Login

  /** The legacy login's outcome. The schema is parsed outside the `try`, so
      its error escapes the handler (`SchemaError`); inside, every failure,
      the 401s included, is answered 500. */
  datatype LegacyLoginResult = Issued(body: LegacyAuthBody) | Failed(status: int, message: string) | SchemaError

  function Login(users: seq<LegacyUser>, email: string, password: string,
                 verify: (string, string) -> bool, sign: (string, string) -> string): (r: LegacyLoginResult)
    ensures |password| < 8 <==> r == SchemaError
    ensures r.Failed? ==> r == Failed(500, "Failed to login")
    ensures r.Issued? <==>
      && |password| >= 8
      && var k := LegacyUserWithEmail(users, Lower(email));
      && k.Some? && verify(password, users[k.value].passwordHash)
    ensures r.Issued? ==> var u := users[LegacyUserWithEmail(users, Lower(email)).value];
      r.body == LegacyAuthBody(sign(u.userId, u.role), u.userId, u.email, u.role, u.firstName, u.lastName, u.customerId)
  {
    if |password| < 8 then SchemaError
    else match LegacyUserWithEmail(users, Lower(email))
      case None => Failed(500, "Failed to login")
      case Some(k) =>
        var u := users[k];
        if !verify(password, u.passwordHash) then Failed(500, "Failed to login")
        else Issued(LegacyAuthBody(sign(u.userId, u.role), u.userId, u.email, u.role, u.firstName, u.lastName, u.customerId))
  }

  /** Unknown address and wrong password cannot be told apart, and neither
      is a 401: both are the catch's 500. */
  lemma CredentialFailuresAre500(users: seq<LegacyUser>, email: string, password: string,
                                 verify: (string, string) -> bool, sign: (string, string) -> string)
    requires |password| >= 8
    requires LegacyUserWithEmail(users, Lower(email)).None? ||
             !verify(password, users[LegacyUserWithEmail(users, Lower(email)).value].passwordHash)
    ensures Login(users, email, password, verify, sign) == Failed(500, "Failed to login")
  {
  }

  /** A user registered through the legacy path logs in with the password
      it registered with, when the hash verifies its own password; the
      account's active flag is never consulted. */
  lemma {:induction false} RegisteredUserLogsIn(users: seq<LegacyUser>, u: LegacyUser, password: string,
                                                verify: (string, string) -> bool, sign: (string, string) -> string)
    requires LegacyUserWithEmail(users, u.email).None?
    requires Lower(u.email) == u.email && |password| >= 8 && verify(password, u.passwordHash)
    ensures Login(users + [u], u.email, password, verify, sign).Issued?
    ensures Login(users + [u], u.email, password, verify, sign).body.userId == u.userId
  {
    var all := users + [u];
    var k := LegacyUserWithEmail(all, u.email);
    assert all[|users|] == u;
    assert k.Some? && k.value == |users|;
  }
}
