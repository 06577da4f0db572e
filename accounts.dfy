/** `authController.ts`: registration (a new account, or a "smart overwrite"
    of an unverified one), login, password change and the profile. */
module Accounts {
  import opened Common
  import opened Store
  import opened Credentials
  import opened AuthGuard

  // -------------------------------------------------------------------
  // Registration

  /** The registration body; optional fields that are absent are `None`. */
  datatype RegisterRequest = RegisterRequest(
    email: string,
    password: string,
    firstName: string,
    lastName: string,
    phone: Option<string>,
    customerType: string,
    role: Option<string>,
    companyName: Option<string>)

  /** The schema's explicit rules: password of 8 or more, non-empty names,
      a known customer type and, when present, a known role. */
  predicate RegisterShaped(req: RegisterRequest) {
    && |req.password| >= 8
    && |req.firstName| >= 1
    && |req.lastName| >= 1
    && req.customerType in {"company", "individual"}
    && (req.role.None? || req.role.value in {"admin", "user", "owner"})
  }

  /** The request's role mapped to storage: admin and owner map to
      themselves, anything else (including the default) to USER. */
  function RoleFor(role: Option<string>): (r: Role)
    ensures role == Some("admin") <==> r == ADMIN
    ensures role == Some("owner") <==> r == OWNER
  {
    if role == Some("admin") then ADMIN else if role == Some("owner") then OWNER else USER
  }

  /** Every role the schema accepts comes back under its own name, and the
      default is 'user'. */
  lemma {:induction false} RoleForRoundTrip(role: Option<string>)
    requires role.None? || role.value in {"admin", "user", "owner"}
    ensures AppName(RoleFor(role)) == if role.None? then "user" else role.value
  {
    if role.Some? {
      assert role.value == "admin" || role.value == "user" || role.value == "owner";
    }
  }

  function CustomerTypeFor(t: string): CustomerType {
    if t == "company" then Company else Individual
  }

  /** `phone || null`. */
  function PhoneFor(req: RegisterRequest): (p: Option<string>)
    ensures p.Some? <==> Truthy(req.phone)
    ensures p.Some? ==> p == req.phone
  {
    if Truthy(req.phone) then req.phone else None
  }

  /** The company name is kept only for a company with a non-empty name. */
  function CompanyNameFor(req: RegisterRequest): (n: Option<string>)
    ensures n.Some? <==> req.customerType == "company" && Truthy(req.companyName)
    ensures n.Some? ==> n == req.companyName
  {
    if req.customerType == "company" && Truthy(req.companyName) then req.companyName else None
  }

  /** The overwritten user row: hash, names and a fresh code; e-mail, role,
      organisation and the flags are kept. */
  function Overwritten(u: User, req: RegisterRequest, hash: string, code: string, now: int): User {
    u.(passwordHash := hash, firstName := req.firstName, lastName := req.lastName,
       verificationCode := Some(code), verificationExpires := Some(now + CodeLifetime), verificationAttempts := 0)
  }

  /** The owning customer row after an overwrite. */
  function Refreshed(c: Customer, req: RegisterRequest): Customer {
    c.(firstName := req.firstName, lastName := req.lastName, phone := PhoneFor(req), companyName := CompanyNameFor(req))
  }

  function NewCustomer(id: nat, email: string, req: RegisterRequest, now: int): Customer {
    Customer(id, email, req.firstName, req.lastName, PhoneFor(req), CustomerTypeFor(req.customerType),
             CompanyNameFor(req), now)
  }

  /** A fresh, unverified, active account with a code valid for 15 minutes. */
  function NewUser(id: nat, customerId: nat, email: string, req: RegisterRequest, hash: string, code: string, now: int): User {
    User(id, customerId, email, hash, req.firstName, req.lastName, RoleFor(req.role), true, false,
         Some(code), Some(now + CodeLifetime), 0, None)
  }

  /** The overwrite writes only hash, names and code fields of the user. */
  lemma OverwriteKeepsIdentity(u: User, req: RegisterRequest, hash: string, code: string, now: int)
    ensures var w := Overwritten(u, req, hash, code, now);
      && w.id == u.id && w.email == u.email && w.role == u.role && w.customerId == u.customerId
      && w.isVerified == u.isVerified && w.isActive == u.isActive
      && w.verificationAttempts == 0 && w.verificationExpires == Some(now + CodeLifetime)
  {
  }

  /** The outcome of `register`'s transaction: a rejection (nothing
      written), or the tables and counters it commits. */
  datatype Transaction =
    | Rejected(status: int, message: string)
    | Committed(users: seq<User>, customers: seq<Customer>, nextUserId: nat, nextCustomerId: nat)

  /** The transaction on the lowercased e-mail: an existing verified account
      is a 409; an existing unverified one is overwritten together with its
      customer (a missing customer makes the update throw: 500); otherwise a
      customer and then a user are created (a customer e-mail already taken
      breaks the unique index: 500). */
  function RegisterTransaction(users: seq<User>, customers: seq<Customer>, nextUserId: nat, nextCustomerId: nat,
                               req: RegisterRequest, hash: string, code: string, now: int): (t: Transaction)
    ensures t.Committed? ==> |t.users| >= |users| && |t.customers| >= |customers|
    ensures t.Committed? && UserWithEmail(users, Lower(req.email)).Some? ==>
      |t.users| == |users| && |t.customers| == |customers| && t.nextUserId == nextUserId
    ensures t.Committed? && UserWithEmail(users, Lower(req.email)).None? ==>
      t.users == users + [NewUser(nextUserId, nextCustomerId, Lower(req.email), req, hash, code, now)]
      && t.customers == customers + [NewCustomer(nextCustomerId, Lower(req.email), req, now)]
  {
    var email := Lower(req.email);
    match UserWithEmail(users, email)
    case Some(k) =>
      var u := users[k];
      if u.isVerified then Rejected(409, "User already exists")
      else (match CustomerWithId(customers, u.customerId)
        case None => Rejected(500, "Registration failed")
        case Some(c) =>
          Committed(users[k := Overwritten(u, req, hash, code, now)],
                    customers[c := Refreshed(customers[c], req)], nextUserId, nextCustomerId))
    case None =>
      if CustomerWithEmail(customers, email).Some? then Rejected(500, "Registration failed")
      else
        Committed(users + [NewUser(nextUserId, nextCustomerId, email, req, hash, code, now)],
                  customers + [NewCustomer(nextCustomerId, email, req, now)], nextUserId + 1, nextCustomerId + 1)
  }

  /** A verified account cannot be registered again, and is left alone. */
  lemma VerifiedAccountConflicts(users: seq<User>, customers: seq<Customer>, nu: nat, nc: nat,
                                 req: RegisterRequest, hash: string, code: string, now: int, k: nat)
    requires UserWithEmail(users, Lower(req.email)) == Some(k) && users[k].isVerified
    ensures RegisterTransaction(users, customers, nu, nc, req, hash, code, now) == Rejected(409, "User already exists")
  {
  }

  /** Smart overwrite: no row is added; the user keeps id, e-mail, role,
      organisation and flags, gets the new hash, names and a fresh code; its
      customer gets the new names, phone and company name. */
  lemma {:induction false} OverwriteInPlace(users: seq<User>, customers: seq<Customer>, nu: nat, nc: nat,
                                            req: RegisterRequest, hash: string, code: string, now: int, k: nat, c: nat)
    requires UserWithEmail(users, Lower(req.email)) == Some(k) && !users[k].isVerified
    requires CustomerWithId(customers, users[k].customerId) == Some(c)
    ensures var t := RegisterTransaction(users, customers, nu, nc, req, hash, code, now);
      && t.Committed? && t.nextUserId == nu && t.nextCustomerId == nc
      && t.users == users[k := Overwritten(users[k], req, hash, code, now)]
      && t.customers == customers[c := Refreshed(customers[c], req)]
      && t.users[k].id == users[k].id && t.users[k].email == users[k].email && t.users[k].role == users[k].role
      && t.users[k].customerId == users[k].customerId && !t.users[k].isVerified
      && t.users[k].passwordHash == hash && t.users[k].verificationCode == Some(code)
      && t.users[k].verificationAttempts == 0
  {
  }

  /** A new registration adds one customer and one unverified, active user
      that belongs to it. */
  lemma {:induction false} CreateAccount(users: seq<User>, customers: seq<Customer>, nu: nat, nc: nat,
                                         req: RegisterRequest, hash: string, code: string, now: int)
    requires UserWithEmail(users, Lower(req.email)).None? && CustomerWithEmail(customers, Lower(req.email)).None?
    ensures var t := RegisterTransaction(users, customers, nu, nc, req, hash, code, now);
      && t.Committed? && t.nextUserId == nu + 1 && t.nextCustomerId == nc + 1
      && var u := t.users[|users|];
      && var c := t.customers[|customers|];
      && u.customerId == c.id && u.email == c.email == Lower(req.email)
      && !u.isVerified && u.isActive && u.role == RoleFor(req.role)
      && u.verificationExpires == Some(now + CodeLifetime)
  {
  }

  /** The overwrite's two updates: the user row, then its customer row. */
  method OverwriteAccount(db: Db, k: nat, c: nat, req: RegisterRequest, hash: string, code: string, now: int)
    requires db.Valid()
    requires k < |db.users| && !db.users[k].isVerified
    requires c < |db.customers|
    modifies db
    ensures db.Valid()
    ensures db.users == old(db.users)[k := Overwritten(old(db.users)[k], req, hash, code, now)]
    ensures db.customers == old(db.customers)[c := Refreshed(old(db.customers)[c], req)]
    ensures db.licenses == old(db.licenses) && db.invitations == old(db.invitations)
    ensures db.nextUserId == old(db.nextUserId) && db.nextCustomerId == old(db.nextCustomerId)
    ensures db.nextLicenseId == old(db.nextLicenseId) && db.nextInvitationId == old(db.nextInvitationId)
  {
    var w := Overwritten(db.users[k], req, hash, code, now);
    var cu := Refreshed(db.customers[c], req);
    ReplaceUserOk(db.users, db.nextUserId, k, w);
    ReplaceCustomerOk(db.customers, db.nextCustomerId, c, cu);
    db.users := db.users[k := w];
    db.customers := db.customers[c := cu];
  }

  /** A new registration's two inserts: the customer, then its user. */
  method InsertAccount(db: Db, email: string, req: RegisterRequest, hash: string, code: string, now: int)
    requires db.Valid()
    requires UserWithEmail(db.users, email).None? && CustomerWithEmail(db.customers, email).None?
    modifies db
    ensures db.Valid()
    ensures db.customers == old(db.customers) + [NewCustomer(old(db.nextCustomerId), email, req, now)]
    ensures db.users == old(db.users) + [NewUser(old(db.nextUserId), old(db.nextCustomerId), email, req, hash, code, now)]
    ensures db.nextUserId == old(db.nextUserId) + 1 && db.nextCustomerId == old(db.nextCustomerId) + 1
    ensures db.licenses == old(db.licenses) && db.invitations == old(db.invitations)
    ensures db.nextLicenseId == old(db.nextLicenseId) && db.nextInvitationId == old(db.nextInvitationId)
  {
    var customer := NewCustomer(db.nextCustomerId, email, req, now);
    AppendCustomerOk(db.customers, db.nextCustomerId, customer);
    db.customers := db.customers + [customer];
    db.nextCustomerId := db.nextCustomerId + 1;
    var user := NewUser(db.nextUserId, customer.id, email, req, hash, code, now);
    AppendUserOk(db.users, db.nextUserId, user);
    db.users := db.users + [user];
    db.nextUserId := db.nextUserId + 1;
  }

  /** `register`. The schema is checked first (400 with no writes); then the
      transaction runs. The e-mail is sent after the commit: if that call
      throws (`delivery`), the reply is 500 but the rows stay. */
  method Register(db: Db, req: RegisterRequest, crypto: Crypto, r: real, now: int, delivery: SendResult)
    returns (reply: Reply<string>)
    requires db.Valid()
    requires 0.0 <= r < 1.0
    modifies db
    ensures db.Valid()
    ensures db.licenses == old(db.licenses) && db.invitations == old(db.invitations)
    ensures !RegisterShaped(req) ==>
      reply == Err(400, "Invalid input data") && unchanged(db)
    ensures RegisterShaped(req) ==>
      var t := RegisterTransaction(old(db.users), old(db.customers), old(db.nextUserId), old(db.nextCustomerId),
                                   req, crypto.hash(req.password), GenerateVerificationCode(r), now);
      && (t.Rejected? ==> reply == Err(t.status, t.message) && unchanged(db))
      && (t.Committed? ==>
            && db.users == t.users && db.customers == t.customers
            && db.nextUserId == t.nextUserId && db.nextCustomerId == t.nextCustomerId
            && reply == if delivery == Threw then Err(500, "Failed to send verification email. Please try again.")
                        else Ok(200, Lower(req.email)))
  {
    if !RegisterShaped(req) {
      return Err(400, "Invalid input data");
    }
    var email := Lower(req.email);
    var k := UserWithEmail(db.users, email);
    if k.Some? {
      var u := db.users[k.value];
      if u.isVerified {
        return Err(409, "User already exists");
      }
      var hash := crypto.hash(req.password);
      var code := GenerateVerificationCode(r);
      var c := CustomerWithId(db.customers, u.customerId);
      if c.None? {
        return Err(500, "Registration failed");
      }
      OverwriteAccount(db, k.value, c.value, req, hash, code, now);
    } else {
      var hash := crypto.hash(req.password);
      if CustomerWithEmail(db.customers, email).Some? {
        return Err(500, "Registration failed");
      }
      var code := GenerateVerificationCode(r);
      InsertAccount(db, email, req, hash, code, now);
    }
    if delivery == Threw {
      return Err(500, "Failed to send verification email. Please try again.");
    }
    reply := Ok(200, email);
  }

  /** With the mail utility as written the awaited call always returns, so
      the e-mail failure branch of registration is never taken. */
  lemma RegisterDeliveryReturns(email: string, code: string, transportFails: bool)
    ensures SendVerificationCode(email, code, transportFails) != Threw
  {
  }

  // -------------------------------------------------------------------
  // Login

  /** The login reply: the token and the user's public fields. */
  datatype LoginBody = LoginBody(token: string, id: nat, email: string, firstName: string, lastName: string,
                                 role: string, customerId: nat)

  /** The claims signed for a user: id, lower-case role, e-mail, organisation. */
  function ClaimsOf(u: User): Claims {
    Claims(u.id, AppName(u.role), u.email, u.customerId)
  }

  /** `login`: unknown e-mail 401, unverified 403, inactive 403, wrong
      password 401, in that order; the schema only requires a non-empty
      password. */
  function Login(users: seq<User>, email: string, password: string, crypto: Crypto): (r: Reply<LoginBody>)
    ensures |password| == 0 ==> r == Err(400, "Invalid email or password format")
    ensures |password| >= 1 && UserWithEmail(users, Lower(email)).None? ==> r == Err(401, "Invalid email or password")
    ensures r.Ok? <==>
      && |password| >= 1
      && var k := UserWithEmail(users, Lower(email));
      && k.Some? && users[k.value].isVerified && users[k.value].isActive
      && crypto.matches(password, users[k.value].passwordHash)
    ensures r.Ok? ==> var u := users[UserWithEmail(users, Lower(email)).value];
      r.body == LoginBody(crypto.sign(ClaimsOf(u)), u.id, u.email, u.firstName, u.lastName, AppName(u.role), u.customerId)
  {
    if |password| == 0 then Err(400, "Invalid email or password format")
    else match UserWithEmail(users, Lower(email))
      case None => Err(401, "Invalid email or password")
      case Some(k) =>
        var u := users[k];
        if !u.isVerified then Err(403, "Please verify your email first")
        else if !u.isActive then Err(403, "Account is deactivated")
        else if !crypto.matches(password, u.passwordHash) then Err(401, "Invalid email or password")
        else
          StorageNameLowered(u.role);
          Ok(200, LoginBody(crypto.sign(ClaimsOf(u)), u.id, u.email, u.firstName, u.lastName,
                            Lower(StorageName(u.role)), u.customerId))
  }

  /** The order of the login rejections for a known, non-empty password. */
  lemma LoginRejections(users: seq<User>, k: nat, email: string, password: string, crypto: Crypto)
    requires |password| >= 1 && UserWithEmail(users, Lower(email)) == Some(k)
    ensures !users[k].isVerified ==> Login(users, email, password, crypto) == Err(403, "Please verify your email first")
    ensures users[k].isVerified && !users[k].isActive ==>
      Login(users, email, password, crypto) == Err(403, "Account is deactivated")
    ensures users[k].isVerified && users[k].isActive && !crypto.matches(password, users[k].passwordHash) ==>
      Login(users, email, password, crypto) == Err(401, "Invalid email or password")
  {
  }

  /** With unique ids, the stored user with a given id is found at its index. */
  lemma {:induction false} UserWithIdUnique(users: seq<User>, next: nat, k: nat)
    requires UsersOk(users, next) && k < |users|
    ensures UserWithId(users, users[k].id) == Some(k)
  {
  }

  /** The token a login returns gets past `requireAuth` with an empty list,
      attaching exactly the principal of the user who logged in. */
  lemma {:induction false} LoginTokenPassesGuard(users: seq<User>, next: nat, email: string, password: string, crypto: Crypto)
    requires Sound(crypto) && UsersOk(users, next)
    requires Login(users, email, password, crypto).Ok?
    ensures var k := UserWithEmail(users, Lower(email)).value;
      RequireAuth([], Some("Bearer " + Login(users, email, password, crypto).body.token), crypto, users)
        == Next(PrincipalOf(users[k]))
  {
    var k := UserWithEmail(users, Lower(email)).value;
    var token := Login(users, email, password, crypto).body.token;
    BearerHeaderYieldsToken(token);
    assert crypto.verify(crypto.sign(ClaimsOf(users[k]))) == Some(ClaimsOf(users[k]));
    UserWithIdUnique(users, next, k);
    assert TokenSubject(token, crypto, users) == Some(k);
  }

  // -------------------------------------------------------------------
  // Password change and profile

  /** `changePassword`: schema (current non-empty, new of 8 or more) 400,
      no user id 401, unknown user 404, wrong current password 400; on
      success only the hash changes. */
  method ChangePassword(db: Db, ctx: Option<Principal>, current: string, newPassword: string, crypto: Crypto)
    returns (r: Reply<string>)
    requires db.Valid()
    modifies db
    ensures db.Valid()
    ensures db.customers == old(db.customers) && db.licenses == old(db.licenses) && db.invitations == old(db.invitations)
    ensures |current| == 0 || |newPassword| < 8 ==> r == Err(400, "Invalid password format") && db.users == old(db.users)
    ensures |current| >= 1 && |newPassword| >= 8 && UserIdOf(ctx).None? ==>
      r == Err(401, "Unauthorized") && db.users == old(db.users)
    ensures |current| >= 1 && |newPassword| >= 8 && UserIdOf(ctx).Some? ==>
      var k := UserWithId(old(db.users), UserIdOf(ctx).value);
      && (k.None? ==> r == Err(404, "User not found"))
      && (k.Some? && !crypto.matches(current, old(db.users)[k.value].passwordHash) ==>
            r == Err(400, "Invalid current password"))
    ensures r.Ok? <==>
      && |current| >= 1 && |newPassword| >= 8 && UserIdOf(ctx).Some?
      && var k := UserWithId(old(db.users), UserIdOf(ctx).value);
      && k.Some? && crypto.matches(current, old(db.users)[k.value].passwordHash)
    ensures r.Ok? ==>
      var k := UserWithId(old(db.users), UserIdOf(ctx).value).value;
      db.users == old(db.users)[k := old(db.users)[k].(passwordHash := crypto.hash(newPassword))]
    ensures !r.Ok? ==> db.users == old(db.users)
  {
    if |current| == 0 || |newPassword| < 8 {
      return Err(400, "Invalid password format");
    }
    var userId := UserIdOf(ctx);
    if userId.None? {
      return Err(401, "Unauthorized");
    }
    var k := UserWithId(db.users, userId.value);
    if k.None? {
      return Err(404, "User not found");
    }
    var u := db.users[k.value];
    if !crypto.matches(current, u.passwordHash) {
      return Err(400, "Invalid current password");
    }
    var updated := u.(passwordHash := crypto.hash(newPassword));
    ReplaceUserOk(db.users, db.nextUserId, k.value, updated);
    db.users := db.users[k.value := updated];
    r := Ok(200, "Password updated successfully");
  }

  /** After a password change, a verified, active user whose stored e-mail is
      lower-case logs in with the new password. */
  lemma {:induction false} NewPasswordLogsIn(users: seq<User>, next: nat, k: nat, newPassword: string, crypto: Crypto)
    requires Sound(crypto) && UsersOk(users, next) && k < |users|
    requires users[k].isVerified && users[k].isActive && Lower(users[k].email) == users[k].email
    requires |newPassword| >= 8
    ensures Login(users[k := users[k].(passwordHash := crypto.hash(newPassword))], users[k].email, newPassword, crypto).Ok?
  {
    var updated := users[k := users[k].(passwordHash := crypto.hash(newPassword))];
    assert updated[k].email == users[k].email;
    var j := UserWithEmail(updated, users[k].email);
    assert j.Some?;
    assert updated[j.value].email == users[j.value].email;
    assert crypto.matches(newPassword, crypto.hash(newPassword));
  }

  datatype Profile = Profile(id: nat, email: string, firstName: string, lastName: string, role: string,
                             customerId: nat, companyName: Option<string>)

  /** `getProfile` for the principal the guard attached: the stored user's
      fields, the lower-case role and the organisation's company name. A
      user whose customer row is missing gets no company name here; the
      source would throw on it, but the foreign key on `customerId` rules
      that state out of the database. */
  function GetProfile(users: seq<User>, customers: seq<Customer>, ctx: Principal): (r: Reply<Profile>)
    ensures r.Err? <==> UserWithId(users, ctx.userId).None?
    ensures r.Err? ==> r == Err(404, "User not found")
    ensures r.Ok? ==>
      var u := users[UserWithId(users, ctx.userId).value];
      && r.body.id == ctx.userId && r.body.email == u.email && r.body.role == AppName(u.role)
      && r.body.firstName == u.firstName && r.body.lastName == u.lastName
      && r.body.customerId == u.customerId
      && r.body.companyName == (match At(customers, CustomerWithId(customers, u.customerId))
                               case Some(c) => c.companyName
                               case None => None)
  {
    match UserWithId(users, ctx.userId)
    case None => Err(404, "User not found")
    case Some(k) =>
      var u := users[k];
      var c := CustomerWithId(customers, u.customerId);
      StorageNameLowered(u.role);
      Ok(200, Profile(u.id, u.email, u.firstName, u.lastName, Lower(StorageName(u.role)), u.customerId,
                      if c.Some? then customers[c.value].companyName else None))
  }
}
