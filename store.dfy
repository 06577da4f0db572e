/** The relational store behind the Prisma client: four tables (customers,
    users, licenses, invitations), each a sequence of rows in insertion
    order, with auto-increment counters and the unique indexes the schema
    declares. */
module Store {
  import opened Common

  /** The storage enum `Role` (`ADMIN`, `USER`, `OWNER`). */
  datatype Role = ADMIN | USER | OWNER

  datatype CustomerType = Company | Individual

  /** The `license_type` column: 'yearly', '3years' or 'floating'. */
  datatype PlanType = Yearly | ThreeYears | Floating

  datatype InviteStatus = Pending | Accepted

  /** The upper-case spelling Prisma returns for a stored role. */
  function StorageName(r: Role): (n: string)
    ensures |n| > 0
  {
    match r
    case ADMIN => "ADMIN"
    case USER => "USER"
    case OWNER => "OWNER"
  }

  /** The application's lower-case spelling of a role. */
  function AppName(r: Role): (n: string)
    ensures forall i :: 0 <= i < |n| ==> IsLower(n[i])
  {
    match r
    case ADMIN => "admin"
    case USER => "user"
    case OWNER => "owner"
  }

  lemma {:induction false} StorageNameLowered(r: Role)
    ensures Lower(StorageName(r)) == AppName(r)
  {
    match r
    case ADMIN =>
      assert Lower("ADMIN") == "admin";
    case USER =>
      assert Lower("USER") == "user";
    case OWNER =>
      assert Lower("OWNER") == "owner";
  }

  function PlanName(p: PlanType): string {
    match p
    case Yearly => "yearly"
    case ThreeYears => "3years"
    case Floating => "floating"
  }

  /** The request's `planType` string, if it is one of the enum's values. */
  function ParsePlan(s: string): (p: Option<PlanType>)
    ensures p.Some? <==> s in {"yearly", "3years", "floating"}
    ensures p.Some? ==> PlanName(p.value) == s
  {
    if s == "yearly" then Some(Yearly)
    else if s == "3years" then Some(ThreeYears)
    else if s == "floating" then Some(Floating)
    else None
  }

  datatype Customer = Customer(
    id: nat,
    email: string,
    firstName: string,
    lastName: string,
    phone: Option<string>,
    customerType: CustomerType,
    companyName: Option<string>,
    registrationDate: int)

  datatype User = User(
    id: nat,
    customerId: nat,
    email: string,
    passwordHash: string,
    firstName: string,
    lastName: string,
    role: Role,
    isActive: bool,
    isVerified: bool,
    verificationCode: Option<string>,
    verificationExpires: Option<int>,
    verificationAttempts: nat,
    lastVerificationSent: Option<int>)

  /** One seat: `pcUuid` is the machine it is bound to (falsy while unbound). */
  datatype License = License(
    id: nat,
    customerId: nat,
    key: string,
    planType: PlanType,
    seatNumber: int,
    issueDate: int,
    expiryDate: int,
    pcUuid: Option<string>,
    username: Option<string>,
    isActive: bool,
    isFree: int,
    lastActivity: Option<int>)

  datatype Invitation = Invitation(
    id: nat,
    email: string,
    token: string,
    inviterId: nat,
    customerId: nat,
    status: InviteStatus,
    expiresAt: int,
    createdAt: int)

  // -------------------------------------------------------------------
  // Lookups (findUnique on a unique column)

  function UserWithEmail(users: seq<User>, email: string): (r: Option<nat>)
    ensures r.Some? ==> r.value < |users| && users[r.value].email == email
    ensures r.None? ==> forall i :: 0 <= i < |users| ==> users[i].email != email
  {
    FindIndex(users, (u: User) => u.email == email)
  }

  function UserWithId(users: seq<User>, id: nat): (r: Option<nat>)
    ensures r.Some? ==> r.value < |users| && users[r.value].id == id
    ensures r.None? ==> forall i :: 0 <= i < |users| ==> users[i].id != id
  {
    FindIndex(users, (u: User) => u.id == id)
  }

  function CustomerWithId(customers: seq<Customer>, id: nat): (r: Option<nat>)
    ensures r.Some? ==> r.value < |customers| && customers[r.value].id == id
    ensures r.None? ==> forall i :: 0 <= i < |customers| ==> customers[i].id != id
  {
    FindIndex(customers, (c: Customer) => c.id == id)
  }

  function CustomerWithEmail(customers: seq<Customer>, email: string): (r: Option<nat>)
    ensures r.Some? ==> r.value < |customers| && customers[r.value].email == email
    ensures r.None? ==> forall i :: 0 <= i < |customers| ==> customers[i].email != email
  {
    FindIndex(customers, (c: Customer) => c.email == email)
  }

  function LicenseWithKey(licenses: seq<License>, key: string): (r: Option<nat>)
    ensures r.Some? ==> r.value < |licenses| && licenses[r.value].key == key
    ensures r.None? ==> forall i :: 0 <= i < |licenses| ==> licenses[i].key != key
  {
    FindIndex(licenses, (l: License) => l.key == key)
  }

  function InvitationWithToken(invitations: seq<Invitation>, token: string): (r: Option<nat>)
    ensures r.Some? ==> r.value < |invitations| && invitations[r.value].token == token
    ensures r.None? ==> forall i :: 0 <= i < |invitations| ==> invitations[i].token != token
  {
    FindIndex(invitations, (v: Invitation) => v.token == token)
  }

  predicate EmailTaken(users: seq<User>, email: string) {
    UserWithEmail(users, email).Some?
  }

  // -------------------------------------------------------------------
  // Table invariants: auto-increment ids and unique indexes

  /** A verified account carries no verification code, expiry or attempts. */
  predicate Cleared(u: User) {
    u.isVerified ==> u.verificationCode.None? && u.verificationExpires.None? && u.verificationAttempts == 0
  }

  ghost predicate UsersOk(users: seq<User>, next: nat) {
    && (forall i :: 0 <= i < |users| ==> 1 <= users[i].id < next && Cleared(users[i]))
    && (forall i, j :: 0 <= i < j < |users| ==> users[i].id != users[j].id && users[i].email != users[j].email)
  }

  ghost predicate CustomersOk(customers: seq<Customer>, next: nat) {
    && (forall i :: 0 <= i < |customers| ==> 1 <= customers[i].id < next)
    && (forall i, j :: 0 <= i < j < |customers| ==> customers[i].id != customers[j].id && customers[i].email != customers[j].email)
  }

  ghost predicate LicensesOk(licenses: seq<License>, next: nat) {
    && (forall i :: 0 <= i < |licenses| ==> 1 <= licenses[i].id < next)
    && (forall i, j :: 0 <= i < j < |licenses| ==> licenses[i].id != licenses[j].id && licenses[i].key != licenses[j].key)
  }

  ghost predicate InvitationsOk(invitations: seq<Invitation>, next: nat) {
    && (forall i :: 0 <= i < |invitations| ==> 1 <= invitations[i].id < next)
    && (forall i, j :: 0 <= i < j < |invitations| ==> invitations[i].id != invitations[j].id && invitations[i].token != invitations[j].token)
  }

  lemma AppendUserOk(users: seq<User>, next: nat, u: User)
    requires UsersOk(users, next) && u.id == next >= 1 && Cleared(u) && !EmailTaken(users, u.email)
    ensures UsersOk(users + [u], next + 1)
  {
  }

  lemma AppendCustomerOk(customers: seq<Customer>, next: nat, c: Customer)
    requires CustomersOk(customers, next) && c.id == next >= 1 && CustomerWithEmail(customers, c.email).None?
    ensures CustomersOk(customers + [c], next + 1)
  {
  }

  lemma ReplaceCustomerOk(customers: seq<Customer>, next: nat, k: nat, c: Customer)
    requires CustomersOk(customers, next) && k < |customers|
    requires c.id == customers[k].id && c.email == customers[k].email
    ensures CustomersOk(customers[k := c], next)
  {
  }

  lemma ReplaceUserOk(users: seq<User>, next: nat, k: nat, u: User)
    requires UsersOk(users, next) && k < |users| && Cleared(u)
    requires u.id == users[k].id && u.email == users[k].email
    ensures UsersOk(users[k := u], next)
  {
  }

  lemma {:induction false} RemoveUserOk(users: seq<User>, next: nat, k: nat)
    requires UsersOk(users, next) && k < |users|
    ensures UsersOk(users[..k] + users[k + 1..], next)
  {
    var r := users[..k] + users[k + 1..];
    forall i, j | 0 <= i < j < |r|
      ensures r[i].id != r[j].id && r[i].email != r[j].email
    {
      var i' := if i < k then i else i + 1;
      var j' := if j < k then j else j + 1;
      assert r[i] == users[i'] && r[j] == users[j'];
    }
  }

  /** The store. Handlers are sequential; each method below that changes it
      stands for one request's writes. */
  class Db {
    var customers: seq<Customer>
    var users: seq<User>
    var licenses: seq<License>
    var invitations: seq<Invitation>
    var nextCustomerId: nat
    var nextUserId: nat
    var nextLicenseId: nat
    var nextInvitationId: nat

    ghost predicate Valid()
      reads this
    {
      && 1 <= nextCustomerId && 1 <= nextUserId && 1 <= nextLicenseId && 1 <= nextInvitationId
      && CustomersOk(customers, nextCustomerId)
      && UsersOk(users, nextUserId)
      && LicensesOk(licenses, nextLicenseId)
      && InvitationsOk(invitations, nextInvitationId)
    }

    constructor ()
      ensures Valid()
      ensures customers == [] && users == [] && licenses == [] && invitations == []
    {
      customers, users, licenses, invitations := [], [], [], [];
      nextCustomerId, nextUserId, nextLicenseId, nextInvitationId := 1, 1, 1, 1;
    }
  }
}
