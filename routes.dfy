/** The routers and the guard each route is given: the role allow-lists of
    `routes/admin.ts` and `routes/invitation.ts`, and the public and
    any-authenticated routes of the other routers. */
module Routes {
  import opened Common
  import opened Store
  import opened Credentials
  import opened AuthGuard

  /** A route is either public or guarded by `requireAuth(roles)`;
      `requireAuth()` and `requireAuth([])` are the empty list. */
  datatype Guard = Public | Authenticated(roles: seq<string>)

  datatype Router = AuthRouter | AdminRouter | VerificationRouter | LicenseRouter | InvitationRouter | DashboardRouter

  datatype Endpoint =
    | Login | Register | VerifyEmail | ResendCode | Profile | ChangePassword
    | PurchaseLicense | ListOrgLicenses | AdminPing
    | VerifyAlias | ResendAlias
    | ValidateLicense | ListLicenses
    | AcceptInvite | CreateInvite | ListInvites
    | DashboardStats

  const PurchaseRoles: seq<string> := ["admin", "user"]
  const AdminListRoles: seq<string> := ["admin", "user"]
  const PingRoles: seq<string> := ["admin"]
  const InviteRoles: seq<string> := ["admin", "owner"]
  const InviteListRoles: seq<string> := ["admin", "owner"]

  function RouterOf(e: Endpoint): Router {
    match e
    case Login | Register | VerifyEmail | ResendCode | Profile | ChangePassword => AuthRouter
    case PurchaseLicense | ListOrgLicenses | AdminPing => AdminRouter
    case VerifyAlias | ResendAlias => VerificationRouter
    case ValidateLicense | ListLicenses => LicenseRouter
    case AcceptInvite | CreateInvite | ListInvites => InvitationRouter
    case DashboardStats => DashboardRouter
  }

  function GuardOf(e: Endpoint): Guard {
    match e
    case Login | Register | VerifyEmail | ResendCode => Public
    case Profile | ChangePassword => Authenticated([])
    case PurchaseLicense => Authenticated(PurchaseRoles)
    case ListOrgLicenses => Authenticated(AdminListRoles)
    case AdminPing => Authenticated(PingRoles)
    case VerifyAlias | ResendAlias => Public
    case ValidateLicense => Public
    case ListLicenses => Authenticated([])
    case AcceptInvite => Public
    case CreateInvite => Authenticated(InviteRoles)
    case ListInvites => Authenticated(InviteListRoles)
    case DashboardStats => Authenticated([])
  }

  /** Where `server.ts` mounts each router; the dashboard router is never
      mounted, so its route cannot be reached. */
  function MountPath(r: Router): Option<string> {
    match r
    case AuthRouter => Some("/api/auth")
    case AdminRouter => Some("/api/admin")
    case VerificationRouter => Some("/api/verify")
    case LicenseRouter => Some("/api/v1/license")
    case InvitationRouter => Some("/api/invitations")
    case DashboardRouter => None
  }

  predicate Reachable(e: Endpoint) {
    MountPath(RouterOf(e)).Some?
  }

  /** The outcome of a request's guard: public routes run with no principal. */
  datatype Access = Open | Granted(principal: Principal) | Refused(status: int, message: string)

  function Admission(e: Endpoint, header: Option<string>, crypto: Crypto, users: seq<User>): (a: Access)
    ensures GuardOf(e).Public? <==> a.Open?
    ensures GuardOf(e).Authenticated? ==>
      match RequireAuth(GuardOf(e).roles, header, crypto, users)
      case Next(p) => a == Granted(p)
      case Deny(s, m) => a == Refused(s, m)
  {
    match GuardOf(e)
    case Public => Open
    case Authenticated(roles) =>
      match RequireAuth(roles, header, crypto, users)
      case Next(p) => Granted(p)
      case Deny(s, m) => Refused(s, m)
  }

  /** No route of the admin router is public, and each has a non-empty list. */
  lemma AdminRoutesGuarded(e: Endpoint)
    requires RouterOf(e) == AdminRouter
    ensures GuardOf(e).Authenticated? && |GuardOf(e).roles| > 0
  {
  }

  /** An owner is refused purchase and the organisation's license list. */
  lemma {:induction false} OwnerRefusedLicenseAdmin(header: Option<string>, crypto: Crypto, users: seq<User>, k: nat)
    requires Presents(header, crypto, users, k)
    requires users[k].isActive && users[k].role == OWNER
    ensures Admission(PurchaseLicense, header, crypto, users) == Refused(403, "Insufficient permissions")
    ensures Admission(ListOrgLicenses, header, crypto, users) == Refused(403, "Insufficient permissions")
  {
    RequireAuthAdmits(PurchaseRoles, header, crypto, users, k);
    RequireAuthAdmits(AdminListRoles, header, crypto, users, k);
  }

  /** Purchase and the license list admit exactly active admins and users. */
  lemma {:induction false} LicenseAdminAdmits(e: Endpoint, header: Option<string>, crypto: Crypto, users: seq<User>, k: nat)
    requires e == PurchaseLicense || e == ListOrgLicenses
    requires Presents(header, crypto, users, k)
    ensures Admission(e, header, crypto, users).Granted? <==>
      users[k].isActive && (users[k].role == ADMIN || users[k].role == USER)
  {
    RequireAuthAdmits(GuardOf(e).roles, header, crypto, users, k);
  }

  /** The ping route admits only admins, and answers `{ok: true, scope: 'admin'}`. */
  lemma {:induction false} PingAdminsOnly(header: Option<string>, crypto: Crypto, users: seq<User>, k: nat)
    requires Presents(header, crypto, users, k)
    ensures Admission(AdminPing, header, crypto, users).Granted? <==> users[k].isActive && users[k].role == ADMIN
  {
    RequireAuthAdmits(PingRoles, header, crypto, users, k);
  }

  datatype PingBody = PingBody(ok: bool, scope: string)

  function Ping(): (b: PingBody)
    ensures b.ok && b.scope == "admin"
  {
    PingBody(true, "admin")
  }

  /** Inviting and listing invitations admit exactly active admins and
      owners; a plain user gets 403 on both. */
  lemma {:induction false} InviteAdmits(e: Endpoint, header: Option<string>, crypto: Crypto, users: seq<User>, k: nat)
    requires e == CreateInvite || e == ListInvites
    requires Presents(header, crypto, users, k)
    ensures Admission(e, header, crypto, users).Granted? <==>
      users[k].isActive && (users[k].role == ADMIN || users[k].role == OWNER)
    ensures users[k].isActive && users[k].role == USER ==>
      Admission(e, header, crypto, users) == Refused(403, "Insufficient permissions")
  {
    RequireAuthAdmits(GuardOf(e).roles, header, crypto, users, k);
  }

  /** Accepting an invitation and validating a license need no token. */
  lemma PublicEndpoints(header: Option<string>, crypto: Crypto, users: seq<User>)
    ensures Admission(AcceptInvite, header, crypto, users) == Open
    ensures Admission(ValidateLicense, header, crypto, users) == Open
    ensures Admission(Register, header, crypto, users) == Open
    ensures Admission(Login, header, crypto, users) == Open
  {
  }

  /** Routes guarded by the empty list admit every active user, whatever
      the role; the dashboard route among them is not reachable at all. */
  lemma {:induction false} AnyAuthenticatedAdmits(e: Endpoint, header: Option<string>, crypto: Crypto, users: seq<User>, k: nat)
    requires e in {Profile, ChangePassword, ListLicenses, DashboardStats}
    requires Presents(header, crypto, users, k)
    ensures Admission(e, header, crypto, users).Granted? <==> users[k].isActive
    ensures Reachable(e) <==> e != DashboardStats
  {
    RequireAuthAdmits([], header, crypto, users, k);
  }
}
