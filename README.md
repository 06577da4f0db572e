# powerflow-portal, modelled in Dafny

This project models the back end of the powerflow-portal license portal and
two of its front-end validators. The portal sells software licenses to
organisations ("customers"): an owner or admin registers, verifies the
account's e-mail with a four-digit code, buys seats, and invites colleagues.
A desktop application then validates a seat's license key and binds it to one
machine on first use.

Each core source file is one module:

| module | file | what it covers |
|---|---|---|
| `Common` | `common.dfy` | `Option`, the handler `Reply` (status and body, or status and message), JavaScript truthiness, `toLowerCase`, `trim`, `replace`, order-preserving filter |
| `Ordering` | `ordering.dfy` | a stable descending sort (the `ORDER BY … DESC` of a query, and `Array.prototype.sort` followed by `[0]`) |
| `Store` | `store.dfy` | the relational store as a class `Db` with four tables (customers, users, licenses, invitations), their unique indexes and id counters |
| `Credentials` | `credentials.dfy` | bcrypt and jsonwebtoken as function values, and the verification-code utilities |
| `AuthGuard` | `auth_guard.dfy` | the `requireAuth(roles)` middleware |
| `Routes` | `routes.dfy` | which guard each route has and which routers are mounted |
| `Licenses` | `licenses.dfy` | purchase, validation with machine binding, and the organisation's license list |
| `Dashboard` | `dashboard.dfy` | the dashboard figures |
| `Verification` | `verification.dfy` | verifying a code and resending one |
| `Accounts` | `accounts.dfy` | registration (with the "smart overwrite" of unverified accounts), login, password change, profile |
| `Invitations` | `invitations.dfy` | inviting, listing pending invitations, accepting |
| `Users` | `users.dfy` | an organisation's member management |
| `AdminUsers` | `admin_users.dfy` | the administrators' user list |
| `LegacyCompany` | `legacy_company.dfy` | the legacy knex registration and login, with a separate `LegacyDb` |
| `PasswordStrength` | `password_strength.dfy` | the strength meter shown under the password field |
| `RegisterSchema` | `register_schema.dfy` | the registration form's rules, including the phone-number pattern |

Handlers that change the store are methods on a `Db` (or a `LegacyDb`).
Each one states, in its `ensures`, the whole reply and the new tables. Most
of them do so through a pure function of the old state (`ValidateStep`,
`VerifyOutcome`, `ResendOutcome`, `RegisterTransaction`), and the lemmas
about the handler are stated against that function. Read-only handlers are
functions.

Every error path is modelled with its status and message. A `throw` that the
handler's own `catch` turns into another status is modelled with the status
that reaches the client. Examples: a missing organisation id in
`userController.ts` gives 500, not 401, and so do the legacy login's 401s.
A unique-index violation makes the write throw. It is modelled as the
handler's 500 with nothing written.

Things the code cannot see are parameters:
- the clock is `now`, in milliseconds;
- the `Math.random` draw is `r` in [0, 1);
- `uuidv4`, `randomUUID` and the license-key generator are `token`, `userId` and `mint`;
- calendar addition is `addYears` / `addDays`, assumed only to move time forward (`MovesForward`) where a lemma needs that;
- bcrypt and jsonwebtoken are a `Crypto` value, assumed `Sound` where a lemma needs it;
- whether the mail transport fails is an argument.

Notes on the code's behaviour, which the model reproduces:
- `acceptInvite` writes the user and the invitation status in two separate writes, not in one transaction.
- `inviteUser` looks up the e-mail exactly as given, not lowercased.
- A missing organisation id drops the organisation filter from the pending-invitation query and from the `deleteUser` filter, because Prisma ignores `undefined` in a `where`.
- The legacy `register` answers 500 for a schema failure. The legacy `login`'s schema failure escapes the handler.

## Model

| member | source | states |
|---|---|---|
| Common.Lower | backend/src/controllers/authController.ts:38 | the lowercased address has the same length, each ASCII capital replaced by its small letter, and no capital left |
| Common.Trim | backend/src/controllers/companyController.ts:67 | the trimmed code neither starts nor ends with JavaScript white space |
| Common.ReplaceFirst | backend/src/middlewares/auth.ts:9 | `replace` with a string pattern changes nothing when the pattern does not occur |
| Common.ReplaceFirstOfPrefix | backend/src/middlewares/auth.ts:9 | removing the first `pat` from `pat + rest` leaves `rest` |
| Ordering.SortDesc | backend/src/controllers/licenseController.ts:174-177 | the result is sorted by descending key and is a permutation of the input |
| Ordering.InsertKeepsSorted | backend/src/controllers/licenseController.ts:174-177 | inserting into a descending list keeps it descending |
| Ordering.InsertKeepsElements | backend/src/controllers/licenseController.ts:174-177 | insertion adds exactly one occurrence of the element |
| Ordering.FirstMaxIndex | backend/src/controllers/dashboardController.ts:38-40 | the position holds a greatest key, and every earlier element has a strictly smaller key |
| Ordering.SortDescHeadIsFirstMax | backend/src/controllers/dashboardController.ts:38-40 | after the stable descending sort, element 0 is the first element of greatest key |
| Store.StorageNameLowered | backend/src/middlewares/auth.ts:32 | lowercasing the stored enum name gives the application's role name |
| Store.ParsePlan | backend/src/controllers/licenseController.ts:9-13 | a plan parses exactly when it is 'yearly', '3years' or 'floating', and its name round-trips |
| Store.UserWithEmail | backend/src/controllers/authController.ts:41-43 | the index found holds the address, and no row holds it when none is found |
| Store.UserWithId | backend/src/middlewares/auth.ts:18-20 | the index found holds the id, and no row holds it when none is found |
| Store.CustomerWithId | backend/src/controllers/dashboardController.ts:46-49 | the index found holds the id, and no row holds it when none is found |
| Store.CustomerWithEmail | backend/src/controllers/authController.ts:94-104 | the index found holds the address, and no row holds it when none is found |
| Store.LicenseWithKey | backend/src/controllers/licenseController.ts:110-112 | the index found holds the key, and no row holds it when none is found |
| Store.InvitationWithToken | backend/src/controllers/invitationController.ts:122-124 | the index found holds the token, and no row holds it when none is found |
| Store.AppendUserOk | backend/src/controllers/userController.ts:28-39 | appending a user with the next id and an unused address keeps ids and addresses unique |
| Store.RemoveUserOk | backend/src/controllers/userController.ts:87-92 | deleting a row keeps ids and addresses unique |
| Credentials.GenerateVerificationCode | backend/src/utils/verification.ts:6-8 | the code is four decimal digits whose value lies in 1000..9999 |
| Credentials.DecimalRoundTrip | backend/src/utils/verification.ts:6-8 | reading back the decimal spelling of n gives n |
| Credentials.FourDigitLength | backend/src/utils/verification.ts:6-8 | numbers 1000..9999 are spelled with four digits |
| Credentials.ValidateVerificationCode | backend/src/utils/verification.ts:51-57 | a code is accepted exactly when it equals the stored one and the expiry has not passed |
| Credentials.ExpiredCodeRejected | backend/src/utils/verification.ts:10-12 | once the expiry has passed, no input is accepted |
| Credentials.SendVerificationCode | backend/src/utils/verification.ts:14-49 | the transport's failure is caught, so the call always returns |
| AuthGuard.PrincipalOf | backend/src/middlewares/auth.ts:32-40 | the principal carries the stored id, e-mail and organisation, and the lowercased role |
| AuthGuard.ExtractToken | backend/src/middlewares/auth.ts:9 | a token is present exactly when the header is |
| AuthGuard.BearerHeaderYieldsToken | backend/src/middlewares/auth.ts:9 | `Bearer <t>` yields `t` |
| AuthGuard.TokenSubject | backend/src/middlewares/auth.ts:15-24 | the user found is the one whose id is the verified token's subject |
| AuthGuard.RequireAuth | backend/src/middlewares/auth.ts:6-52 | no token 401, bad token 401; admission means an active user whose role is listed (or the list is empty); 403 only for a listed-role refusal |
| AuthGuard.RequireAuthAdmits | backend/src/middlewares/auth.ts:22-47 | for a presented user, admission iff active and role allowed; inactive 401; wrong role 403 |
| AuthGuard.UnverifiedActiveUserPasses | backend/src/middlewares/auth.ts:18-47 | the guard never checks e-mail verification |
| AuthGuard.CustomerIdOf | backend/src/controllers/dashboardController.ts:7-11 | the organisation id is present exactly when the principal has a non-zero one |
| AuthGuard.UserIdOf | backend/src/controllers/licenseController.ts:35-38 | the user id is present exactly when the principal has a non-zero one |
| Routes.Admission | backend/src/routes/invitation.ts:8-12 | public routes run without a principal; guarded ones run exactly when the guard admits |
| Routes.AdminRoutesGuarded | backend/src/routes/admin.ts:12-16 | every admin route has a non-empty role list |
| Routes.OwnerRefusedLicenseAdmin | backend/src/routes/admin.ts:12-13 | an owner is refused purchase and the license list with 403 |
| Routes.LicenseAdminAdmits | backend/src/routes/admin.ts:12-13 | purchase and the license list admit exactly active admins and users |
| Routes.PingAdminsOnly | backend/src/routes/admin.ts:16-18 | the ping route admits exactly active admins |
| Routes.Ping | backend/src/routes/admin.ts:16-18 | the ping reply is `{ok: true, scope: 'admin'}` |
| Routes.InviteAdmits | backend/src/routes/invitation.ts:11-12 | inviting and listing invitations admit exactly active admins and owners; a user gets 403 |
| Routes.PublicEndpoints | backend/src/routes/invitation.ts:8 | accept, validate, register and login need no token |
| Routes.AnyAuthenticatedAdmits | backend/src/routes/auth.ts:15-16 | routes with the empty list admit every active user; the dashboard route is not reachable because its router is never mounted |
| Licenses.YearsFor | backend/src/controllers/licenseController.ts:48-54 | every plan adds at least one year |
| Licenses.ExpiryAfterIssue | backend/src/controllers/licenseController.ts:48-54 | the expiry is strictly after the issue date |
| Licenses.Batch | backend/src/controllers/licenseController.ts:63-81 | a purchase of n seats is n rows, row i being seat i+1 with the i+1-th key and consecutive ids |
| Licenses.BatchRows | backend/src/controllers/licenseController.ts:67-81 | every row shares dates, plan and organisation, and starts active, not free and unbound |
| Licenses.CreateSeats | backend/src/controllers/licenseController.ts:63-84 | the seat loop succeeds exactly when all keys are fresh, and then yields exactly the batch; otherwise nothing |
| Licenses.AppendBatchOk | backend/src/controllers/licenseController.ts:63-84 | appending a batch with fresh keys keeps ids and keys unique |
| Licenses.SeatCount | backend/src/controllers/licenseController.ts:64 | a seat count of at least 1, fractional or not, creates its whole part of rows, at least one |
| Licenses.PurchaseLicense | backend/src/controllers/licenseController.ts:22-102 | schema 400, then phone 402, then no user id 401, then unknown user 404, then a key collision 500, in that order; any failure writes no row; a known user with fresh keys gets 201, and success appends exactly the batch under the buyer's organisation |
| Licenses.ValidateStep | backend/src/controllers/licenseController.ts:114-156 | an error writes nothing; success returns the row's plan and expiry; a write changes only machine id, username and last activity, and never a non-empty machine id |
| Licenses.ValidateRejections | backend/src/controllers/licenseController.ts:114-126 | unknown key 404, inactive 403, expired 403, in that order, with no write |
| Licenses.BindOnFirstUse | backend/src/controllers/licenseController.ts:130-138 | an unbound license is bound to the caller's machine, with the username or 'Unknown', at `now` |
| Licenses.BoundLicense | backend/src/controllers/licenseController.ts:139-148 | another machine is refused with 403 and no write; the same machine only updates last activity |
| Licenses.EmptyMachineIdLeavesUnbound | backend/src/controllers/licenseController.ts:130-138 | binding to the empty id leaves the seat bindable by any machine |
| Licenses.BindThenMismatchThenTouch | backend/src/controllers/licenseController.ts:130-148 | machine A binds, machine B is refused, A is accepted again and keeps the seat |
| Licenses.ValidateLicense | backend/src/controllers/licenseController.ts:105-162 | a missing or non-string key or machine id, or a username present but not a string (`null` included), is 500 with no write; otherwise reply and table are those of `ValidateStep` on the row with the key |
| Licenses.GetAllLicenses | backend/src/controllers/licenseController.ts:164-186 | a missing organisation 500; otherwise exactly the organisation's rows, newest issue first |
| Dashboard.ActiveLicenses | backend/src/controllers/dashboardController.ts:22-24 | exactly the organisation's rows that are active and unexpired, each as often as it occurs in the table |
| Dashboard.SeatSumOfNumberedSeats | backend/src/controllers/dashboardController.ts:27 | seat numbers 1..n add up to n(n+1)/2 |
| Dashboard.Latest | backend/src/controllers/dashboardController.ts:38-40 | none exactly for no active row; otherwise an active row of greatest expiry |
| Dashboard.LatestIsFirstWithMaxExpiry | backend/src/controllers/dashboardController.ts:38-40 | among ties, the row earliest in the active list is chosen |
| Dashboard.CustomerName | backend/src/controllers/dashboardController.ts:51 | the company name, else "first last", else "undefined undefined" |
| Dashboard.GetDashboardStats | backend/src/controllers/dashboardController.ts:5-70 | 500 iff no organisation; counts of active rows and used seats (used <= active), seat sum; "Free Plan" and no expiry when none is active, otherwise the plan and expiry of `Latest` (an active row of greatest expiry); the organisation's display name |
| Dashboard.NumberedSeatsStats | backend/src/controllers/dashboardController.ts:22-43 | for active, unbound rows numbered 1..n: n active, seat sum n(n+1)/2, none used, the plan's name |
| Dashboard.OnePurchaseStats | backend/src/controllers/dashboardController.ts:22-43 | the same figures for one unexpired purchase of n seats |
| Dashboard.UnboundCount | backend/src/controllers/dashboardController.ts:34 | unbound rows count as no used seat |
| Verification.MarkVerified | backend/src/controllers/verificationController.ts:65-73 | a verified row carries no code, expiry or attempts |
| Verification.VerifyOutcome | backend/src/controllers/verificationController.ts:31-73 | a write keeps id and e-mail; success exactly when the row written is verified, and that row carries no code, expiry or attempts; a failed attempt keeps the code and counts the attempt (see `FailedAttemptCounts`) |
| Verification.VerifyRejections | backend/src/controllers/verificationController.ts:31-43 | unknown 404, already verified 400, no code 400, with no write |
| Verification.VerifySucceedsIff | backend/src/controllers/verificationController.ts:46-73 | success iff the row is unverified, has a code, the code matches and has not expired |
| Verification.FailedAttemptCounts | backend/src/controllers/verificationController.ts:52-62 | a wrong or expired code only adds one to the attempts |
| Verification.AttemptsNeverBlock | backend/src/controllers/verificationController.ts:46-62 | the attempt counter never changes the reply |
| Verification.VerifyCode | backend/src/controllers/verificationController.ts:21-90 | a code not four long is 400; otherwise reply and row are those of `VerifyOutcome` on the lowercased address |
| Verification.ResendOutcome | backend/src/controllers/verificationController.ts:102-131 | unknown user 404 and already verified 400, with no write; success exactly when a row is written, which is the reissued row of an unverified, not rate-limited account |
| Verification.ResendRateLimit | backend/src/controllers/verificationController.ts:112-116 | under 60 s since the last code 429; from 60 s on, success |
| Verification.ResendThenVerify | backend/src/controllers/verificationController.ts:119-131 | a reissued code verifies the account until 15 minutes later and not after |
| Verification.ResendCode | backend/src/controllers/verificationController.ts:92-151 | reply and row are those of `ResendOutcome` with a freshly drawn code |
| Accounts.RoleFor | backend/src/controllers/authController.ts:91 | admin maps to ADMIN and owner to OWNER, exactly |
| Accounts.RoleForRoundTrip | backend/src/controllers/authController.ts:91 | a schema role (default 'user') comes back under its own name when read back lowercased |
| Accounts.PhoneFor | backend/src/controllers/authController.ts:75 | the phone is kept exactly when it is truthy |
| Accounts.CompanyNameFor | backend/src/controllers/authController.ts:76 | the company name is kept exactly for a company with a non-empty name |
| Accounts.OverwriteKeepsIdentity | backend/src/controllers/authController.ts:57-67 | the overwrite keeps id, e-mail, role, organisation and flags, and resets the code and attempts |
| Accounts.RegisterTransaction | backend/src/controllers/authController.ts:38-126 | an overwrite adds no row; a new registration appends exactly one customer and one user |
| Accounts.VerifiedAccountConflicts | backend/src/controllers/authController.ts:45-83 | a verified account gives 409 |
| Accounts.OverwriteInPlace | backend/src/controllers/authController.ts:45-81 | an unverified account is overwritten in place, with its customer row refreshed |
| Accounts.CreateAccount | backend/src/controllers/authController.ts:86-126 | a new address gets an unverified, active user under a new customer |
| Accounts.OverwriteAccount | backend/src/controllers/authController.ts:57-78 | exactly the user row and its customer row are replaced |
| Accounts.InsertAccount | backend/src/controllers/authController.ts:94-124 | exactly one customer and then one user referencing it are appended |
| Accounts.Register | backend/src/controllers/authController.ts:32-160 | schema 400 with no write; otherwise the transaction's outcome; a mail failure is 500 with the rows kept |
| Accounts.RegisterDeliveryReturns | backend/src/controllers/authController.ts:130-138 | with the mail utility as written, the 500 for a failed mail is never reached |
| Accounts.Login | backend/src/controllers/authController.ts:162-225 | empty password 400; unknown lowercased address 401; success iff a non-empty password, a known lowercased address, verified, active and matching; the token signs the user's claims |
| Accounts.LoginRejections | backend/src/controllers/authController.ts:173-192 | unverified 403, inactive 403, wrong password 401, in that order |
| Accounts.LoginTokenPassesGuard | backend/src/controllers/authController.ts:195-200 | the token a login returns is admitted by the guard as that user |
| Accounts.ChangePassword | backend/src/controllers/authController.ts:227-271 | schema 400, no user id 401, unknown user 404, wrong current password 400 "Invalid current password", none of them writing; success iff the current password matches; then only the hash changes |
| Accounts.NewPasswordLogsIn | backend/src/controllers/authController.ts:244-255 | after a change, the new password logs in |
| Accounts.GetProfile | backend/src/controllers/authController.ts:273-298 | 404 iff the id is unknown; otherwise the stored id, e-mail, first and last name and organisation, the lowercased role and the organisation's company name |
| Invitations.InviteUser | backend/src/controllers/invitationController.ts:16-92 | 401 without inviter or organisation; 400 for a taken address; a token collision 500 with no write; success iff the token is fresh too, appending one pending invitation that expires seven days later |
| Invitations.InvitationExpiresLater | backend/src/controllers/invitationController.ts:36-38 | the expiry is after the issue time |
| Invitations.GetPendingInvitations | backend/src/controllers/invitationController.ts:94-108 | exactly the pending rows of the organisation, newest first |
| Invitations.PendingListIsTenantScoped | backend/src/controllers/invitationController.ts:97-103 | no other organisation's row and no accepted row is listed |
| Invitations.AcceptRefusal | backend/src/controllers/invitationController.ts:126-136 | acceptance is refused unless the invitation exists, is pending and has not expired |
| Invitations.AcceptedInvitationRefused | backend/src/controllers/invitationController.ts:130-132 | an accepted invitation is refused from then on |
| Invitations.Member | backend/src/controllers/invitationController.ts:141-152 | the new member is a verified, active USER of the inviting organisation under the invited address |
| Invitations.AcceptInvite | backend/src/controllers/invitationController.ts:117-174 | refusals write nothing; a taken address is 500 with no write; success appends the member and marks the invitation accepted |
| Users.MemberRole | backend/src/controllers/userController.ts:34 | ADMIN exactly for 'admin'; never OWNER |
| Users.CreatedMember | backend/src/controllers/userController.ts:28-39 | the new user is verified, active, in the caller's organisation |
| Users.CreateUser | backend/src/controllers/userController.ts:17-51 | schema 400; missing organisation 500; taken address 500; no failure writes; success iff the address is free; then exactly one row appended |
| Users.Members | backend/src/controllers/userController.ts:61-63 | exactly the organisation's rows |
| Users.GetAllUsers | backend/src/controllers/userController.ts:53-79 | 500 iff no organisation; otherwise one summary per member and none other |
| Users.DeleteUser | backend/src/controllers/userController.ts:81-102 | removes the first row matching id (and organisation, when known); no match is 500 with no change |
| Users.DeletionRemovesTheId | backend/src/controllers/userController.ts:87-92 | after a deletion no row has that id |
| Users.OtherOrganisationUntouched | backend/src/controllers/userController.ts:87-92 | another organisation's user is never the row deleted |
| AdminUsers.GetUsers | backend/src/controllers/adminController.ts:5-34 | 500 iff no organisation; otherwise exactly the organisation's users, without password hash |
| AdminUsers.SameUsersAsMemberList | backend/src/controllers/adminController.ts:13-24 | the same users, in the same order, as the member list |
| LegacyCompany.CompanyWithCode | backend/src/controllers/companyController.ts:65-71 | the row found is a company with that code; none found means no company has it |
| LegacyCompany.RoleOf | backend/src/controllers/companyController.ts:18 | the role defaults to 'user' |
| LegacyCompany.CompanyDisplayName | backend/src/controllers/companyController.ts:52 | the company name, or "first last's Company" when none is given |
| LegacyCompany.ChooseOrganisation | backend/src/controllers/companyController.ts:49-80 | found a company iff company owner; join only a company with the trimmed code; neither gives 400 |
| LegacyCompany.IndividualNeedsCode | backend/src/controllers/companyController.ts:63-80 | an individual without a code can never register |
| LegacyCompany.Register | backend/src/controllers/companyController.ts:23-122 | schema 500, taken address 409, refusals with no write; a shaped request with a free address, an accepted organisation (whose founding address is free) and a fresh user id succeeds; success appends the user (and the founded company); a failed user insert leaves the founded company, and a joining registration whose user id collides is 500 with no write |
| LegacyCompany.Login | backend/src/controllers/companyController.ts:129-162 | a short password escapes the handler; success iff a known lowercased address with a matching password, issuing the token signed for the user's id and role with the user's id, e-mail, role, names and organisation; every other failure 500 |
| LegacyCompany.CredentialFailuresAre500 | backend/src/controllers/companyController.ts:137-161 | unknown address and wrong password both surface as 500 |
| LegacyCompany.RegisteredUserLogsIn | backend/src/controllers/companyController.ts:86-145 | a user appended by registration logs in with their password, active flag unconsulted |
| PasswordStrength.MetCountSpelledOut | frontend/src/components/common/PasswordStrength.tsx:15-25 | the count of requirements met, requirement by requirement |
| PasswordStrength.CalculateStrength | frontend/src/components/common/PasswordStrength.tsx:23-27 | 0 for the empty password, otherwise 20 per requirement met; always one of 0, 20, …, 100 |
| PasswordStrength.ExactShare | frontend/src/components/common/PasswordStrength.tsx:26 | n/5 × 100 is 20 n for n up to 5 |
| PasswordStrength.SomeRequirementMet | frontend/src/components/common/PasswordStrength.tsx:17-20 | a non-empty password meets at least one requirement |
| PasswordStrength.NonEmptyScoresAtLeast20 | frontend/src/components/common/PasswordStrength.tsx:17-26 | a non-empty password scores at least 20 |
| PasswordStrength.LabelBands | frontend/src/components/common/PasswordStrength.tsx:35-40 | label '' iff empty, Weak iff one met, Medium iff two or three, Strong iff four or more |
| PasswordStrength.LabelOfShare | frontend/src/components/common/PasswordStrength.tsx:35-40 | the label of 20 n for n in 1..5 |
| PasswordStrength.ColourMatchesLabel | frontend/src/components/common/PasswordStrength.tsx:29-40 | red with no label or Weak, orange with Medium, green with Strong |
| PasswordStrength.Checklist | frontend/src/components/common/PasswordStrength.tsx:85-114 | one (caption, met) line per requirement, in order |
| PasswordStrength.TicksAreMet | frontend/src/components/common/PasswordStrength.tsx:85-114 | the ticked lines are the requirements met |
| PasswordStrength.Render | frontend/src/components/common/PasswordStrength.tsx:42-118 | nothing iff the password is empty; otherwise a bar whose value is the strength, 20 points per ticked line, with the colour and label of that strength |
| RegisterSchema.RunFound | frontend/src/schemas/registerSchema.ts:28 | a run that works for the first piece makes the pattern search succeed |
| RegisterSchema.RunOfMatch | frontend/src/schemas/registerSchema.ts:28 | every success of the search is such a run |
| RegisterSchema.MatchLength | frontend/src/schemas/registerSchema.ts:28 | a match is between the pattern's least and greatest length |
| RegisterSchema.PhoneCharacters | frontend/src/schemas/registerSchema.ts:28 | each matched character belongs to some piece's class |
| RegisterSchema.PhoneShape | frontend/src/schemas/registerSchema.ts:26-29 | a valid phone number has 3 to 24 characters, all digits, `+()-.` or white space |
| RegisterSchema.DigitRunsAreValid | frontend/src/schemas/registerSchema.ts:26-29 | every plain run of 3 to 17 digits is a valid phone number |
| RegisterSchema.SkipOptional | frontend/src/schemas/registerSchema.ts:28 | an optional piece may match nothing |
| RegisterSchema.SkipDigitRun | frontend/src/schemas/registerSchema.ts:28 | a final digit piece takes a digit string it can hold |
| RegisterSchema.TestNumberIsValid | frontend/src/schemas/registerSchema.ts:46-49 | the payment stub's test number passes the phone rule |
| RegisterSchema.PasswordRuleIsFirstFourRequirements | frontend/src/schemas/registerSchema.ts:51-57 | the password rule is exactly the meter's first four requirements |
| RegisterSchema.AcceptedPasswordIsStrong | frontend/src/schemas/registerSchema.ts:51-57 | every accepted password is labelled Strong, in green |
| RegisterSchema.AcceptedFormFields | frontend/src/schemas/registerSchema.ts:7-91 | an accepted form confirms its password, has two valid phones, the names its type demands, and the street, city and country lengths of both the customer's and the administrator's address |
| RegisterSchema.ConditionalFieldsIgnored | frontend/src/schemas/registerSchema.ts:7-24 | a company form ignores person names, an individual form ignores the company name, and the state is optional |

## Left out

- Network and process I/O are left out: the mail transport, console logging, the server start-up, and the dev-mode echo of the code in the register reply. Mail failure is an argument.
- bcrypt and jsonwebtoken are function values. The token's seven-day lifetime and the decoding of `Number(decoded.sub)` are not modelled.
- The framework's error handler (`utils/error`) is not part of this model. A thrown `ApiError` is modelled as the `Err` it carries. The legacy login's uncaught schema error is modelled as `SchemaError`, with no status.
- Database collation is left out: addresses and keys are compared exactly. A case-insensitive MySQL collation would make some lookups match more rows.
- Foreign keys are not checked, and database defaults (timestamps, `registration_date`) are taken as `now`.
- `customerController.ts` is left out: it is a plain insert and select with no logic.
- The rate-limiter configuration is left out (it is never applied), as are the React pages and components other than the strength meter.
- E-mail syntax (zod and yup `.email()`) is not checked. Yup's handling of `null` versus `undefined` is reduced to: absent, or a string.
- Request bodies of the back end's handlers other than `validateLicense` are typed records, so a field of the wrong JSON type (`email: 5`, `phone: null`) cannot be expressed. zod rejects such a body like any other schema failure (400, or 500 in the legacy `register`), and that reply is the one the model gives for the schema failures it does express.
- Concurrency is left out: handlers run one at a time. The read-then-update race in `validateLicense` is therefore not modelled.
- Calendars are abstract: `addYears` / `addDays` are parameters, so leap-year and month-end behaviour is not modelled.
- Common.Lower: lowercases ASCII letters only. Non-ASCII letters, which `toLowerCase` also maps, are left unchanged.
- Common.Trim: states only that neither end is white space. `TrimStart` and `TrimEnd` state which characters were removed.
- RegisterSchema, and the back end's zod length checks (`.min(1)`, `.min(6)`, `.min(8)`, `.length(4)`): JavaScript strings are sequences of UTF-16 code units. Here a string is a sequence of Dafny characters, so these checks and the phone pattern count characters. A character outside the Basic Multilingual Plane counts 2 in JavaScript and 1 here.
- PasswordStrength.CalculateStrength: `pwd.length >= 8` counts UTF-16 code units in the source and characters here, so a password of four emoji meets the length requirement in the browser but not in the model.
- LegacyCompany: the model follows the handler's code. The migrations shown have no `invitation_code` column, no 'owner' value in the users' role enum, and an integer `user_id` where the handler inserts a UUID string. Against that schema those inserts and lookups would fail.
- Addresses that `createUser` and `acceptInvite` store exactly as given can contain capitals. Login lowercases the address before looking it up, so with an exact collation such an account cannot log in. This depends on the collation, so it is listed here rather than as a finding.
