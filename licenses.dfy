/** The license lifecycle of `licenseController.ts`: purchase (one row per
    seat, created in one transaction), validation by the desktop client
    (bind on first use, then check the machine), and the organisation's
    license list. */
module Licenses {
  import opened Common
  import opened Store
  import opened AuthGuard
  import opened Ordering

  /** The only phone number the mock payment check accepts. */
  const TestPhone: string := "0966262458"

  /** Calendar years added to the issue date for each plan. */
  function YearsFor(p: PlanType): (n: nat)
    ensures n >= 1
  {
    match p
    case Yearly => 1
    case ThreeYears => 3
    case Floating => 100
  }

  /** `setFullYear(getFullYear() + years)` on the issue date, with the
      calendar's "add n years" given as `addYears`. */
  function ExpiryFor(p: PlanType, issue: int, addYears: (int, nat) -> int): int {
    addYears(issue, YearsFor(p))
  }

  lemma ExpiryAfterIssue(p: PlanType, issue: int, addYears: (int, nat) -> int)
    requires MovesForward(addYears)
    ensures ExpiryFor(p, issue, addYears) > issue
  {
    assert YearsFor(p) >= 1;
  }

  // -------------------------------------------------------------------
  // Purchase

  /** The purchase body. `seats` is a JSON number: the schema asks only that
      it be at least 1, so a fractional count passes and the loop
      `i <= seats` creates one row per whole seat. */
  datatype PurchaseRequest = PurchaseRequest(planType: string, seats: real, phoneNumber: string)

  /** The rows a purchase of `seats` creates: its whole part. */
  function SeatCount(seats: real): (n: nat)
    requires seats >= 1.0
    ensures n >= 1 && n as real <= seats < n as real + 1.0
  {
    seats.Floor
  }

  /** The row inserted for one seat: unbound, active, not free. */
  function SeatRow(id: nat, customerId: nat, key: string, plan: PlanType, seat: nat, issue: int, expiry: int): License {
    License(id, customerId, key, plan, seat, issue, expiry, None, None, true, 0, None)
  }

  /** The rows a purchase of `n` seats creates, seat `i + 1` at position `i`,
      with the key the generator gives for that seat. */
  function Batch(firstId: nat, customerId: nat, plan: PlanType, issue: int, expiry: int, mint: nat -> string, n: nat): (b: seq<License>)
    ensures |b| == n
    ensures forall i :: 0 <= i < n ==> b[i] == SeatRow(firstId + i, customerId, mint(i + 1), plan, i + 1, issue, expiry)
  {
    seq(n, i requires 0 <= i < n => SeatRow(firstId + i, customerId, mint(i + 1), plan, i + 1, issue, expiry))
  }

  predicate KeyTaken(licenses: seq<License>, key: string) {
    LicenseWithKey(licenses, key).Some?
  }

  /** The keys generated for seats 1..n are pairwise distinct and new to the
      table, so that no insert breaks the unique index on the key. */
  ghost predicate KeysFresh(existing: seq<License>, mint: nat -> string, n: nat) {
    && (forall i :: 1 <= i <= n ==> !KeyTaken(existing, mint(i)))
    && (forall i, j :: 1 <= i < j <= n ==> mint(i) != mint(j))
  }

  /** The transaction's loop: `for (i = 1; i <= seats; i++)` inserts the row
      for seat `i`. A key that breaks the unique index makes the insert throw
      and the transaction roll back, so either every row is created or none. */
  method CreateSeats(existing: seq<License>, firstId: nat, customerId: nat, plan: PlanType, seats: nat,
                     issue: int, expiry: int, mint: nat -> string)
    returns (created: Option<seq<License>>)
    ensures created.Some? <==> KeysFresh(existing, mint, seats)
    ensures created.Some? ==> created.value == Batch(firstId, customerId, plan, issue, expiry, mint, seats)
  {
    var rows: seq<License> := [];
    var i := 1;
    while i <= seats
      invariant 1 <= i <= seats + 1
      invariant |rows| == i - 1
      invariant forall j :: 0 <= j < i - 1 ==> rows[j] == SeatRow(firstId + j, customerId, mint(j + 1), plan, j + 1, issue, expiry)
      invariant KeysFresh(existing, mint, i - 1)
    {
      var key := mint(i);
      if KeyTaken(existing, key) {
        return None;
      }
      var clash := FindIndex(rows, (l: License) => l.key == key);
      if clash.Some? {
        assert mint(clash.value + 1) == mint(i);
        return None;
      }
      assert forall j :: 1 <= j < i ==> mint(j) != mint(i) by {
        forall j | 1 <= j < i ensures mint(j) != mint(i) {
          assert rows[j - 1].key == mint(j);
        }
      }
      rows := rows + [SeatRow(firstId + i - 1, customerId, key, plan, i, issue, expiry)];
      i := i + 1;
    }
    return Some(rows);
  }

  /** Appending a batch with fresh keys keeps ids and keys unique. */
  lemma {:induction false} AppendBatchOk(licenses: seq<License>, next: nat, customerId: nat, plan: PlanType,
                                         issue: int, expiry: int, mint: nat -> string, n: nat)
    requires LicensesOk(licenses, next) && next >= 1 && KeysFresh(licenses, mint, n)
    ensures LicensesOk(licenses + Batch(next, customerId, plan, issue, expiry, mint, n), next + n)
  {
    var batch := Batch(next, customerId, plan, issue, expiry, mint, n);
    var all := licenses + batch;
    var m := |licenses|;
    forall i | 0 <= i < |all|
      ensures 1 <= all[i].id < next + n
      ensures i >= m ==> all[i].id == next + i - m && all[i].key == mint(i - m + 1)
      ensures i < m ==> all[i] == licenses[i]
    {
      if i >= m {
        assert all[i] == batch[i - m];
      }
    }
    forall i, j | 0 <= i < j < |all| ensures all[i].id != all[j].id && all[i].key != all[j].key {
      if j >= m && i < m {
        assert !KeyTaken(licenses, mint(j - m + 1));
      }
    }
  }

  /** `purchaseLicense`. The checks run in the source's order: schema (400),
      mock payment (402) before authentication (401), purchaser lookup (404);
      then the seats are created in one transaction (500 if it fails). */
  method PurchaseLicense(db: Db, ctx: Option<Principal>, req: PurchaseRequest, now: int,
                         addYears: (int, nat) -> int, mint: nat -> string)
    returns (r: Reply<seq<License>>)
    requires db.Valid()
    modifies db
    ensures db.Valid()
    ensures db.customers == old(db.customers) && db.users == old(db.users) && db.invitations == old(db.invitations)
    ensures ParsePlan(req.planType).None? || req.seats < 1.0 ==> r == Err(400, "Invalid input data")
    ensures ParsePlan(req.planType).Some? && req.seats >= 1.0 && req.phoneNumber != TestPhone ==>
      r == Err(402, "Payment Failed: Invalid phone number for test mode.")
    ensures ParsePlan(req.planType).Some? && req.seats >= 1.0 && req.phoneNumber == TestPhone && UserIdOf(ctx).None? ==>
      r == Err(401, "User not authenticated")
    ensures ParsePlan(req.planType).Some? && req.seats >= 1.0 && req.phoneNumber == TestPhone && UserIdOf(ctx).Some? ==>
      var k := UserWithId(old(db.users), UserIdOf(ctx).value);
      var keysOk := KeysFresh(old(db.licenses), mint, SeatCount(req.seats));
      && (k.None? ==> r == Err(404, "User not found"))
      && (k.Some? && !keysOk ==> r == Err(500, "Purchase failed"))
      && (k.Some? && keysOk ==> r.Ok?)
    ensures !r.Ok? ==> db.licenses == old(db.licenses) && db.nextLicenseId == old(db.nextLicenseId)
    ensures r.Ok? ==>
      && ParsePlan(req.planType).Some? && req.seats >= 1.0 && req.phoneNumber == TestPhone
      && UserIdOf(ctx).Some?
      && var k := UserWithId(old(db.users), UserIdOf(ctx).value);
      && k.Some?
      && var plan := ParsePlan(req.planType).value;
      && r == Ok(201, Batch(old(db.nextLicenseId), old(db.users)[k.value].customerId, plan, now,
                            ExpiryFor(plan, now, addYears), mint, SeatCount(req.seats)))
      && db.licenses == old(db.licenses) + r.body
      && KeysFresh(old(db.licenses), mint, SeatCount(req.seats))
  {
    var plan := ParsePlan(req.planType);
    if plan.None? || req.seats < 1.0 {
      return Err(400, "Invalid input data");
    }
    if req.phoneNumber != TestPhone {
      return Err(402, "Payment Failed: Invalid phone number for test mode.");
    }
    var userId := UserIdOf(ctx);
    if userId.None? {
      return Err(401, "User not authenticated");
    }
    var k := UserWithId(db.users, userId.value);
    if k.None? {
      return Err(404, "User not found");
    }
    var customerId := db.users[k.value].customerId;
    var expiry := ExpiryFor(plan.value, now, addYears);
    var seats := SeatCount(req.seats);
    var created := CreateSeats(db.licenses, db.nextLicenseId, customerId, plan.value, seats, now, expiry, mint);
    if created.None? {
      return Err(500, "Purchase failed");
    }
    var batch := created.value;
    AppendBatchOk(db.licenses, db.nextLicenseId, customerId, plan.value, now, expiry, mint, seats);
    db.licenses := db.licenses + batch;
    db.nextLicenseId := db.nextLicenseId + seats;
    return Ok(201, batch);
  }

  /** Every row of a purchase shares the dates, plan and customer, starts
      unbound, active and not free, and seat numbers run 1..n. */
  lemma {:induction false} BatchRows(firstId: nat, customerId: nat, plan: PlanType, issue: int, expiry: int,
                                     mint: nat -> string, n: nat, i: nat)
    requires i < n
    ensures var l := Batch(firstId, customerId, plan, issue, expiry, mint, n)[i];
      && l.seatNumber == i + 1 && l.customerId == customerId && l.planType == plan
      && l.issueDate == issue && l.expiryDate == expiry
      && l.isActive && l.isFree == 0 && l.pcUuid.None? && l.username.None? && l.lastActivity.None?
  {
  }

  // -------------------------------------------------------------------
  // Validation by the desktop client

  /** A field of a JSON body: missing, a string, or any other value (`null`
      included). */
  datatype BodyField = Missing | Text(value: string) | NotText

  /** `z.string().optional()` accepts a missing field or a string. */
  predicate OptionalText(f: BodyField) {
    !f.NotText?
  }

  /** The optional string the schema yields for an accepted field. */
  function OptionalValue(f: BodyField): (o: Option<string>)
    ensures o.Some? <==> f.Text?
    ensures f.Text? ==> o.value == f.value
  {
    if f.Text? then Some(f.value) else None
  }

  /** The request body: the key and the machine id are required strings,
      the username an optional string. */
  datatype ValidateRequest = ValidateRequest(licenseKey: BodyField, pcUuid: BodyField, username: BodyField)

  /** What `validateSchema.parse` accepts. */
  predicate WellFormed(req: ValidateRequest) {
    req.licenseKey.Text? && req.pcUuid.Text? && OptionalText(req.username)
  }

  /** `{valid: true, plan, expiry, seats: 1}`. */
  datatype Validation = Validation(plan: PlanType, expiry: int, seats: int)

  /** One validation against the row found for the key (if any): the reply,
      and the row as written back (`None` when nothing is written). */
  function ValidateStep(found: Option<License>, pcUuid: string, username: Option<string>, now: int)
    : (out: (Reply<Validation>, Option<License>))
    ensures out.0.Err? ==> out.1.None?
    ensures out.0.Ok? ==> found.Some? && out.0 == Ok(200, Validation(found.value.planType, found.value.expiryDate, 1))
    ensures out.1.Some? ==> found.Some? && out.1.value == found.value.(
      pcUuid := out.1.value.pcUuid, username := out.1.value.username, lastActivity := Some(now))
    ensures found.Some? && Truthy(found.value.pcUuid) && out.1.Some? ==> out.1.value.pcUuid == found.value.pcUuid
  {
    match found
    case None => (Err(404, "License key not found"), None)
    case Some(l) =>
      if !l.isActive then (Err(403, "License is inactive"), None)
      else if now > l.expiryDate then (Err(403, "License expired"), None)
      else
        var ok := Ok(200, Validation(l.planType, l.expiryDate, 1));
        if !Truthy(l.pcUuid) then
          (ok, Some(l.(pcUuid := Some(pcUuid), username := Some(OrElse(username, "Unknown")), lastActivity := Some(now))))
        else if l.pcUuid.value != pcUuid then (Err(403, "License is bound to another machine"), None)
        else (ok, Some(l.(lastActivity := Some(now))))
  }

  /** The rejections, in order: unknown key 404, inactive 403, expired 403. */
  lemma ValidateRejections(found: Option<License>, pcUuid: string, username: Option<string>, now: int)
    ensures found.None? ==> ValidateStep(found, pcUuid, username, now) == (Err(404, "License key not found"), None)
    ensures found.Some? && !found.value.isActive ==>
      ValidateStep(found, pcUuid, username, now) == (Err(403, "License is inactive"), None)
    ensures found.Some? && found.value.isActive && now > found.value.expiryDate ==>
      ValidateStep(found, pcUuid, username, now) == (Err(403, "License expired"), None)
  {
  }

  /** An unbound license is bound to the caller's machine: the id, the
      username (or 'Unknown') and the activity time are written. */
  lemma BindOnFirstUse(l: License, pcUuid: string, username: Option<string>, now: int)
    requires l.isActive && now <= l.expiryDate && !Truthy(l.pcUuid)
    ensures ValidateStep(Some(l), pcUuid, username, now) ==
      (Ok(200, Validation(l.planType, l.expiryDate, 1)),
       Some(l.(pcUuid := Some(pcUuid), username := Some(OrElse(username, "Unknown")), lastActivity := Some(now))))
  {
  }

  /** A license bound to another machine is refused and left alone; the
      same machine only has its activity time updated. */
  lemma BoundLicense(l: License, pcUuid: string, username: Option<string>, now: int)
    requires l.isActive && now <= l.expiryDate && Truthy(l.pcUuid)
    ensures l.pcUuid.value != pcUuid ==>
      ValidateStep(Some(l), pcUuid, username, now) == (Err(403, "License is bound to another machine"), None)
    ensures l.pcUuid.value == pcUuid ==>
      ValidateStep(Some(l), pcUuid, username, now) ==
        (Ok(200, Validation(l.planType, l.expiryDate, 1)), Some(l.(lastActivity := Some(now))))
  {
  }

  /** Binding to the empty machine id writes it, but the license stays
      unbound: the next validation from any machine binds it again. */
  lemma {:induction false} EmptyMachineIdLeavesUnbound(l: License, other: string, username: Option<string>, t1: int, t2: int)
    requires l.isActive && t1 <= t2 <= l.expiryDate && !Truthy(l.pcUuid)
    ensures var first := ValidateStep(Some(l), "", username, t1).1;
      && first.Some? && !Truthy(first.value.pcUuid)
      && ValidateStep(first, other, username, t2).0.Ok?
      && ValidateStep(first, other, username, t2).1.value.pcUuid == Some(other)
  {
    BindOnFirstUse(l, "", username, t1);
    var first := ValidateStep(Some(l), "", username, t1).1.value;
    BindOnFirstUse(first, other, username, t2);
  }

  /** The binding scenario: machine A binds a fresh seat, machine B is then
      refused, and A validates again with only the activity time changing. */
  lemma {:induction false} BindThenMismatchThenTouch(l: License, a: string, b: string, t1: int, t2: int, t3: int)
    requires l.isActive && !Truthy(l.pcUuid) && a != "" && b != a
    requires t1 <= t2 <= t3 <= l.expiryDate
    ensures var s1 := ValidateStep(Some(l), a, None, t1);
      && s1.0.Ok? && s1.1.Some? && s1.1.value.pcUuid == Some(a)
      && ValidateStep(s1.1, b, None, t2) == (Err(403, "License is bound to another machine"), None)
      && ValidateStep(s1.1, a, None, t3) == (s1.0, Some(s1.1.value.(lastActivity := Some(t3))))
  {
    BindOnFirstUse(l, a, None, t1);
    var bound := ValidateStep(Some(l), a, None, t1).1.value;
    BoundLicense(bound, b, None, t2);
    BoundLicense(bound, a, None, t3);
  }

  /** `validateLicense`. Every reply is JSON with `valid`; a body the schema
      rejects (a missing or non-string key or machine id, a username that is
      present but not a string) gives 500. Only the row found for the key may change. */
  method ValidateLicense(db: Db, req: ValidateRequest, now: int) returns (r: Reply<Validation>)
    requires db.Valid()
    modifies db
    ensures db.Valid()
    ensures db.customers == old(db.customers) && db.users == old(db.users) && db.invitations == old(db.invitations)
    ensures db.nextLicenseId == old(db.nextLicenseId)
    ensures !WellFormed(req) ==> r == Err(500, "Server error") && db.licenses == old(db.licenses)
    ensures WellFormed(req) ==>
      var k := LicenseWithKey(old(db.licenses), req.licenseKey.value);
      var step := ValidateStep(At(old(db.licenses), k), req.pcUuid.value, OptionalValue(req.username), now);
      && r == step.0
      && db.licenses == (if step.1.Some? then old(db.licenses)[k.value := step.1.value] else old(db.licenses))
  {
    if !req.licenseKey.Text? || !req.pcUuid.Text? || req.username.NotText? {
      return Err(500, "Server error");
    }
    var pcUuid := req.pcUuid.value;
    var k := LicenseWithKey(db.licenses, req.licenseKey.value);
    if k.None? {
      return Err(404, "License key not found");
    }
    var license := db.licenses[k.value];
    if !license.isActive {
      return Err(403, "License is inactive");
    }
    if now > license.expiryDate {
      return Err(403, "License expired");
    }
    if !Truthy(license.pcUuid) {
      db.licenses := db.licenses[k.value := license.(pcUuid := Some(pcUuid), username := Some(OrElse(OptionalValue(req.username), "Unknown")),
                                                     lastActivity := Some(now))];
    } else if license.pcUuid.value != pcUuid {
      return Err(403, "License is bound to another machine");
    } else {
      db.licenses := db.licenses[k.value := license.(lastActivity := Some(now))];
    }
    r := Ok(200, Validation(license.planType, license.expiryDate, 1));
  }

  // -------------------------------------------------------------------
  // Listing

  function IssueKey(l: License): int {
    l.issueDate
  }

  /** `getAllLicenses`: the caller's organisation's licenses, newest issue
      first. A missing customer id is a 401 that the catch turns into 500. */
  function GetAllLicenses(licenses: seq<License>, ctx: Option<Principal>): (r: Reply<seq<License>>)
    ensures CustomerIdOf(ctx).None? ==> r == Err(500, "Failed to fetch licenses")
    ensures CustomerIdOf(ctx).Some? ==> r.Ok? && r.status == 200
    ensures r.Ok? ==> SortedDesc(r.body, IssueKey)
    ensures r.Ok? ==> forall l: License ::
      multiset(r.body)[l] == (if l.customerId == CustomerIdOf(ctx).value then multiset(licenses)[l] else 0)
  {
    match CustomerIdOf(ctx)
    case None => Err(500, "Failed to fetch licenses")
    case Some(c) =>
      var owned := Filter(licenses, (l: License) => l.customerId == c);
      assert forall l: License :: multiset(owned)[l] == (if l.customerId == c then multiset(licenses)[l] else 0) by {
        forall l: License ensures multiset(owned)[l] == (if l.customerId == c then multiset(licenses)[l] else 0) {
          FilterMultiplicity(licenses, (l: License) => l.customerId == c, l);
        }
      }
      Ok(200, SortDesc(owned, IssueKey))
  }
}
