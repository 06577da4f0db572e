/** `getDashboardStats`: the organisation's license summary. */
module Dashboard {
  import opened Common
  import opened Ordering
  import opened Store
  import opened AuthGuard
  import opened Licenses

  datatype Stats = Stats(
    activeLicenses: nat,
    totalSeats: int,
    seatsUsed: nat,
    planName: string,
    expiryDate: Option<int>,
    customerName: string,
    customerId: nat)

  /** Marked active and not yet expired at `now`. */
  predicate ActiveAt(l: License, now: int) {
    l.isActive && l.expiryDate > now
  }

  /** The organisation's licenses that are active at `now`, each as often
      as it occurs in the table. */
  function ActiveLicenses(licenses: seq<License>, customerId: nat, now: int): (r: seq<License>)
    ensures forall i :: 0 <= i < |r| ==> r[i] in licenses && r[i].customerId == customerId && ActiveAt(r[i], now)
    ensures forall i :: 0 <= i < |licenses| && licenses[i].customerId == customerId && ActiveAt(licenses[i], now) ==>
      licenses[i] in r
    ensures forall l: License ::
              multiset(r)[l] == if l.customerId == customerId && ActiveAt(l, now) then multiset(licenses)[l] else 0
  {
    var owned := Filter(licenses, (l: License) => l.customerId == customerId);
    var active := Filter(owned, (l: License) => ActiveAt(l, now));
    forall l: License
      ensures multiset(active)[l] == if l.customerId == customerId && ActiveAt(l, now) then multiset(licenses)[l] else 0
    {
      FilterMultiplicity(licenses, (l: License) => l.customerId == customerId, l);
      FilterMultiplicity(owned, (l: License) => ActiveAt(l, now), l);
    }
    active
  }

  /** `reduce((sum, l) => sum + l.seatNumber, 0)`, folding from the left. */
  function SeatSum(ls: seq<License>): int {
    if ls == [] then 0 else SeatSum(ls[..|ls| - 1]) + ls[|ls| - 1].seatNumber
  }

  /** Rows whose seat numbers run 1..n add up to n(n+1)/2. */
  lemma {:induction false} SeatSumOfNumberedSeats(ls: seq<License>)
    requires forall i :: 0 <= i < |ls| ==> ls[i].seatNumber == i + 1
    ensures 2 * SeatSum(ls) == |ls| * (|ls| + 1)
  {
    if ls != [] {
      SeatSumOfNumberedSeats(ls[..|ls| - 1]);
    }
  }

  function ExpiryKey(l: License): int {
    l.expiryDate
  }

  /** The first element of the active list after the stable sort by expiry,
      newest first. */
  function Latest(active: seq<License>): (r: Option<License>)
    ensures r.None? <==> active == []
    ensures r.Some? ==> r.value in active && forall i :: 0 <= i < |active| ==> active[i].expiryDate <= r.value.expiryDate
  {
    if active == [] then None
    else
      SortDescHeadIsFirstMax(active, ExpiryKey);
      Some(SortDesc(active, ExpiryKey)[0])
  }

  /** Among licenses sharing the latest expiry, the one earliest in the table
      wins, because the sort is stable. */
  lemma LatestIsFirstWithMaxExpiry(active: seq<License>)
    requires active != []
    ensures Latest(active) == Some(active[FirstMaxIndex(active, ExpiryKey)])
  {
    SortDescHeadIsFirstMax(active, ExpiryKey);
  }

  /** `customer?.companyName || `${customer?.firstName} ${customer?.lastName}``;
      a missing customer reads as `undefined undefined`. */
  function CustomerName(c: Option<Customer>): (name: string)
    ensures c.Some? && Truthy(c.value.companyName) ==> name == c.value.companyName.value
    ensures c.Some? && !Truthy(c.value.companyName) ==> name == c.value.firstName + " " + c.value.lastName
    ensures c.None? ==> name == "undefined undefined"
  {
    match c
    case None => "undefined" + " " + "undefined"
    case Some(cu) => if Truthy(cu.companyName) then cu.companyName.value else cu.firstName + " " + cu.lastName
  }

  function GetDashboardStats(licenses: seq<License>, customers: seq<Customer>, ctx: Option<Principal>, now: int)
    : (r: Reply<Stats>)
    ensures CustomerIdOf(ctx).None? <==> r == Err(500, "Failed to fetch dashboard stats")
    ensures r.Ok? ==>
      && var c := CustomerIdOf(ctx).value;
      && var active := ActiveLicenses(licenses, c, now);
      && r.status == 200
      && r.body.customerId == c
      && r.body.activeLicenses == |active|
      && r.body.seatsUsed <= r.body.activeLicenses
      && r.body.seatsUsed == Count(active, (l: License) => Truthy(l.pcUuid))
      && r.body.totalSeats == SeatSum(active)
      && (active == [] ==> r.body.planName == "Free Plan" && r.body.expiryDate.None?)
      && (active != [] ==>
            && r.body.planName == PlanName(Latest(active).value.planType)
            && r.body.expiryDate == Some(Latest(active).value.expiryDate)
            && forall i :: 0 <= i < |active| ==> active[i].expiryDate <= r.body.expiryDate.value)
      && r.body.customerName == CustomerName(At(customers, CustomerWithId(customers, c)))
  {
    match CustomerIdOf(ctx)
    case None => Err(500, "Failed to fetch dashboard stats")
    case Some(c) =>
      var active := ActiveLicenses(licenses, c, now);
      var latest := Latest(active);
      var k := CustomerWithId(customers, c);
      Ok(200, Stats(
        |active|,
        SeatSum(active),
        Count(active, (l: License) => Truthy(l.pcUuid)),
        if latest.Some? then PlanName(latest.value.planType) else "Free Plan",
        if latest.Some? then Some(latest.value.expiryDate) else None,
        CustomerName(At(customers, k)),
        c))
  }

  /** An organisation whose licenses are all active, unbound and numbered
      1..n sees n active licenses, none used, and n(n+1)/2 "total seats":
      the sum adds up seat numbers, not seats. */
  lemma {:induction false} NumberedSeatsStats(ls: seq<License>, plan: PlanType, customers: seq<Customer>, ctx: Principal, now: int)
    requires ctx.customerId != 0
    requires forall i :: 0 <= i < |ls| ==>
      && ls[i].customerId == ctx.customerId && ActiveAt(ls[i], now) && ls[i].pcUuid.None?
      && ls[i].seatNumber == i + 1 && ls[i].planType == plan
    ensures var r := GetDashboardStats(ls, customers, Some(ctx), now);
      && r.Ok?
      && r.body.activeLicenses == |ls|
      && 2 * r.body.totalSeats == |ls| * (|ls| + 1)
      && r.body.seatsUsed == 0
      && r.body.planName == (if ls == [] then "Free Plan" else PlanName(plan))
  {
    var c := ctx.customerId;
    FilterAll(ls, (l: License) => l.customerId == c);
    FilterAll(ls, (l: License) => ActiveAt(l, now));
    assert ActiveLicenses(ls, c, now) == ls;
    SeatSumOfNumberedSeats(ls);
    UnboundCount(ls);
    if ls != [] {
      assert Latest(ls).value in ls;
    }
  }

  /** One purchase of `n` seats, still active, is such an organisation, and
      its plan is the dashboard's plan. */
  lemma {:induction false} OnePurchaseStats(firstId: nat, plan: PlanType, issue: int, expiry: int,
                                            mint: nat -> string, n: nat, ctx: Principal, now: int,
                                            customers: seq<Customer>)
    requires ctx.customerId != 0 && now < expiry
    ensures var r := GetDashboardStats(Batch(firstId, ctx.customerId, plan, issue, expiry, mint, n), customers, Some(ctx), now);
      && r.Ok?
      && r.body.activeLicenses == n
      && 2 * r.body.totalSeats == n * (n + 1)
      && r.body.seatsUsed == 0
      && r.body.planName == (if n == 0 then "Free Plan" else PlanName(plan))
  {
    NumberedSeatsStats(Batch(firstId, ctx.customerId, plan, issue, expiry, mint, n), plan, customers, ctx, now);
  }

  /** No unbound row counts as used. */
  lemma {:induction false} UnboundCount(ls: seq<License>)
    requires forall i :: 0 <= i < |ls| ==> ls[i].pcUuid.None?
    ensures Count(ls, (l: License) => Truthy(l.pcUuid)) == 0
  {
    if ls != [] {
      UnboundCount(ls[1..]);
    }
  }
}
