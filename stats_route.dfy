/** `GET /api/dashboard/stats` (src/app/api/dashboard/stats/route.ts): the
    figures on a taskio's dashboard, keyed on the caller's id: earnings from
    completed bookings, counts of open and completed jobs and of services,
    and a feed of the five newest bookings with how long ago each was made. */
module StatsRoute {
  import opened Common
  import opened Text
  import opened UserModel
  import opened ServiceModel
  import opened BookingModel
  import opened Auth
  import opened Database

  /** The placeholder rating every dashboard shows. */
  const AverageRating: real := 4.8
  const RecentLimit: nat := 5
  const UnknownService: string := "Unknown Service"
  const UnknownCustomer: string := "Unknown Customer"

  // ------------------------------------------------------------ time ago

  /** The units `getTimeAgo` counts in, and their length in seconds. */
  datatype Unit = Minute | Hour | Day | Month

  function UnitSeconds(u: Unit): nat
  {
    match u
    case Minute => 60
    case Hour => 3600
    case Day => 86400
    case Month => 2592000
  }

  function UnitName(u: Unit): string
  {
    match u
    case Minute => "minute"
    case Hour => "hour"
    case Day => "day"
    case Month => "month"
  }

  /** How long ago, as `getTimeAgo` rounds it: under a minute, or a whole
      number of the largest unit that fits. */
  datatype Elapsed = JustNow | Ago(count: nat, unit: Unit)

  /** The if/else chain on the elapsed seconds `d`. */
  function Bucket(d: int): (e: Elapsed)
    ensures e.JustNow? <==> d < 60
    ensures e.Ago? ==> e.count >= 1 && e.count * UnitSeconds(e.unit) <= d < (e.count + 1) * UnitSeconds(e.unit)
    ensures e.Ago? ==> && (e.unit == Minute <==> d < 3600)
                       && (e.unit == Hour <==> 3600 <= d < 86400)
                       && (e.unit == Day <==> 86400 <= d < 2592000)
                       && (e.unit == Month <==> 2592000 <= d)
  {
    if d < 60 then JustNow
    else if d < 3600 then Ago(d / 60, Minute)
    else if d < 86400 then Ago(d / 3600, Hour)
    else if d < 2592000 then Ago(d / 86400, Day)
    else Ago(d / 2592000, Month)
  }

  /** `${n} ${unit}${n > 1 ? 's' : ''} ago`, or `'Just now'`. */
  function Phrase(e: Elapsed): string
  {
    match e
    case JustNow => "Just now"
    case Ago(n, u) => NatToString(n) + " " + UnitName(u) + (if n > 1 then "s" else "") + " ago"
  }

  /** The unit is plural exactly when the count is above one. */
  lemma PluralIffMany(n: nat, u: Unit)
    ensures var p := Phrase(Ago(n, u));
            |p| >= 5 && (p[|p| - 5] == 's' <==> n > 1)
  {
    var p := Phrase(Ago(n, u));
    var head := NatToString(n) + " " + UnitName(u);
    assert UnitName(u)[|UnitName(u)| - 1] != 's';
    if n > 1 {
      assert p == head + "s" + " ago";
      assert p[|p| - 5] == 's';
    } else {
      assert p == head + " ago";
      assert p[|p| - 5] == head[|head| - 1] == UnitName(u)[|UnitName(u)| - 1];
    }
  }

  /** The phrase starts with the count, which reads back as that count. */
  lemma PhraseStartsWithCount(n: nat, u: Unit)
    ensures var p := Phrase(Ago(n, u));
            var digits := NatToString(n);
            |digits| < |p| && p[..|digits|] == digits && p[|digits|] == ' ' && ParseDigits(digits) == n
  {
    var p := Phrase(Ago(n, u));
    var digits := NatToString(n);
    assert p == digits + (" " + UnitName(u) + (if n > 1 then "s" else "") + " ago");
    NatToStringRoundTrip(n);
  }

  /** `getTimeAgo(createdAt)`, with the clock as a parameter: both times are
      milliseconds, and `Math.floor` of the difference over 1000 is `/` on
      `int` for a positive divisor. */
  function GetTimeAgo(createdAt: int, now: int): string
  {
    Phrase(Bucket((now - createdAt) / 1000))
  }

  /** "Just now" is the answer exactly for bookings less than a minute old,
      including those dated in the future. */
  lemma JustNowIffUnderAMinute(createdAt: int, now: int)
    ensures GetTimeAgo(createdAt, now) == "Just now" <==> now - createdAt < 60000
  {
    var e := Bucket((now - createdAt) / 1000);
    if e.Ago? {
      PhraseStartsWithCount(e.count, e.unit);
      assert '0' <= Phrase(e)[0] <= '9';
    }
  }

  // ---------------------------------------------------------- aggregates

  predicate IsOpen(s: Status)
  {
    s == Pending || s == Confirmed || s == InProgress
  }

  /** `$sum` of `totalPrice`. */
  function SumTotals(bs: seq<Booking>): real
  {
    if bs == [] then 0.0 else bs[0].totalPrice + SumTotals(bs[1..])
  }

  function CompletedOf(bookings: seq<Booking>, taskioId: string): seq<Booking>
  {
    Filter(bookings, (b: Booking) => b.taskioId == taskioId && b.status == Completed)
  }

  /** The aggregation's `totalEarnings`, or 0 when it matched nothing. */
  function Earnings(bookings: seq<Booking>, taskioId: string): (e: real)
    ensures CompletedOf(bookings, taskioId) == [] ==> e == 0.0
  {
    var completed := CompletedOf(bookings, taskioId);
    if |completed| > 0 then SumTotals(completed) else 0.0
  }

  lemma {:induction false} SumTotalsNonNegative(bs: seq<Booking>)
    requires forall i :: 0 <= i < |bs| ==> bs[i].totalPrice >= 0.0
    ensures SumTotals(bs) >= 0.0
  {
    if bs != [] {
      SumTotalsNonNegative(bs[1..]);
    }
  }

  /** Earnings are never negative: every stored total is at least 0. */
  lemma EarningsNonNegative(bookings: seq<Booking>, taskioId: string, isObjectId: string -> bool)
    requires BookingsValid(bookings, isObjectId)
    ensures Earnings(bookings, taskioId) >= 0.0
  {
    var completed := CompletedOf(bookings, taskioId);
    forall i | 0 <= i < |completed| ensures completed[i].totalPrice >= 0.0 {
      assert completed[i] in bookings;
    }
    SumTotalsNonNegative(completed);
  }

  /** Earnings add up the completed bookings' totals one by one. */
  lemma {:induction false} EarningsOfAppend(bookings: seq<Booking>, b: Booking, taskioId: string)
    ensures Earnings(bookings + [b], taskioId)
         == Earnings(bookings, taskioId) + (if b.taskioId == taskioId && b.status == Completed then b.totalPrice else 0.0)
  {
    var p := (b: Booking) => b.taskioId == taskioId && b.status == Completed;
    FilterConcat(bookings, [b], p);
    assert Filter([b], p) == (if p(b) then [b] else []);
    SumTotalsAppend(Filter(bookings, p), Filter([b], p));
  }

  lemma {:induction false} SumTotalsAppend(a: seq<Booking>, b: seq<Booking>)
    ensures SumTotals(a + b) == SumTotals(a) + SumTotals(b)
  {
    if a == [] {
      assert a + b == b;
    } else {
      assert (a + b)[1..] == a[1..] + b;
      SumTotalsAppend(a[1..], b);
    }
  }

  function ActiveJobs(bookings: seq<Booking>, taskioId: string): nat
  {
    Count(bookings, (b: Booking) => b.taskioId == taskioId && IsOpen(b.status))
  }

  function CompletedJobs(bookings: seq<Booking>, taskioId: string): nat
  {
    |CompletedOf(bookings, taskioId)|
  }

  function CancelledJobs(bookings: seq<Booking>, taskioId: string): nat
  {
    Count(bookings, (b: Booking) => b.taskioId == taskioId && b.status == Cancelled)
  }

  function TotalJobs(bookings: seq<Booking>, taskioId: string): nat
  {
    Count(bookings, (b: Booking) => b.taskioId == taskioId)
  }

  /** Each of the caller's bookings is open, completed or cancelled, and only
      one of them: cancelled bookings are in neither figure, so the two figures
      together never exceed the caller's bookings. */
  lemma JobsPartition(bookings: seq<Booking>, taskioId: string)
    ensures ActiveJobs(bookings, taskioId) + CompletedJobs(bookings, taskioId) + CancelledJobs(bookings, taskioId)
         == TotalJobs(bookings, taskioId)
    ensures ActiveJobs(bookings, taskioId) + CompletedJobs(bookings, taskioId) <= TotalJobs(bookings, taskioId)
  {
    var open := (b: Booking) => b.taskioId == taskioId && IsOpen(b.status);
    var done := (b: Booking) => b.taskioId == taskioId && b.status == Completed;
    var cancelled := (b: Booking) => b.taskioId == taskioId && b.status == Cancelled;
    var live := (b: Booking) => b.taskioId == taskioId && b.status != Cancelled;
    var mine := (b: Booking) => b.taskioId == taskioId;
    CountUnion(bookings, open, done, live);
    CountUnion(bookings, live, cancelled, mine);
  }

  /** `Service.countDocuments({ taskioId })`. */
  function TotalServices(services: seq<Service>, taskioId: string): nat
  {
    Count(services, (s: Service) => s.taskioId == taskioId)
  }

  /** Switching a service on or off does not change the count. */
  lemma {:induction false} TotalServicesIgnoresActive(services: seq<Service>, taskioId: string, i: nat, active: bool)
    requires i < |services|
    ensures TotalServices(services[i := services[i].(isActive := active)], taskioId) == TotalServices(services, taskioId)
  {
    if i > 0 {
      assert services[i := services[i].(isActive := active)][1..] == services[1..][i - 1 := services[i].(isActive := active)];
      TotalServicesIgnoresActive(services[1..], taskioId, i - 1, active);
    }
  }

  // ------------------------------------------------------------ activity

  /** One entry of `recentActivity`. */
  datatype Activity = Activity(id: string, serviceTitle: string, customerName: string, status: Status,
                               amount: real, createdAt: int, timeAgo: string)

  /** `booking.serviceId?.title || 'Unknown Service'`. */
  function ServiceTitle(services: seq<Service>, id: string): (t: string)
    ensures FindServiceById(services, id).None? ==> t == UnknownService
    ensures FindServiceById(services, id).Some? && FindServiceById(services, id).value.title != "" ==>
              t == FindServiceById(services, id).value.title
  {
    match FindServiceById(services, id)
    case None => UnknownService
    case Some(s) => if s.title == "" then UnknownService else s.title
  }

  /** `booking.customerId?.name || 'Unknown Customer'`. */
  function CustomerName(users: seq<User>, id: string): (n: string)
    ensures FindUserById(users, id).None? ==> n == UnknownCustomer
    ensures FindUserById(users, id).Some? && FindUserById(users, id).value.name != "" ==>
              n == FindUserById(users, id).value.name
  {
    match FindUserById(users, id)
    case None => UnknownCustomer
    case Some(u) => if u.name == "" then UnknownCustomer else u.name
  }

  function ActivityOf(b: Booking, users: seq<User>, services: seq<Service>, now: int): Activity
  {
    Activity(b.id, ServiceTitle(services, b.serviceId), CustomerName(users, b.customerId), b.status, b.totalPrice,
             b.createdAt, GetTimeAgo(b.createdAt, now))
  }

  /** `Booking.find({ taskioId })`: the caller's bookings. */
  function MyBookings(bookings: seq<Booking>, taskioId: string): seq<Booking>
  {
    Filter(bookings, (b: Booking) => b.taskioId == taskioId)
  }

  /** `.sort({ createdAt: -1 }).limit(5)` on the caller's bookings. */
  function RecentBookings(bookings: seq<Booking>, taskioId: string): seq<Booking>
  {
    Take(SortNewestFirst(MyBookings(bookings, taskioId), (b: Booking) => b.createdAt), RecentLimit)
  }

  /** The five kept are the caller's newest: they are taken from the caller's
      bookings, each at most once, and every booking left out is no newer
      than any booking kept. */
  lemma RecentBookingsAreNewest(bookings: seq<Booking>, taskioId: string)
    ensures multiset(RecentBookings(bookings, taskioId)) <= multiset(MyBookings(bookings, taskioId))
    ensures var recent := RecentBookings(bookings, taskioId);
            forall b :: b in multiset(MyBookings(bookings, taskioId)) - multiset(recent) ==>
              forall i :: 0 <= i < |recent| ==> b.createdAt <= recent[i].createdAt
  {
    var mine := MyBookings(bookings, taskioId);
    var sorted := SortNewestFirst(mine, (b: Booking) => b.createdAt);
    var recent := RecentBookings(bookings, taskioId);
    var rest := sorted[|recent|..];
    assert sorted == recent + rest;
    assert multiset(mine) == multiset(recent) + multiset(rest);
    forall b: Booking | b in multiset(mine) - multiset(recent)
      ensures forall i :: 0 <= i < |recent| ==> b.createdAt <= recent[i].createdAt
    {
      assert b in multiset(rest);
      var k :| 0 <= k < |rest| && rest[k] == b;
      assert sorted[|recent| + k] == b;
      forall i | 0 <= i < |recent| ensures b.createdAt <= recent[i].createdAt {
        assert recent[i] == sorted[i];
      }
    }
  }

  /** `Booking.find({ taskioId }).sort({ createdAt: -1 }).limit(5)`, then the `map`. */
  function RecentActivity(bookings: seq<Booking>, users: seq<User>, services: seq<Service>, taskioId: string,
                          now: int): (r: seq<Activity>)
    ensures |r| <= RecentLimit
  {
    var recent := RecentBookings(bookings, taskioId);
    seq(|recent|, i requires 0 <= i < |recent| => ActivityOf(recent[i], users, services, now))
  }

  /** The feed is newest first and cut at five only when the caller has more;
      each entry carries the id, amount and status of one of the caller's
      bookings. */
  lemma RecentActivityShape(bookings: seq<Booking>, users: seq<User>, services: seq<Service>, taskioId: string,
                            now: int)
    ensures var r := RecentActivity(bookings, users, services, taskioId, now);
            && |r| == (if TotalJobs(bookings, taskioId) < RecentLimit then TotalJobs(bookings, taskioId) else RecentLimit)
            && NewestFirst(r, (a: Activity) => a.createdAt)
            && forall i :: 0 <= i < |r| ==> exists b :: b in bookings && b.taskioId == taskioId && r[i].id == b.id
                                                      && r[i].amount == b.totalPrice && r[i].status == b.status
  {
    var mine := MyBookings(bookings, taskioId);
    var sorted := SortNewestFirst(mine, (b: Booking) => b.createdAt);
    var recent := RecentBookings(bookings, taskioId);
    var r := RecentActivity(bookings, users, services, taskioId, now);
    forall i | 0 <= i < |r|
      ensures exists b :: b in bookings && b.taskioId == taskioId && r[i].id == b.id
                          && r[i].amount == b.totalPrice && r[i].status == b.status
    {
      assert recent[i] == sorted[i];
      assert sorted[i] in sorted;
      SortKeepsElements(mine, (b: Booking) => b.createdAt, sorted[i]);
    }
    forall i, j | 0 <= i < j < |r| ensures r[i].createdAt >= r[j].createdAt {
      assert recent[i] == sorted[i] && recent[j] == sorted[j];
    }
  }

  /** The feed holds the caller's newest bookings, each at most once, and
      each entry's title, customer and elapsed time are those of its own
      booking: every booking of the caller left out is no newer than any
      entry shown. */
  lemma RecentActivityIsNewest(bookings: seq<Booking>, users: seq<User>, services: seq<Service>, taskioId: string,
                               now: int)
    ensures var r := RecentActivity(bookings, users, services, taskioId, now);
            var recent := RecentBookings(bookings, taskioId);
            && |r| == |recent|
            && (forall i :: 0 <= i < |r| ==> r[i] == ActivityOf(recent[i], users, services, now))
            && multiset(recent) <= multiset(MyBookings(bookings, taskioId))
    ensures var r := RecentActivity(bookings, users, services, taskioId, now);
            var recent := RecentBookings(bookings, taskioId);
            forall b :: b in multiset(MyBookings(bookings, taskioId)) - multiset(recent) ==>
              forall i :: 0 <= i < |r| ==> b.createdAt <= r[i].createdAt
  {
    RecentBookingsAreNewest(bookings, taskioId);
  }

  // ------------------------------------------------------------- handler

  datatype Stats = Stats(totalEarnings: real, activeJobs: nat, completedJobs: nat, totalServices: nat,
                         averageRating: real)

  datatype Dashboard = Dashboard(success: bool, stats: Stats, recentActivity: seq<Activity>)

  /** `GET /api/dashboard/stats`. There is no role check: any authenticated
      caller gets the figures keyed on their own id. An id that is not an
      ObjectId makes the queries throw, which the `catch` answers 500. */
  function DashboardStats(authorization: Option<string>, jwtVerify: string -> JwtOutcome, isObjectId: string -> bool,
                          bookings: seq<Booking>, services: seq<Service>, users: seq<User>, now: int)
    : (r: Reply<Dashboard>)
    ensures Authenticate(authorization, jwtVerify).Denied? ==> r == Err(401, Authenticate(authorization, jwtVerify).error)
    ensures r.Ok? <==> Authenticate(authorization, jwtVerify).Granted? && isObjectId(Authenticate(authorization, jwtVerify).claims.userId)
    ensures r.Ok? ==> var id := Authenticate(authorization, jwtVerify).claims.userId;
                      && r.status == 200 && r.body.success
                      && r.body.stats == Stats(Earnings(bookings, id), ActiveJobs(bookings, id), CompletedJobs(bookings, id),
                                               TotalServices(services, id), AverageRating)
                      && r.body.recentActivity == RecentActivity(bookings, users, services, id, now)
  {
    match Authenticate(authorization, jwtVerify)
    case Denied(status, error) => Err(status, error)
    case Granted(claims) =>
      var id := claims.userId;
      if !isObjectId(id) then Err(500, InternalError)
      else
        Ok(200, Dashboard(true, Stats(Earnings(bookings, id), ActiveJobs(bookings, id), CompletedJobs(bookings, id),
                                      TotalServices(services, id), AverageRating),
                          RecentActivity(bookings, users, services, id, now)))
  }
}
