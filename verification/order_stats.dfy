/** The revenue statistics route (`GET /api/orders/stats`): four buckets of
    the session restaurant's non-cancelled orders (today, this week, this
    month, all time), each reporting how many orders it holds and their
    revenue, the sum of `price * quantity` over every line of every order.

    The local calendar is an input: the start of today in milliseconds,
    today's weekday (0 = Sunday, as `Date.getDay`) and today's day of the
    month (1-based, as `Date.getDate`). A day is taken to be exactly
    24 hours long. */
module OrderStats {
  import opened Common
  import opened Store

  const MsPerDay: int := 86400000
  const Cancelled: string := "cancelled"

  type Weekday = d: int | 0 <= d <= 6
  type DayOfMonth = d: int | 1 <= d <= 31 witness 1

  datatype Clock = Clock(todayStart: int, weekday: Weekday, dayOfMonth: DayOfMonth)

  /** `weekStart.setDate(weekStart.getDate() - weekStart.getDay())`: back to
      the most recent Sunday midnight. */
  function WeekStart(c: Clock): int
  {
    c.todayStart - c.weekday * MsPerDay
  }

  /** Midnight of the first day of the current month. */
  function MonthStart(c: Clock): int
  {
    c.todayStart - (c.dayOfMonth - 1) * MsPerDay
  }

  /** The week and the month both start at or before today, by whole days:
      at most six days back for the week, at most thirty for the month. */
  lemma {:induction false} BucketStartsBeforeToday(c: Clock)
    ensures WeekStart(c) <= c.todayStart
    ensures c.todayStart - WeekStart(c) <= 6 * MsPerDay
    ensures (c.todayStart - WeekStart(c)) % MsPerDay == 0
    ensures MonthStart(c) <= c.todayStart
    ensures c.todayStart - MonthStart(c) <= 30 * MsPerDay
    ensures (c.todayStart - MonthStart(c)) % MsPerDay == 0
  {
  }

  /** The week and the month are not nested: on Wednesday the 2nd the week
      began in the previous month, while on Saturday the 20th the month
      began before the week. */
  lemma WeekAndMonthUnordered()
    ensures var c := Clock(0, 3, 2); WeekStart(c) < MonthStart(c)
    ensures var c := Clock(0, 6, 20); MonthStart(c) < WeekStart(c)
  {
  }

  /** Which orders a bucket reads: the `where` clause of its query. */
  datatype Window = Since(start: int) | AllTime

  predicate InBucket(o: Order, userId: Id, w: Window)
  {
    && o.userId == userId
    && o.status != Cancelled
    && (w.Since? ==> o.createdAt >= w.start)
  }

  /** `findMany({ where: { userId, createdAt: { gte }, status: { not: 'cancelled' } } })`. */
  function BucketOrders(orders: seq<Order>, userId: Id, w: Window): (r: seq<Order>)
    ensures forall i :: 0 <= i < |r| ==> r[i].userId == userId && r[i].status != Cancelled
    ensures w.Since? ==> forall i :: 0 <= i < |r| ==> r[i].createdAt >= w.start
    ensures forall i :: 0 <= i < |r| ==> r[i] in orders
    ensures forall i :: 0 <= i < |orders| && InBucket(orders[i], userId, w) ==> orders[i] in r
  {
    FilterComplete(orders, (o: Order) => InBucket(o, userId, w));
    Filter(orders, (o: Order) => InBucket(o, userId, w))
  }

  /** `calcRevenue`: the value of every line of every order. */
  function Revenue(orders: seq<Order>): int
  {
    if |orders| == 0 then 0 else ItemsTotal(orders[0].items) + Revenue(orders[1..])
  }

  predicate NonNegativeOrders(orders: seq<Order>)
  {
    forall i :: 0 <= i < |orders| ==> NonNegativeLines(orders[i].items)
  }

  /** Revenue is additive over concatenated order lists; the empty list
      earns nothing. */
  lemma {:induction false} RevenueAppend(a: seq<Order>, b: seq<Order>)
    ensures Revenue([]) == 0
    ensures Revenue(a + b) == Revenue(a) + Revenue(b)
    decreases |a|
  {
    if |a| > 0 {
      assert (a + b)[0] == a[0];
      assert (a + b)[1..] == a[1..] + b;
      RevenueAppend(a[1..], b);
    } else {
      assert a + b == b;
    }
  }

  /** Dropping orders of non-negative value never raises the revenue. */
  lemma {:induction false} RevenueOfFilterBounded(orders: seq<Order>, p: Order -> bool)
    requires NonNegativeOrders(orders)
    ensures Revenue(Filter(orders, p)) <= Revenue(orders)
    decreases |orders|
  {
    if |orders| > 0 {
      ItemsTotalNonNegative(orders[0].items);
      RevenueOfFilterBounded(orders[1..], p);
      if p(orders[0]) {
        assert Filter(orders, p) == [orders[0]] + Filter(orders[1..], p);
        assert ([orders[0]] + Filter(orders[1..], p))[1..] == Filter(orders[1..], p);
      }
    }
  }

  datatype Bucket = Bucket(count: nat, revenue: int)
  datatype Stats = Stats(today: Bucket, week: Bucket, month: Bucket, allTime: Bucket)

  function Summarise(orders: seq<Order>): Bucket
  {
    Bucket(|orders|, Revenue(orders))
  }

  /** The statistics of one restaurant's orders, given the clock. */
  function StatsFor(orders: seq<Order>, userId: Id, c: Clock): Stats
  {
    Stats(
      Summarise(BucketOrders(orders, userId, Since(c.todayStart))),
      Summarise(BucketOrders(orders, userId, Since(WeekStart(c)))),
      Summarise(BucketOrders(orders, userId, Since(MonthStart(c)))),
      Summarise(BucketOrders(orders, userId, AllTime)))
  }

  /** The route: 401 without a session user, otherwise the four buckets. */
  function GetStats(session: Option<Id>, orders: seq<Order>, c: Clock): (r: Response<Stats>)
    ensures session.None? ==> r == Error(401, "Unauthorized")
    ensures session.Some? ==> r.Ok? && r.status == 200 && r.body == StatsFor(orders, session.value, c)
    ensures session.Some? ==> r.body.allTime.count == |Filter(orders, (o: Order) => o.userId == session.value && o.status != Cancelled)|
  {
    match session
    case None => Unauthorized()
    case Some(u) =>
      FilterSameOn(orders, (o: Order) => InBucket(o, u, AllTime), (o: Order) => o.userId == u && o.status != Cancelled);
      Ok(200, StatsFor(orders, u, c))
  }

  // ---------------------------------------------------------------------
  // Properties of the buckets
  // ---------------------------------------------------------------------

  /** A window that starts later selects a sub-list of one that starts
      earlier: exactly the earlier bucket's orders created since the later
      start. */
  lemma {:induction false} LaterWindowIsSubBucket(orders: seq<Order>, userId: Id, early: Window, late: int)
    requires early.AllTime? || early.start <= late
    ensures BucketOrders(orders, userId, Since(late))
         == Filter(BucketOrders(orders, userId, early), (o: Order) => o.createdAt >= late)
  {
    var p := (o: Order) => InBucket(o, userId, early);
    var q := (o: Order) => InBucket(o, userId, Since(late));
    var t := (o: Order) => o.createdAt >= late;
    FilterNarrow(orders, p, q);
    forall o | p(o) ensures t(o) == q(o) { }
    FilterCompose(orders, p, t, q);
  }

  /** today ⊆ week ⊆ all time and today ⊆ month ⊆ all time: counts grow
      along these inclusions, and so do revenues when no line has a
      negative price or quantity. */
  lemma {:induction false} BucketsNest(orders: seq<Order>, userId: Id, c: Clock)
    ensures var s := StatsFor(orders, userId, c);
      && s.today.count <= s.week.count <= s.allTime.count
      && s.today.count <= s.month.count <= s.allTime.count
    ensures NonNegativeOrders(orders) ==>
      var s := StatsFor(orders, userId, c);
      && s.today.revenue <= s.week.revenue <= s.allTime.revenue
      && s.today.revenue <= s.month.revenue <= s.allTime.revenue
  {
    BucketStartsBeforeToday(c);
    var all := BucketOrders(orders, userId, AllTime);
    var week := BucketOrders(orders, userId, Since(WeekStart(c)));
    var month := BucketOrders(orders, userId, Since(MonthStart(c)));
    LaterWindowIsSubBucket(orders, userId, Since(WeekStart(c)), c.todayStart);
    LaterWindowIsSubBucket(orders, userId, Since(MonthStart(c)), c.todayStart);
    LaterWindowIsSubBucket(orders, userId, AllTime, WeekStart(c));
    LaterWindowIsSubBucket(orders, userId, AllTime, MonthStart(c));
    if NonNegativeOrders(orders) {
      assert NonNegativeOrders(all) && NonNegativeOrders(week) && NonNegativeOrders(month);
      RevenueOfFilterBounded(all, (o: Order) => o.createdAt >= WeekStart(c));
      RevenueOfFilterBounded(all, (o: Order) => o.createdAt >= MonthStart(c));
      RevenueOfFilterBounded(week, (o: Order) => o.createdAt >= c.todayStart);
      RevenueOfFilterBounded(month, (o: Order) => o.createdAt >= c.todayStart);
    }
  }

  /** Tenant isolation: another restaurant's orders never contribute; the
      statistics over the whole order table equal those over the session
      restaurant's own orders. */
  lemma {:induction false} OtherTenantsIgnored(orders: seq<Order>, userId: Id, c: Clock)
    ensures StatsFor(orders, userId, c) == StatsFor(Filter(orders, (o: Order) => o.userId == userId), userId, c)
  {
    var own := (o: Order) => o.userId == userId;
    FilterNarrow(orders, own, (o: Order) => InBucket(o, userId, Since(c.todayStart)));
    FilterNarrow(orders, own, (o: Order) => InBucket(o, userId, Since(WeekStart(c))));
    FilterNarrow(orders, own, (o: Order) => InBucket(o, userId, Since(MonthStart(c))));
    FilterNarrow(orders, own, (o: Order) => InBucket(o, userId, AllTime));
  }

  /** Cancelling the order at index `i` leaves, in every bucket, the
      bucket's orders from before and after index `i`, without that order. */
  lemma {:induction false} CancelledBucketOrders(orders: seq<Order>, i: nat, userId: Id, w: Window)
    requires i < |orders|
    ensures var p := (o: Order) => InBucket(o, userId, w);
      && BucketOrders(orders, userId, w)
         == Filter(orders[..i], p) + Filter([orders[i]], p) + Filter(orders[i + 1..], p)
      && BucketOrders(orders[i := orders[i].(status := Cancelled)], userId, w)
         == Filter(orders[..i], p) + Filter(orders[i + 1..], p)
  {
    var p := (o: Order) => InBucket(o, userId, w);
    FilterSplitAt(orders, i, p);
    FilterOverwriteFailing(orders, i, orders[i].(status := Cancelled), p);
  }

  /** Cancelling the order at index `i` takes it out of every bucket it was
      in: the bucket loses one from its count and the order's value from its
      revenue; a bucket it was not in is unchanged. */
  lemma {:induction false} CancellingRemovesFromBucket(orders: seq<Order>, i: nat, userId: Id, w: Window)
    requires i < |orders|
    ensures var before := Summarise(BucketOrders(orders, userId, w));
      var after := Summarise(BucketOrders(orders[i := orders[i].(status := Cancelled)], userId, w));
      if InBucket(orders[i], userId, w) then
        after.count == before.count - 1 && after.revenue == before.revenue - ItemsTotal(orders[i].items)
      else
        after == before
  {
    var p := (o: Order) => InBucket(o, userId, w);
    CancelledBucketOrders(orders, i, userId, w);
    var a, b := Filter(orders[..i], p), Filter(orders[i + 1..], p);
    RevenueAppend(a, b);
    if p(orders[i]) {
      assert Filter([orders[i]], p) == [orders[i]];
      RevenueAppend(a, [orders[i]]);
      RevenueAppend(a + [orders[i]], b);
      assert Revenue([orders[i]]) == ItemsTotal(orders[i].items);
    } else {
      assert Filter([orders[i]], p) == [];
      assert a + [] == a;
    }
  }

  /** No bucket of the route's answer counts a cancelled order: the
      statistics do not change when cancelled orders are removed first. */
  lemma {:induction false} CancelledOrdersIgnored(orders: seq<Order>, userId: Id, c: Clock)
    ensures StatsFor(orders, userId, c) == StatsFor(Filter(orders, (o: Order) => o.status != Cancelled), userId, c)
  {
    var live := (o: Order) => o.status != Cancelled;
    FilterNarrow(orders, live, (o: Order) => InBucket(o, userId, Since(c.todayStart)));
    FilterNarrow(orders, live, (o: Order) => InBucket(o, userId, Since(WeekStart(c))));
    FilterNarrow(orders, live, (o: Order) => InBucket(o, userId, Since(MonthStart(c))));
    FilterNarrow(orders, live, (o: Order) => InBucket(o, userId, AllTime));
  }
}
