// OrderRepository: the order queries, as functions of the Orders table's
// rows in storage order.
module OrderRepository {
  import opened Wrappers
  import opened Text
  import opened Guids
  import opened Linq
  import opened Tables
  import opened Orders

  /** GetByOrderCodeAsync's filter: the code, an open status, and not Paid. */
  predicate OpenWithCode(orderCode: int, o: Order)
  {
    o.data.orderCode == orderCode && (o.data.status == Pending || o.data.status == Processing) && o.data.status != Paid
  }

  function GetByOrderCode(orders: seq<Order>, orderCode: int): (r: Option<Order>)
    ensures r.Some? ==> r.value in orders && r.value.data.orderCode == orderCode
                        && r.value.data.status in {Pending, Processing}
    ensures r.None? <==> forall o :: o in orders && o.data.orderCode == orderCode ==> o.data.status !in {Pending, Processing}
  {
    FirstWhere(orders, o => OpenWithCode(orderCode, o))
  }

  function GetByPaymentLinkId(orders: seq<Order>, paymentLinkId: string): (r: Option<Order>)
    ensures r.Some? ==> r.value in orders && r.value.data.paymentLinkId == Some(paymentLinkId)
    ensures r.None? <==> forall o :: o in orders ==> o.data.paymentLinkId != Some(paymentLinkId)
  {
    FirstWhere(orders, (o: Order) => o.data.paymentLinkId == Some(paymentLinkId))
  }

  // ---------------------------------------------------------------------
  // GetByUserIdAsync

  /** The whitelisted sort keys. */
  datatype SortField = ByOrderDate | ByAmount | ByCreatedAt

  /** sortBy.ToLower(): "orderdate", "amount", and anything else means CreatedAt. */
  function SortFieldFor(sortBy: string): (f: SortField)
    ensures Lower(sortBy) == "orderdate" <==> f == ByOrderDate
    ensures Lower(sortBy) == "amount" <==> f == ByAmount
  {
    var s := Lower(sortBy);
    if s == "orderdate" then ByOrderDate else if s == "amount" then ByAmount else ByCreatedAt
  }

  /** The choice of key ignores letter case. */
  lemma SortFieldIgnoresCase(sortBy: string)
    ensures SortFieldFor(Lower(sortBy)) == SortFieldFor(sortBy)
  {
    LowerIdempotent(sortBy);
  }

  function SortKey(f: SortField): Order -> Option<int>
  {
    match f
    case ByOrderDate => (o: Order) => Some(o.data.orderDate)
    case ByAmount => (o: Order) => Some(o.data.amount)
    case ByCreatedAt => (o: Order) => o.data.createdAt
  }

  /** The user's orders, and only those with the status when one is given. */
  function UserOrders(orders: seq<Order>, userId: Guid, status: Option<Status>): (r: seq<Order>)
    ensures forall o :: o in r <==> o in orders && o.data.userId == userId && (status.Some? ==> o.data.status == status.value)
  {
    var mine := Where(orders, (o: Order) => o.data.userId == userId);
    if status.Some? then Where(mine, (o: Order) => o.data.status == status.value) else mine
  }

  /** The filtered orders in the requested order. */
  function SortedUserOrders(orders: seq<Order>, userId: Guid, status: Option<Status>, sortBy: string, descending: bool): seq<Order>
  {
    SortBy(UserOrders(orders, userId, status), SortKey(SortFieldFor(sortBy)), descending)
  }

  /** (page - 1) * limit. */
  function Offset(page: int, limit: int): (r: int)
    ensures page >= 1 && limit >= 0 ==> r >= 0
  {
    (page - 1) * limit
  }

  /** GetByUserIdAsync: one page of the sorted, filtered orders, and how many there are in all. */
  function GetByUserId(orders: seq<Order>, userId: Guid, page: int, limit: int, status: Option<Status>,
                       sortBy: string, descending: bool): (seq<Order>, int)
  {
    var sorted := SortedUserOrders(orders, userId, status, sortBy, descending);
    (Take(Skip(sorted, Offset(page, limit)), limit), |sorted|)
  }

  /**
   * The page is the slice of the sorted list from (page-1)*limit, at most
   * limit long, and ordered by the chosen key.
   */
  lemma GetByUserIdPage(orders: seq<Order>, userId: Guid, page: int, limit: int, status: Option<Status>,
                        sortBy: string, descending: bool)
    requires page >= 1 && limit >= 0
    ensures var sorted := SortedUserOrders(orders, userId, status, sortBy, descending);
      var lo := Min(Offset(page, limit), |sorted|);
      var rows := GetByUserId(orders, userId, page, limit, status, sortBy, descending).0;
      rows == sorted[lo..Min(lo + limit, |sorted|)] && |rows| <= limit
      && Ordered(rows, SortKey(SortFieldFor(sortBy)), descending)
  {
    var key := SortKey(SortFieldFor(sortBy));
    var sorted := SortedUserOrders(orders, userId, status, sortBy, descending);
    SortByOrdered(UserOrders(orders, userId, status), key, descending);
    PageIsSlice(sorted, Offset(page, limit), limit);
    OrderedPage(sorted, key, descending, Offset(page, limit), limit);
  }

  /** The sorted list holds exactly the filtered orders, and the total counts all of them. */
  lemma GetByUserIdTotal(orders: seq<Order>, userId: Guid, page: int, limit: int, status: Option<Status>,
                         sortBy: string, descending: bool)
    ensures var filtered := UserOrders(orders, userId, status);
      multiset(SortedUserOrders(orders, userId, status, sortBy, descending)) == multiset(filtered)
      && GetByUserId(orders, userId, page, limit, status, sortBy, descending).1 == |filtered|
  {
  }

  /** A C# int: the value wrapped to 32 bits, two's complement. */
  function Int32(x: int): (r: int)
    ensures -0x8000_0000 <= r < 0x8000_0000
    ensures (r - x) % 0x1_0000_0000 == 0
  {
    var m := x % 0x1_0000_0000;
    if m >= 0x8000_0000 then m - 0x1_0000_0000 else m
  }

  /** (page - 1) * limit as written: int arithmetic, which wraps around on overflow. */
  function Offset32(page: int, limit: int): int
  {
    Int32((page - 1) * limit)
  }

  /** The database's answer to an OFFSET below zero. */
  const NegativeOffset: string := "OFFSET must not be negative"

  /**
   * GetByUserIdAsync as written, with the wrapped offset, run by the
   * database: a negative OFFSET makes the query fail instead of returning
   * rows.
   */
  function GetByUserId32(orders: seq<Order>, userId: Guid, page: int, limit: int, status: Option<Status>,
                         sortBy: string, descending: bool): (r: Result<(seq<Order>, int), string>)
    ensures r.Err? <==> Offset32(page, limit) < 0
    ensures r.Err? ==> r.error == NegativeOffset
  {
    var sorted := SortedUserOrders(orders, userId, status, sortBy, descending);
    var offset := Offset32(page, limit);
    if offset < 0 then Err(NegativeOffset) else Ok((Take(Skip(sorted, offset), limit), |sorted|))
  }

  /** Page 21474838 with limit 100 passes the controller's checks, but its offset wraps to a negative number. */
  lemma OffsetWraps()
    ensures Offset(21474838, 100) == 2147483700
    ensures Offset32(21474838, 100) == -2147483596
  {
  }

  /** While (page - 1) * limit fits in an int, the query as written returns what the exact one does. */
  lemma GetByUserId32AgreesBelowWrap(orders: seq<Order>, userId: Guid, page: int, limit: int, status: Option<Status>,
                                     sortBy: string, descending: bool)
    requires page >= 1 && limit >= 0 && Offset(page, limit) < 0x8000_0000
    ensures GetByUserId32(orders, userId, page, limit, status, sortBy, descending)
         == Ok(GetByUserId(orders, userId, page, limit, status, sortBy, descending))
  {
    assert Offset32(page, limit) == Offset(page, limit);
  }

  /**
   * Page 21474838 with limit 100, for any user, fails as written with the
   * negative-OFFSET error, where the exact offset yields an empty page as
   * soon as the user has fewer than 2147483700 orders.
   */
  lemma OffsetWrapFailsQuery(orders: seq<Order>, userId: Guid, status: Option<Status>, sortBy: string, descending: bool)
    ensures GetByUserId32(orders, userId, 21474838, 100, status, sortBy, descending) == Err(NegativeOffset)
    ensures |orders| < 2147483700 ==> GetByUserId(orders, userId, 21474838, 100, status, sortBy, descending).0 == []
  {
    OffsetWraps();
    var sorted := SortedUserOrders(orders, userId, status, sortBy, descending);
    var filtered := UserOrders(orders, userId, status);
    GetByUserIdTotal(orders, userId, 21474838, 100, status, sortBy, descending);
    assert |sorted| == |multiset(sorted)| == |multiset(filtered)| == |filtered|;
  }

  /** A page is empty exactly when its offset reaches past the last filtered order. */
  lemma EmptyPageIffPastTotal(orders: seq<Order>, userId: Guid, page: int, limit: int, status: Option<Status>,
                              sortBy: string, descending: bool)
    requires page >= 1 && limit >= 1
    ensures var result := GetByUserId(orders, userId, page, limit, status, sortBy, descending);
      result.0 == [] <==> Offset(page, limit) >= result.1
  {
    EmptyPage(SortedUserOrders(orders, userId, status, sortBy, descending), Offset(page, limit), limit);
  }

  /** Every order on a page is the user's and, when a status is given, has it. */
  lemma GetByUserIdFilters(orders: seq<Order>, userId: Guid, page: int, limit: int, status: Option<Status>,
                           sortBy: string, descending: bool, o: Order)
    requires o in GetByUserId(orders, userId, page, limit, status, sortBy, descending).0
    ensures o in orders && o.data.userId == userId && (status.Some? ==> o.data.status == status.value)
  {
    var sorted := SortedUserOrders(orders, userId, status, sortBy, descending);
    var rows := Take(Skip(sorted, Offset(page, limit)), limit);
    assert forall x :: x in Skip(sorted, Offset(page, limit)) ==> x in sorted;
    assert o in sorted;
    assert o in multiset(sorted);
  }

  /** TotalCount does not depend on the page or the limit. */
  lemma TotalIgnoresPaging(orders: seq<Order>, userId: Guid, status: Option<Status>, sortBy: string, descending: bool,
                           page1: int, limit1: int, page2: int, limit2: int)
    ensures GetByUserId(orders, userId, page1, limit1, status, sortBy, descending).1
         == GetByUserId(orders, userId, page2, limit2, status, sortBy, descending).1
  {
  }

  // ---------------------------------------------------------------------
  // GetStatisticsByUserIdAsync

  datatype Statistics = Statistics(totalSpent: int, orderCountByStatus: map<string, int>)

  function ForUser(orders: seq<Order>, userId: Guid): seq<Order>
  {
    Where(orders, (o: Order) => o.data.userId == userId)
  }

  function CountStatus(rows: seq<Order>, st: Status): nat
  {
    Count(rows, (o: Order) => o.data.status == st)
  }

  function GetStatistics(orders: seq<Order>, userId: Guid): Statistics
  {
    var mine := ForUser(orders, userId);
    var spent := Sum(Where(mine, (o: Order) => o.data.status == Paid), (o: Order) => o.data.amountPaid);
    StatusNamesDistinct();
    Statistics(spent, map st | st in AllStatuses && CountStatus(mine, st) > 0 :: StatusName(st) := CountStatus(mine, st))
  }

  /** The amount paid on the user's Paid orders, summed one order at a time. */
  function PaidTotal(orders: seq<Order>, userId: Guid): int
  {
    if orders == [] then 0
    else (if orders[0].data.userId == userId && orders[0].data.status == Paid then orders[0].data.amountPaid else 0)
         + PaidTotal(orders[1..], userId)
  }

  lemma {:induction false} SpentIsPaidTotal(orders: seq<Order>, userId: Guid)
    ensures GetStatistics(orders, userId).totalSpent == PaidTotal(orders, userId)
  {
    if orders != [] {
      SpentIsPaidTotal(orders[1..], userId);
      var mine := ForUser(orders, userId);
      var rest := ForUser(orders[1..], userId);
      var paid := (o: Order) => o.data.status == Paid;
      var amountPaid := (o: Order) => o.data.amountPaid;
      if orders[0].data.userId == userId {
        assert mine == [orders[0]] + rest;
        assert mine[1..] == rest;
        if orders[0].data.status == Paid {
          assert Where(mine, paid) == [orders[0]] + Where(rest, paid);
          assert Where(mine, paid)[1..] == Where(rest, paid);
        }
      }
    }
  }

  /** No two statuses share a name, so the names can key the counts. */
  lemma StatusNamesDistinct()
    ensures forall s: Status, t: Status :: StatusName(s) == StatusName(t) ==> s == t
  {
    forall s: Status, t: Status
      ensures StatusName(s) == StatusName(t) ==> s == t
    {
      StatusesListed(s, t);
    }
  }

  /** A status is counted exactly when some order has it. */
  lemma CountPositive(rows: seq<Order>, st: Status)
    ensures CountStatus(rows, st) > 0 <==> exists o :: o in rows && o.data.status == st
  {
    var w := Where(rows, (o: Order) => o.data.status == st);
    if |w| > 0 {
      assert w[0] in w;
    }
    if exists o :: o in rows && o.data.status == st {
      var o :| o in rows && o.data.status == st;
      assert o in w;
    }
  }

  /** A status's name is a key of the counts exactly when some order of the user's has that status. */
  lemma CountedStatuses(orders: seq<Order>, userId: Guid, st: Status)
    ensures StatusName(st) in GetStatistics(orders, userId).orderCountByStatus
        <==> exists o :: o in ForUser(orders, userId) && o.data.status == st
  {
    CountPositive(ForUser(orders, userId), st);
    NameDeterminesStatus(st);
  }

  /** Under a status's name is the number of the user's orders with that status. */
  lemma CountsByStatus(orders: seq<Order>, userId: Guid, st: Status)
    requires StatusName(st) in GetStatistics(orders, userId).orderCountByStatus
    ensures GetStatistics(orders, userId).orderCountByStatus[StatusName(st)] == CountStatus(ForUser(orders, userId), st)
  {
    NameDeterminesStatus(st);
  }

  lemma NameDeterminesStatus(st: Status)
    ensures st in AllStatuses
    ensures forall s :: s in AllStatuses && StatusName(s) == StatusName(st) ==> s == st
  {
    StatusNamesDistinct();
  }

  /** The sum of the counts over a list of statuses. */
  function SumCounts(rows: seq<Order>, sts: seq<Status>): nat
  {
    if sts == [] then 0 else CountStatus(rows, sts[0]) + SumCounts(rows, sts[1..])
  }

  function Occurrences(sts: seq<Status>, st: Status): nat
  {
    if sts == [] then 0 else (if sts[0] == st then 1 else 0) + Occurrences(sts[1..], st)
  }

  lemma {:induction false} SumCountsStep(rows: seq<Order>, sts: seq<Status>)
    requires rows != []
    ensures SumCounts(rows, sts) == Occurrences(sts, rows[0].data.status) + SumCounts(rows[1..], sts)
  {
    if sts != [] {
      SumCountsStep(rows, sts[1..]);
    }
  }

  lemma {:induction false} SumCountsOfNone(sts: seq<Status>)
    ensures SumCounts([], sts) == 0
  {
    if sts != [] {
      SumCountsOfNone(sts[1..]);
    }
  }

  lemma OccursOnce(st: Status)
    ensures Occurrences(AllStatuses, st) == 1
  {
    var a := AllStatuses;
    assert a[1..] == [Cancelled, Underpaid, Paid, Expired, Processing, Failed];
    assert a[1..][1..] == [Underpaid, Paid, Expired, Processing, Failed];
    assert a[1..][1..][1..] == [Paid, Expired, Processing, Failed];
    assert a[1..][1..][1..][1..] == [Expired, Processing, Failed];
    assert a[1..][1..][1..][1..][1..] == [Processing, Failed];
    assert a[1..][1..][1..][1..][1..][1..] == [Failed];
    assert a[1..][1..][1..][1..][1..][1..][1..] == [];
  }

  /** The counts add up to the number of the user's orders. */
  lemma {:induction false} CountsSumToOrderCount(rows: seq<Order>)
    ensures SumCounts(rows, AllStatuses) == |rows|
  {
    if rows == [] {
      SumCountsOfNone(AllStatuses);
    } else {
      SumCountsStep(rows, AllStatuses);
      OccursOnce(rows[0].data.status);
      CountsSumToOrderCount(rows[1..]);
    }
  }
}
