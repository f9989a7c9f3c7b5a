// OrderController: the checks and the arithmetic the HTTP endpoints do
// around the order service, up to the calls to the payment gateway.
module OrderApi {
  import opened Wrappers
  import opened Text
  import opened Guids
  import opened Linq
  import opened Tables
  import opened Orders
  import opened OrderRepository
  import OrderInvoices
  import opened OrderServices

  /** An endpoint that answers with something other than its body. */
  datatype Refusal =
    | BadRequest(message: string)
    | InvalidModelState
    | NotFound(detail: Option<string>)
    | StatusCode(code: int, message: string, error: Option<string>)

  datatype Reply<T> = Success(body: T) | CreatedAt(id: int, body: T) | Refused(refusal: Refusal)

  datatype Pagination = Pagination(page: int, limit: int, totalCount: int, totalPages: int)

  datatype PagedOrderResult = PagedOrderResult(data: seq<Order>, pagination: Pagination, statistics: Statistics)

  const PageTooSmall: string := "Page must be at least 1"
  const LimitOutOfRange: string := "Limit must be between 1 and 100"
  const MaxLimit: int := 100

  // ---------------------------------------------------------------------
  // GetByUserId

  /** (t + l - 1) / l, with Dafny's floor division for a positive divisor, is the ceiling of t / l. */
  lemma CeilingDivision(totalCount: int, limit: int)
    requires limit >= 1
    ensures var pages := (totalCount + limit - 1) / limit;
      (pages - 1) * limit < totalCount <= pages * limit
  {
    var n := totalCount + limit - 1;
    var pages := n / limit;
    var r := n % limit;
    assert n == pages * limit + r && 0 <= r < limit;
    assert (pages - 1) * limit == pages * limit - limit;
  }

  /** TotalPages = Math.Ceiling(totalCount / (double)limit), as integer ceiling division. */
  function TotalPages(totalCount: int, limit: int): (pages: int)
    requires limit >= 1
    ensures (pages - 1) * limit < totalCount <= pages * limit
  {
    CeilingDivision(totalCount, limit);
    (totalCount + limit - 1) / limit
  }

  /** No orders make no pages, and 25 orders at 10 a page make 3. */
  lemma TotalPagesExamples(limit: int)
    requires limit >= 1
    ensures TotalPages(0, limit) == 0
    ensures TotalPages(25, 10) == 3
  {
  }

  /** A product with a positive factor grows with the other factor. */
  lemma ScaleBack(a: int, b: int, limit: int)
    requires limit >= 1 && a * limit < b * limit
    ensures a < b
  {
  }

  /** The pages numbered 1 to TotalPages are exactly those whose offset falls before the total. */
  lemma PagesBeforeTotal(page: int, limit: int, totalCount: int)
    requires page >= 1 && limit >= 1
    ensures Offset(page, limit) < totalCount <==> page <= TotalPages(totalCount, limit)
  {
    var pages := TotalPages(totalCount, limit);
    if Offset(page, limit) < totalCount {
      ScaleBack(page - 1, pages, limit);
    }
    if page <= pages {
      assert (page - 1) * limit <= (pages - 1) * limit by {
        assert (pages - page) * limit >= 0;
      }
    }
  }

  /**
   * GetByUserId: a page below 1, then a limit outside 1..100, is refused
   * before any service call; a service failure is a 500; otherwise the page,
   * its metadata and the user's statistics.
   */
  function GetByUserId(orders: seq<Order>, userId: Guid, page: int, limit: int, status: Option<Status>,
                       sortBy: string, descending: bool, serviceError: Option<string>): (r: Reply<PagedOrderResult>)
    ensures page < 1 ==> r == Refused(BadRequest(PageTooSmall))
    ensures page >= 1 && (limit < 1 || limit > MaxLimit) ==> r == Refused(BadRequest(LimitOutOfRange))
    ensures page >= 1 && 1 <= limit <= MaxLimit && serviceError.Some? ==> r.Refused? && r.refusal.StatusCode? && r.refusal.code == 500
    ensures r.Success? <==> page >= 1 && 1 <= limit <= MaxLimit && serviceError.None?
    ensures r.Success? ==>
              |r.body.data| <= limit
              && r.body.pagination.page == page && r.body.pagination.limit == limit
              && r.body.pagination.totalCount == |UserOrders(orders, userId, status)|
              && r.body.pagination.totalPages == TotalPages(r.body.pagination.totalCount, limit)
              && r.body.statistics == GetStatistics(orders, userId)
    ensures r.Success? ==>
              var sorted := SortedUserOrders(orders, userId, status, sortBy, descending);
              var lo := Min(Offset(page, limit), |sorted|);
              r.body.data == sorted[lo..Min(lo + limit, |sorted|)]
              && Ordered(r.body.data, SortKey(SortFieldFor(sortBy)), descending)
  {
    if page < 1 then Refused(BadRequest(PageTooSmall))
    else if limit < 1 || limit > MaxLimit then Refused(BadRequest(LimitOutOfRange))
    else if serviceError.Some? then
      Refused(StatusCode(500, "Failed to retrieve orders for user " + GuidText(userId), serviceError))
    else
      var found := OrderRepository.GetByUserId(orders, userId, page, limit, status, sortBy, descending);
      GetByUserIdTotal(orders, userId, page, limit, status, sortBy, descending);
      GetByUserIdPage(orders, userId, page, limit, status, sortBy, descending);
      var pagination := Pagination(page, limit, found.1, TotalPages(found.1, limit));
      Success(PagedOrderResult(found.0, pagination, GetStatistics(orders, userId)))
  }

  /**
   * Page 21474838 with limit 100 passes both checks, the query as written
   * fails on its wrapped negative OFFSET, and the endpoint answers 500 with
   * that error, where the exact offset would give a successful empty page.
   */
  lemma WrappedPageIsServerError(orders: seq<Order>, userId: Guid, status: Option<Status>, sortBy: string, descending: bool)
    requires |orders| < 2147483700
    ensures var q := GetByUserId32(orders, userId, 21474838, 100, status, sortBy, descending);
      q == Err(NegativeOffset)
      && GetByUserId(orders, userId, 21474838, 100, status, sortBy, descending, Some(q.error))
         == Refused(StatusCode(500, "Failed to retrieve orders for user " + GuidText(userId), Some(NegativeOffset)))
    ensures var r := GetByUserId(orders, userId, 21474838, 100, status, sortBy, descending, None);
      r.Success? && r.body.data == []
  {
    OffsetWrapFailsQuery(orders, userId, status, sortBy, descending);
  }

  /** Limits 1 and 100 are accepted on the first page. */
  lemma LimitBoundsAccepted(orders: seq<Order>, userId: Guid)
    ensures GetByUserId(orders, userId, 1, 1, None, "createdAt", true, None).Success?
    ensures GetByUserId(orders, userId, 1, MaxLimit, None, "createdAt", true, None).Success?
  {
  }

  /** A page holds orders exactly when its number is within TotalPages. */
  lemma PageWithinTotalPages(orders: seq<Order>, userId: Guid, page: int, limit: int, status: Option<Status>,
                             sortBy: string, descending: bool)
    requires page >= 1 && 1 <= limit <= MaxLimit
    ensures var r := GetByUserId(orders, userId, page, limit, status, sortBy, descending, None);
      r.body.data != [] <==> page <= r.body.pagination.totalPages
  {
    var found := OrderRepository.GetByUserId(orders, userId, page, limit, status, sortBy, descending);
    EmptyPageIffPastTotal(orders, userId, page, limit, status, sortBy, descending);
    PagesBeforeTotal(page, limit, found.1);
  }

  // ---------------------------------------------------------------------
  // Get, CancelPayment, GetInvoices and DownloadInvoice

  /** The order exists and has a non-empty PaymentLinkId; anything else is NotFound. */
  function LinkedOrder(rows: seq<Order>, id: int): (r: Result<Order, Refusal>)
    ensures r.Ok? ==> r.value in rows && r.value.id == id && !IsNullOrEmpty(r.value.data.paymentLinkId)
    ensures r.Err? ==> r.error == NotFound(None)
    ensures r.Err? <==> FindIn(rows, id).None? || IsNullOrEmpty(FindIn(rows, id).value.data.paymentLinkId)
  {
    match FindIn(rows, id)
    case None => Err(NotFound(None))
    case Some(order) => if IsNullOrEmpty(order.data.paymentLinkId) then Err(NotFound(None)) else Ok(order)
  }

  /** `x` occurs in `s` and no invoice before it carries `invoiceId`. */
  predicate FirstWithInvoiceId(s: seq<OrderInvoice>, invoiceId: string, x: OrderInvoice)
  {
    exists i :: 0 <= i < |s| && s[i] == x && forall j :: 0 <= j < i ==> s[j].data.invoiceId != invoiceId
  }

  /**
   * DownloadInvoice before the download: the order guard, then the first
   * invoice with that InvoiceId among the order's invoices, latest issued
   * first, or NotFound with a message.
   */
  function InvoiceToDownload(orders: seq<Order>, invoices: seq<OrderInvoice>, orderId: int, invoiceId: string)
    : (r: Result<(Order, OrderInvoice), Refusal>)
    ensures r.Ok? ==> LinkedOrder(orders, orderId) == Ok(r.value.0)
                      && r.value.1 in invoices && r.value.1.data.orderId == orderId && r.value.1.data.invoiceId == invoiceId
    ensures r.Ok? ==> FirstWithInvoiceId(OrderInvoices.GetByOrderId(invoices, orderId), invoiceId, r.value.1)
    ensures LinkedOrder(orders, orderId).Err? ==> r == Err(NotFound(None))
    ensures LinkedOrder(orders, orderId).Ok? ==>
              (r == Err(NotFound(Some("Invoice not found for this order")))
               <==> forall x :: x in invoices && x.data.orderId == orderId ==> x.data.invoiceId != invoiceId)
  {
    match LinkedOrder(orders, orderId)
    case Err(e) => Err(e)
    case Ok(order) =>
      var mine := OrderInvoices.GetByOrderId(invoices, orderId);
      assert forall x :: x in mine <==> x in invoices && x.data.orderId == orderId by {
        forall x ensures x in mine <==> x in invoices && x.data.orderId == orderId {
          assert x in mine <==> multiset(mine)[x] > 0;
          assert x in invoices <==> multiset(invoices)[x] > 0;
        }
      }
      var named := (x: OrderInvoice) => x.data.invoiceId == invoiceId;
      match FirstWhere(mine, named)
      case None => Err(NotFound(Some("Invoice not found for this order")))
      case Some(invoice) =>
        var i :| 0 <= i < |mine| && mine[i] == invoice && named(mine[i]) && forall j :: 0 <= j < i ==> !named(mine[j]);
        assert FirstWithInvoiceId(mine, invoiceId, invoice) by {
          assert forall j :: 0 <= j < i ==> mine[j].data.invoiceId != invoiceId;
        }
        Ok((order, invoice))
  }

  // ---------------------------------------------------------------------
  // CreatePayment

  datatype ItemRequest = ItemRequest(name: Option<string>, quantity: int, price: int, unit: Option<string>, taxPercentage: Option<int>)

  datatype OrderCreateRequest = OrderCreateRequest(
    totalAmount: int,
    description: Option<string>,
    returnUrl: Option<string>,
    cancelUrl: Option<string>,
    buyerName: Option<string>,
    buyerCompanyName: Option<string>,
    buyerEmail: Option<string>,
    buyerPhone: Option<string>,
    buyerAddress: Option<string>,
    expiredAt: Option<int>,
    items: seq<ItemRequest>,
    buyerNotGetInvoice: Option<bool>,
    taxPercentage: Option<int>)

  /** What the gateway answers for a created payment link. */
  datatype PaymentLinkCreated = PaymentLinkCreated(
    description: string,
    paymentLinkId: string,
    qrCode: string,
    checkoutUrl: string,
    status: Status,
    amount: int,
    bin: string,
    accountNumber: string,
    accountName: string,
    currency: string)

  const DefaultReturnUrl: string := "https://your-domain.com/success"
  const DefaultCancelUrl: string := "https://your-domain.com/cancel"
  const UserHeader: string := "X-Auth-Request-User"
  /** default(DateTimeOffset), in ticks: CreatePayment never sets OrderDate. */
  const DefaultOrderDate: int := 0

  function OrderItemOf(i: ItemRequest): OrderItem
  {
    OrderItem(i.name, i.quantity, i.price, i.unit, i.taxPercentage)
  }

  /**
   * The order CreatePayment stores: owned by the header's user, nothing paid
   * yet, the whole amount remaining, and the URLs sent to the gateway.
   */
  function NewOrder(request: OrderCreateRequest, ownerId: Guid, orderCode: int,
                    link: PaymentLinkCreated, now: int): (o: Order)
    ensures o.id == 0 && o.data.userId == ownerId && o.data.orderCode == orderCode
    ensures o.data.amountPaid == 0 && o.data.amountRemaining == o.data.amount == link.amount
    ensures request.returnUrl.Some? ==> o.data.returnUrl == request.returnUrl
    ensures request.returnUrl.None? ==> o.data.returnUrl == Some(DefaultReturnUrl)
    ensures request.cancelUrl.Some? ==> o.data.cancelUrl == request.cancelUrl
    ensures request.cancelUrl.None? ==> o.data.cancelUrl == Some(DefaultCancelUrl)
    ensures o.data.orderDate == DefaultOrderDate && o.data.createdAt == Some(now)
    ensures o.data.paymentLinkId == Some(link.paymentLinkId) && o.data.status == link.status
    ensures |o.data.items| == |request.items|
  {
    Row(0, OrderData(
      userId := ownerId, orderCode := orderCode, totalAmount := request.totalAmount, orderDate := DefaultOrderDate,
      description := Some(link.description),
      items := seq(|request.items|, k requires 0 <= k < |request.items| => OrderItemOf(request.items[k])),
      paymentLinkId := Some(link.paymentLinkId), qrCode := Some(link.qrCode), checkoutUrl := Some(link.checkoutUrl),
      status := link.status, amount := link.amount, amountPaid := 0, amountRemaining := link.amount,
      buyerName := request.buyerName, buyerCompanyName := request.buyerCompanyName, buyerEmail := request.buyerEmail,
      buyerPhone := request.buyerPhone, buyerAddress := request.buyerAddress,
      bin := Some(link.bin), accountNumber := Some(link.accountNumber), accountName := Some(link.accountName),
      currency := Some(link.currency),
      returnUrl := Some(request.returnUrl.UnwrapOr(DefaultReturnUrl)),
      cancelUrl := Some(request.cancelUrl.UnwrapOr(DefaultCancelUrl)),
      createdAt := Some(now), canceledAt := None, expiredAt := request.expiredAt, lastTransactionUpdate := None,
      cancellationReason := None,
      buyerNotGetInvoice := request.buyerNotGetInvoice, taxPercentage := request.taxPercentage))
  }

  /** A missing header reads as the empty text; neither it nor "invalid-guid" is a Guid. */
  lemma BadHeadersRejected()
    ensures ParseGuid("").None? && ParseGuid("invalid-guid").None?
  {
  }

  class OrderController {
    const orders: OrderService

    constructor (orders: OrderService)
      ensures this.orders == orders
    {
      this.orders := orders;
    }

    /**
     * CreatePayment: a null request, then an invalid model, then a user
     * header that is not a Guid, then a gateway failure, is refused with
     * nothing stored; otherwise the new order is created and returned.
     */
    method CreatePayment(request: Option<OrderCreateRequest>, modelStateValid: bool, userHeader: string,
                         orderCode: int, now: int, gateway: Result<PaymentLinkCreated, string>)
      returns (reply: Reply<Order>)
      requires orders.orders.Valid()
      modifies orders.orders
      ensures orders.orders.Valid()
      ensures request.None? ==> reply == Refused(BadRequest("Order data is required"))
      ensures request.Some? && !modelStateValid ==> reply == Refused(InvalidModelState)
      ensures request.Some? && modelStateValid && ParseGuid(userHeader).None? ==>
                reply == Refused(StatusCode(401, "Unauthorized: Invalid user ID", None))
      ensures request.Some? && modelStateValid && ParseGuid(userHeader).Some? && gateway.Err? ==>
                reply == Refused(StatusCode(500, "Failed to create order", Some(gateway.error)))
      ensures !reply.CreatedAt? ==> orders.orders.rows == old(orders.orders.rows) && orders.orders.saves == old(orders.orders.saves)
      ensures reply.CreatedAt? <==> request.Some? && modelStateValid && ParseGuid(userHeader).Some? && gateway.Ok?
      ensures reply.CreatedAt? ==>
                var created := NewOrder(request.value, ParseGuid(userHeader).value, orderCode, gateway.value, now)
                               .(id := old(orders.orders.nextIdentity));
                reply == CreatedAt(created.id, created) && orders.orders.rows == old(orders.orders.rows) + [created]
    {
      if request.None? {
        return Refused(BadRequest("Order data is required"));
      }
      if !modelStateValid {
        return Refused(InvalidModelState);
      }
      var ownerId := ParseGuid(userHeader);
      if ownerId.None? {
        return Refused(StatusCode(401, "Unauthorized: Invalid user ID", None));
      }
      if gateway.Err? {
        return Refused(StatusCode(500, "Failed to create order", Some(gateway.error)));
      }
      var order := NewOrder(request.value, ownerId.value, orderCode, gateway.value, now);
      var created := orders.Create(order);
      reply := CreatedAt(created.id, created);
    }
  }
}
