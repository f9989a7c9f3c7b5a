// The order entities: orders with their items, the transactions and the
// invoices recorded for them. Amounts are whole currency units and times
// are instants, both as unbounded integers; nullable columns are options.
module Orders {
  import opened Wrappers
  import opened Tables
  import opened Guids

  /** PaymentLinkStatus. */
  datatype Status = Pending | Cancelled | Underpaid | Paid | Expired | Processing | Failed

  /** Status.ToString(). */
  function StatusName(s: Status): string
  {
    match s
    case Pending => "Pending"
    case Cancelled => "Cancelled"
    case Underpaid => "Underpaid"
    case Paid => "Paid"
    case Expired => "Expired"
    case Processing => "Processing"
    case Failed => "Failed"
  }

  const AllStatuses: seq<Status> := [Pending, Cancelled, Underpaid, Paid, Expired, Processing, Failed]

  /** Every status appears once in AllStatuses, and distinct statuses have distinct names. */
  lemma StatusesListed(s: Status, t: Status)
    ensures s in AllStatuses
    ensures s != t ==> StatusName(s) != StatusName(t)
  {
  }

  datatype OrderItem = OrderItem(name: Option<string>, quantity: int, price: int, unit: Option<string>, taxPercentage: Option<int>)

  /** Every column of an order except Id. */
  datatype OrderData = OrderData(
    userId: Guid,
    orderCode: int,
    totalAmount: int,
    orderDate: int,
    description: Option<string>,
    items: seq<OrderItem>,
    paymentLinkId: Option<string>,
    qrCode: Option<string>,
    checkoutUrl: Option<string>,
    status: Status,
    amount: int,
    amountPaid: int,
    amountRemaining: int,
    buyerName: Option<string>,
    buyerCompanyName: Option<string>,
    buyerEmail: Option<string>,
    buyerPhone: Option<string>,
    buyerAddress: Option<string>,
    bin: Option<string>,
    accountNumber: Option<string>,
    accountName: Option<string>,
    currency: Option<string>,
    returnUrl: Option<string>,
    cancelUrl: Option<string>,
    createdAt: Option<int>,
    canceledAt: Option<int>,
    expiredAt: Option<int>,
    lastTransactionUpdate: Option<int>,
    cancellationReason: Option<string>,
    buyerNotGetInvoice: Option<bool>,
    taxPercentage: Option<int>)

  type Order = Row<OrderData>

  /**
   * UpdateAsync's copy: the existing order takes every listed property of
   * the update, one by one; Id and UserId are not in the list.
   */
  function MergeOrder(existing: Order, updated: Order): Order
  {
    var u := updated.data;
    existing.(data := existing.data.(
      orderCode := u.orderCode, totalAmount := u.totalAmount, orderDate := u.orderDate,
      description := u.description, items := u.items,
      paymentLinkId := u.paymentLinkId, qrCode := u.qrCode, checkoutUrl := u.checkoutUrl, status := u.status,
      amount := u.amount, amountPaid := u.amountPaid, amountRemaining := u.amountRemaining,
      buyerName := u.buyerName, buyerCompanyName := u.buyerCompanyName, buyerEmail := u.buyerEmail,
      buyerPhone := u.buyerPhone, buyerAddress := u.buyerAddress,
      bin := u.bin, accountNumber := u.accountNumber, accountName := u.accountName, currency := u.currency,
      returnUrl := u.returnUrl, cancelUrl := u.cancelUrl,
      createdAt := u.createdAt, canceledAt := u.canceledAt, expiredAt := u.expiredAt,
      lastTransactionUpdate := u.lastTransactionUpdate,
      cancellationReason := u.cancellationReason,
      buyerNotGetInvoice := u.buyerNotGetInvoice, taxPercentage := u.taxPercentage))
  }

  /** The merged order is the update with the existing Id and UserId: nothing else of the existing order survives. */
  lemma MergeKeepsIdentity(existing: Order, updated: Order)
    ensures MergeOrder(existing, updated) == Row(existing.id, updated.data.(userId := existing.data.userId))
  {
  }

  /** Merging the same update twice changes nothing more. */
  lemma MergeIdempotent(existing: Order, updated: Order)
    ensures MergeOrder(MergeOrder(existing, updated), updated) == MergeOrder(existing, updated)
  {
  }

  /** A transaction of an order, without its Id. */
  datatype TransactionData = TransactionData(
    orderId: int,
    orderCode: int,
    paymentLinkId: string,
    reference: string,
    amount: int,
    accountNumber: string,
    description: string,
    transactionDateTime: int,
    virtualAccountName: Option<string>,
    virtualAccountNumber: Option<string>,
    counterAccountBankId: Option<string>,
    counterAccountBankName: Option<string>,
    counterAccountName: Option<string>,
    counterAccountNumber: Option<string>)

  type OrderTransaction = Row<TransactionData>

  /** An invoice of an order, without its Id. */
  datatype InvoiceData = InvoiceData(
    orderId: int,
    orderCode: int,
    paymentLinkId: string,
    invoiceId: string,
    invoiceNumber: Option<string>,
    issuedTimestamp: Option<int>,
    issuedDatetime: Option<int>,
    transactionId: Option<string>,
    reservationCode: Option<string>,
    codeOfTax: Option<string>)

  type OrderInvoice = Row<InvoiceData>
}
