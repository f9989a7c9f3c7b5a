// OrderInvoiceRepository and OrderInvoiceService: the invoices issued for an
// order. The queries read a snapshot of the table's rows; deleting and
// creating change the table in place.
module OrderInvoices {
  import opened Wrappers
  import opened Linq
  import opened Tables
  import opened Orders

  /** The key of OrderByDescending(i => i.IssuedDatetime). */
  function IssuedKey(i: OrderInvoice): Option<int>
  {
    i.data.issuedDatetime
  }

  /**
   * Latest first: IssuedDatetime never increases along the sequence, and the
   * invoices without one come first, as the database sorts nulls above every
   * value.
   */
  predicate LatestFirst(ins: seq<OrderInvoice>)
  {
    forall i, j :: 0 <= i < j < |ins| ==> KeyLe(ins[j].data.issuedDatetime, ins[i].data.issuedDatetime)
  }

  /** Where(p).OrderByDescending(IssuedDatetime): every matching row, as often as stored, latest first. */
  function LatestWhere(rows: seq<OrderInvoice>, p: OrderInvoice -> bool): (r: seq<OrderInvoice>)
    ensures forall x :: multiset(r)[x] == if p(x) then multiset(rows)[x] else 0
    ensures LatestFirst(r)
  {
    var r := SortBy(Where(rows, p), IssuedKey, true);
    SortByOrdered(Where(rows, p), IssuedKey, true);
    assert forall i, j :: 0 <= i < j < |r| ==> InOrder(true, IssuedKey(r[i]), IssuedKey(r[j]));
    r
  }

  /** GetByInvoiceIdAsync: the first invoice with that InvoiceId, or none when there is none. */
  function GetByInvoiceId(rows: seq<OrderInvoice>, invoiceId: string): (r: Option<OrderInvoice>)
    ensures r.Some? ==> r.value in rows && r.value.data.invoiceId == invoiceId
    ensures r.None? <==> forall x :: x in rows ==> x.data.invoiceId != invoiceId
  {
    FirstWhere(rows, (x: OrderInvoice) => x.data.invoiceId == invoiceId)
  }

  function OfOrder(orderId: int): OrderInvoice -> bool
  {
    (x: OrderInvoice) => x.data.orderId == orderId
  }

  /** GetByOrderIdAsync: exactly the invoices of the order, latest first. */
  function GetByOrderId(rows: seq<OrderInvoice>, orderId: int): (r: seq<OrderInvoice>)
    ensures forall x :: multiset(r)[x] == if x.data.orderId == orderId then multiset(rows)[x] else 0
    ensures LatestFirst(r)
  {
    LatestWhere(rows, OfOrder(orderId))
  }

  /** GetByOrderCodeAsync: exactly the invoices with the order code, latest first. */
  function GetByOrderCode(rows: seq<OrderInvoice>, orderCode: int): (r: seq<OrderInvoice>)
    ensures forall x :: multiset(r)[x] == if x.data.orderCode == orderCode then multiset(rows)[x] else 0
    ensures LatestFirst(r)
  {
    LatestWhere(rows, (x: OrderInvoice) => x.data.orderCode == orderCode)
  }

  /** GetByPaymentLinkIdAsync: exactly the invoices of the payment link, latest first. */
  function GetByPaymentLinkId(rows: seq<OrderInvoice>, paymentLinkId: string): (r: seq<OrderInvoice>)
    ensures forall x :: multiset(r)[x] == if x.data.paymentLinkId == paymentLinkId then multiset(rows)[x] else 0
    ensures LatestFirst(r)
  {
    LatestWhere(rows, (x: OrderInvoice) => x.data.paymentLinkId == paymentLinkId)
  }

  /** After the order's invoices are deleted, querying that order finds none. */
  lemma DeletedOrderHasNoInvoices(rows: seq<OrderInvoice>, orderId: int)
    ensures GetByOrderId(Keep(rows, OfOrder(orderId)), orderId) == []
  {
  }

  /** Deleting by one order leaves what another order's query finds unchanged. */
  lemma {:induction false} DeleteKeepsOtherOrders(rows: seq<OrderInvoice>, deleted: int, orderId: int)
    requires deleted != orderId
    ensures Where(Keep(rows, OfOrder(deleted)), OfOrder(orderId)) == Where(rows, OfOrder(orderId))
    ensures GetByOrderId(Keep(rows, OfOrder(deleted)), orderId) == GetByOrderId(rows, orderId)
  {
    if rows != [] {
      DeleteKeepsOtherOrders(rows[1..], deleted, orderId);
    }
  }

  class OrderInvoiceRepository {
    const table: Table<InvoiceData>

    constructor (table: Table<InvoiceData>)
      ensures this.table == table
    {
      this.table := table;
    }

    /**
     * DeleteByOrderIdAsync: the order's invoices go and the others stay,
     * in order; when none matches nothing is saved.
     */
    method DeleteByOrderId(orderId: int)
      requires table.Valid()
      modifies table`rows, table`saves
      ensures table.Valid()
      ensures table.rows == Keep(old(table.rows), OfOrder(orderId))
      ensures forall x :: x in table.rows <==> x in old(table.rows) && x.data.orderId != orderId
      ensures table.saves == old(table.saves) + (if exists x :: x in old(table.rows) && x.data.orderId == orderId then 1 else 0)
    {
      KeepExactly(table.rows, OfOrder(orderId));
      var matching := Where(table.rows, OfOrder(orderId));
      if |matching| == 0 {
        assert forall x :: x in table.rows ==> x !in matching;
        return;
      }
      assert matching[0] in matching;
      table.RemoveWhere(OfOrder(orderId));
    }
  }

  class OrderInvoiceService {
    const invoices: OrderInvoiceRepository

    constructor (invoices: OrderInvoiceRepository)
      ensures this.invoices == invoices
    {
      this.invoices := invoices;
    }

    /**
     * CreateInvoicesAsync: every invoice's Id is reset to 0 in place, then the
     * same invoices, in the same order, are added in one save, and the save
     * writes each generated Id back into the caller's invoice.
     */
    method CreateInvoices(list: array<OrderInvoice>) returns (stored: seq<OrderInvoice>)
      requires invoices.table.Valid()
      modifies list, invoices.table
      ensures invoices.table.Valid()
      ensures forall k :: 0 <= k < list.Length ==> list[k] == old(list[k]).(id := old(invoices.table.nextIdentity) + k)
      ensures list[..] == stored
      ensures invoices.table.rows == old(invoices.table.rows) + stored
      ensures invoices.table.saves == old(invoices.table.saves) + 1
    {
      var i := 0;
      while i < list.Length
        modifies list
        invariant 0 <= i <= list.Length
        invariant forall k :: 0 <= k < i ==> list[k] == old(list[k]).(id := 0)
        invariant forall k :: i <= k < list.Length ==> list[k] == old(list[k])
      {
        list[i] := list[i].(id := 0);
        i := i + 1;
      }
      stored := invoices.table.AddRange(list[..]);
      // the tracked entities are the caller's own objects
      i := 0;
      while i < list.Length
        modifies list
        invariant 0 <= i <= list.Length
        invariant forall k :: 0 <= k < i ==> list[k] == stored[k]
        invariant forall k :: i <= k < list.Length ==> list[k] == old(list[k]).(id := 0)
      {
        list[i] := stored[i];
        i := i + 1;
      }
    }

    /** DeleteInvoicesByOrderIdAsync: delegates the delete and reports true. */
    method DeleteInvoicesByOrderId(orderId: int) returns (deleted: bool)
      requires invoices.table.Valid()
      modifies invoices.table`rows, invoices.table`saves
      ensures deleted
      ensures invoices.table.Valid()
      ensures invoices.table.rows == Keep(old(invoices.table.rows), OfOrder(orderId))
    {
      invoices.DeleteByOrderId(orderId);
      deleted := true;
    }
  }
}
