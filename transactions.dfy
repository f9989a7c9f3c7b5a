// OrderTransactionRepository and OrderTransactionService: the payment
// transactions recorded against an order. The queries read a snapshot of the
// table's rows; deleting and creating change the table in place.
module OrderTransactions {
  import opened Wrappers
  import opened Linq
  import opened Tables
  import opened Orders

  /** The key of OrderByDescending(t => t.TransactionDateTime). */
  function DateTimeKey(t: OrderTransaction): Option<int>
  {
    Some(t.data.transactionDateTime)
  }

  /** Newest first: TransactionDateTime never increases along the sequence. */
  predicate NewestFirst(ts: seq<OrderTransaction>)
  {
    forall i, j :: 0 <= i < j < |ts| ==> ts[i].data.transactionDateTime >= ts[j].data.transactionDateTime
  }

  /** Where(p).OrderByDescending(TransactionDateTime): every matching row, as often as stored, newest first. */
  function NewestWhere(rows: seq<OrderTransaction>, p: OrderTransaction -> bool): (r: seq<OrderTransaction>)
    ensures forall t :: multiset(r)[t] == if p(t) then multiset(rows)[t] else 0
    ensures NewestFirst(r)
  {
    var r := SortBy(Where(rows, p), DateTimeKey, true);
    SortByOrdered(Where(rows, p), DateTimeKey, true);
    assert forall i, j :: 0 <= i < j < |r| ==> InOrder(true, DateTimeKey(r[i]), DateTimeKey(r[j]));
    r
  }

  function OfOrder(orderId: int): OrderTransaction -> bool
  {
    (t: OrderTransaction) => t.data.orderId == orderId
  }

  /** GetByOrderIdAsync: exactly the transactions of the order, newest first. */
  function GetByOrderId(rows: seq<OrderTransaction>, orderId: int): (r: seq<OrderTransaction>)
    ensures forall t :: multiset(r)[t] == if t.data.orderId == orderId then multiset(rows)[t] else 0
    ensures NewestFirst(r)
  {
    NewestWhere(rows, OfOrder(orderId))
  }

  /** GetByOrderCodeAsync: exactly the transactions with the order code, newest first. */
  function GetByOrderCode(rows: seq<OrderTransaction>, orderCode: int): (r: seq<OrderTransaction>)
    ensures forall t :: multiset(r)[t] == if t.data.orderCode == orderCode then multiset(rows)[t] else 0
    ensures NewestFirst(r)
  {
    NewestWhere(rows, (t: OrderTransaction) => t.data.orderCode == orderCode)
  }

  /** GetByPaymentLinkIdAsync: exactly the transactions of the payment link, newest first. */
  function GetByPaymentLinkId(rows: seq<OrderTransaction>, paymentLinkId: string): (r: seq<OrderTransaction>)
    ensures forall t :: multiset(r)[t] == if t.data.paymentLinkId == paymentLinkId then multiset(rows)[t] else 0
    ensures NewestFirst(r)
  {
    NewestWhere(rows, (t: OrderTransaction) => t.data.paymentLinkId == paymentLinkId)
  }

  /** After the order's transactions are deleted, querying that order finds none. */
  lemma DeletedOrderHasNoTransactions(rows: seq<OrderTransaction>, orderId: int)
    ensures GetByOrderId(Keep(rows, OfOrder(orderId)), orderId) == []
  {
  }

  /** Deleting by one order leaves what another order's query finds unchanged. */
  lemma {:induction false} DeleteKeepsOtherOrders(rows: seq<OrderTransaction>, deleted: int, orderId: int)
    requires deleted != orderId
    ensures Where(Keep(rows, OfOrder(deleted)), OfOrder(orderId)) == Where(rows, OfOrder(orderId))
    ensures GetByOrderId(Keep(rows, OfOrder(deleted)), orderId) == GetByOrderId(rows, orderId)
  {
    if rows != [] {
      DeleteKeepsOtherOrders(rows[1..], deleted, orderId);
    }
  }

  class OrderTransactionRepository {
    const table: Table<TransactionData>

    constructor (table: Table<TransactionData>)
      ensures this.table == table
    {
      this.table := table;
    }

    /**
     * DeleteByOrderIdAsync: the order's transactions go and the others stay,
     * in order; when none matches nothing is saved.
     */
    method DeleteByOrderId(orderId: int)
      requires table.Valid()
      modifies table`rows, table`saves
      ensures table.Valid()
      ensures table.rows == Keep(old(table.rows), OfOrder(orderId))
      ensures forall t :: t in table.rows <==> t in old(table.rows) && t.data.orderId != orderId
      ensures table.saves == old(table.saves) + (if exists t :: t in old(table.rows) && t.data.orderId == orderId then 1 else 0)
    {
      KeepExactly(table.rows, OfOrder(orderId));
      var matching := Where(table.rows, OfOrder(orderId));
      if |matching| == 0 {
        assert forall t :: t in table.rows ==> t !in matching;
        return;
      }
      assert matching[0] in matching;
      table.RemoveWhere(OfOrder(orderId));
    }
  }

  class OrderTransactionService {
    const transactions: OrderTransactionRepository

    constructor (transactions: OrderTransactionRepository)
      ensures this.transactions == transactions
    {
      this.transactions := transactions;
    }

    /** CreateTransactionAsync: the Id is reset to 0, so the database generates it. */
    method CreateTransaction(t: OrderTransaction) returns (stored: OrderTransaction)
      requires transactions.table.Valid()
      modifies transactions.table
      ensures transactions.table.Valid()
      ensures stored == t.(id := old(transactions.table.nextIdentity))
      ensures transactions.table.rows == old(transactions.table.rows) + [stored]
      ensures transactions.table.saves == old(transactions.table.saves) + 1
    {
      stored := transactions.table.Add(t.(id := 0));
    }

    /**
     * CreateTransactionsAsync: every element's Id is reset to 0 in place, then the
     * same elements, in the same order, are added in one save, and the save
     * writes each generated Id back into the caller's element.
     */
    method CreateTransactions(list: array<OrderTransaction>) returns (stored: seq<OrderTransaction>)
      requires transactions.table.Valid()
      modifies list, transactions.table
      ensures transactions.table.Valid()
      ensures forall k :: 0 <= k < list.Length ==> list[k] == old(list[k]).(id := old(transactions.table.nextIdentity) + k)
      ensures list[..] == stored
      ensures transactions.table.rows == old(transactions.table.rows) + stored
      ensures transactions.table.saves == old(transactions.table.saves) + 1
    {
      var i := 0;
      while i < list.Length
        modifies list
        invariant 0 <= i <= list.Length
        invariant forall k :: 0 <= k < i ==> list[k] == old(list[k]).(id := 0)
        invariant forall k :: i <= k < list.Length ==> list[k] == old(list[k])
      {
        list[i] := list[i].(id := 0);
        i := i + 1;
      }
      stored := transactions.table.AddRange(list[..]);
      // the tracked entities are the caller's own objects
      i := 0;
      while i < list.Length
        modifies list
        invariant 0 <= i <= list.Length
        invariant forall k :: 0 <= k < i ==> list[k] == stored[k]
        invariant forall k :: i <= k < list.Length ==> list[k] == old(list[k]).(id := 0)
      {
        list[i] := stored[i];
        i := i + 1;
      }
    }

    /** DeleteTransactionsByOrderIdAsync: delegates the delete and reports true. */
    method DeleteTransactionsByOrderId(orderId: int) returns (deleted: bool)
      requires transactions.table.Valid()
      modifies transactions.table`rows, transactions.table`saves
      ensures deleted
      ensures transactions.table.Valid()
      ensures transactions.table.rows == Keep(old(transactions.table.rows), OfOrder(orderId))
    {
      transactions.DeleteByOrderId(orderId);
      deleted := true;
    }
  }
}
