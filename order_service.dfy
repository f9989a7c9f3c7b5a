// OrderService: creating, updating and deleting orders through the Orders
// table. Lookups are the table's Find and the OrderRepository queries.
module OrderServices {
  import opened Wrappers
  import opened Tables
  import opened Orders

  class OrderService {
    const orders: Table<OrderData>

    constructor (orders: Table<OrderData>)
      ensures this.orders == orders
    {
      this.orders := orders;
    }

    /** CreateAsync: the Id is reset to 0, so the database generates it; the stored order is returned. */
    method Create(order: Order) returns (created: Order)
      requires orders.Valid()
      modifies orders
      ensures orders.Valid()
      ensures created == order.(id := old(orders.nextIdentity))
      ensures orders.rows == old(orders.rows) + [created]
      ensures orders.saves == old(orders.saves) + 1
      ensures orders.Find(created.id) == Some(created)
    {
      created := orders.Add(order.(id := 0));
      assert orders.rows[|orders.rows| - 1] == created;
    }

    /**
     * UpdateAsync: false, with nothing written, when no order has the update's
     * Id; otherwise the stored order takes every listed field of the update,
     * keeps its Id and UserId, is saved, and the answer is true.
     */
    method Update(updated: Order) returns (found: bool)
      requires orders.Valid()
      modifies orders`rows, orders`saves
      ensures orders.Valid()
      ensures found <==> old(orders.Find(updated.id)).Some?
      ensures !found ==> orders.rows == old(orders.rows) && orders.saves == old(orders.saves)
      ensures found ==> exists i :: 0 <= i < |old(orders.rows)| && old(orders.rows)[i].id == updated.id
                          && orders.rows == old(orders.rows)[i := MergeOrder(old(orders.rows)[i], updated)]
      ensures found ==> orders.saves == old(orders.saves) + 1
      ensures found ==> orders.Find(updated.id) == Some(MergeOrder(old(orders.Find(updated.id)).value, updated))
    {
      var index := IndexOf(orders.rows, updated.id);
      if index.None? {
        return false;
      }
      var i := index.value;
      var existing := orders.rows[i];
      orders.Update(i, MergeOrder(existing, updated));
      assert orders.rows[i] == MergeOrder(existing, updated);
      found := true;
    }

    /**
     * DeleteAsync: false, with nothing deleted, for an unknown Id; otherwise
     * exactly that order goes and the answer is true.
     */
    method Delete(id: int) returns (found: bool)
      requires orders.Valid()
      modifies orders`rows, orders`saves
      ensures orders.Valid()
      ensures found <==> old(orders.Find(id)).Some?
      ensures !found ==> orders.rows == old(orders.rows) && orders.saves == old(orders.saves)
      ensures found ==> forall x :: x in orders.rows <==> x in old(orders.rows) && x.id != id
      ensures found ==> orders.saves == old(orders.saves) + 1 && orders.Find(id).None?
    {
      var index := IndexOf(orders.rows, id);
      if index.None? {
        return false;
      }
      var i := index.value;
      ghost var before := orders.rows;
      orders.Delete(i);
      forall x
        ensures x in orders.rows <==> x in before && x.id != id
      {
        if x in before && x.id != id {
          var j :| 0 <= j < |before| && before[j] == x;
          assert j != i;
          if j < i {
            assert orders.rows[j] == x;
          } else {
            assert orders.rows[j - 1] == x;
          }
        }
        if x in orders.rows {
          var j :| 0 <= j < |orders.rows| && orders.rows[j] == x;
          var k := if j < i then j else j + 1;
          assert before[k] == x && k != i;
          assert before[k].id != before[i].id by {
            if k < i {
              assert before[k].id < before[i].id;
            } else {
              assert before[i].id < before[k].id;
            }
          }
        }
      }
      found := true;
    }
  }
}
