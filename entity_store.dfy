// The command consumer's view of its repository: the stored entities of the
// bound type, in storage order, looked up by Id.
module EntityStore {
  import opened Wrappers
  import opened Envelopes

  /** The store's primary key: no two rows share an Id. */
  ghost predicate UniqueKeys(rows: seq<Entity>)
  {
    forall i, j :: 0 <= i < j < |rows| ==> rows[i].id != rows[j].id
  }

  predicate HasKey(rows: seq<Entity>, k: Key)
  {
    exists e :: e in rows && e.id == k
  }

  /** GetByIdAsync: the row whose Id is k, or null. */
  function Find(rows: seq<Entity>, k: Key): (r: Option<Entity>)
    ensures r.Some? ==> r.value in rows && r.value.id == k
    ensures r.None? <==> !HasKey(rows, k)
  {
    if rows == [] then None
    else if rows[0].id == k then Some(rows[0])
    else (assert forall e :: e in rows ==> e == rows[0] || e in rows[1..]; Find(rows[1..], k))
  }

  /** With a primary key, the row found is the only one with that Id. */
  lemma FindUnique(rows: seq<Entity>, k: Key, i: nat)
    requires UniqueKeys(rows) && i < |rows| && rows[i].id == k
    ensures Find(rows, k) == Some(rows[i])
  {
    var r := Find(rows, k);
    assert r.Some?;
    var j :| 0 <= j < |rows| && rows[j] == r.value;
  }

  /** DeleteAsync: the rows without the one whose Id is k, in their order. */
  function Remove(rows: seq<Entity>, k: Key): (r: seq<Entity>)
    ensures forall e :: e in r <==> e in rows && e.id != k
    ensures |r| <= |rows|
  {
    if rows == [] then []
    else if rows[0].id == k then Remove(rows[1..], k)
    else [rows[0]] + Remove(rows[1..], k)
  }

  lemma {:induction false} RemoveUnique(rows: seq<Entity>, k: Key)
    requires UniqueKeys(rows)
    ensures UniqueKeys(Remove(rows, k))
    ensures |Remove(rows, k)| == if HasKey(rows, k) then |rows| - 1 else |rows|
  {
    if rows != [] {
      var tail := rows[1..];
      assert UniqueKeys(tail);
      RemoveUnique(tail, k);
      HeadKeyNotInTail(rows);
      if rows[0].id == k {
        RemoveAbsent(tail, k);
      } else {
        assert HasKey(rows, k) <==> HasKey(tail, k);
        ConsUnique(rows[0], Remove(tail, k));
      }
    }
  }

  /** Under a primary key, the first row's Id occurs nowhere after it. */
  lemma HeadKeyNotInTail(rows: seq<Entity>)
    requires UniqueKeys(rows) && rows != []
    ensures !HasKey(rows[1..], rows[0].id)
  {
    forall e | e in rows[1..] ensures e.id != rows[0].id {
      var j :| 0 <= j < |rows[1..]| && rows[1..][j] == e;
      assert rows[j + 1] == e;
    }
  }

  /** A row whose Id is not among unique rows can be put in front of them. */
  lemma ConsUnique(e: Entity, rows: seq<Entity>)
    requires UniqueKeys(rows) && !HasKey(rows, e.id)
    ensures UniqueKeys([e] + rows)
  {
    var r := [e] + rows;
    forall i, j | 0 <= i < j < |r| ensures r[i].id != r[j].id {
      if i == 0 {
        assert r[j] in rows;
      } else {
        assert r[i] == rows[i - 1] && r[j] == rows[j - 1];
      }
    }
  }

  lemma {:induction false} RemoveAbsent(rows: seq<Entity>, k: Key)
    requires !HasKey(rows, k)
    ensures Remove(rows, k) == rows
  {
    if rows != [] {
      assert rows[0] in rows;
      assert !HasKey(rows[1..], k) by {
        forall e | e in rows[1..] ensures e.id != k { assert e in rows; }
      }
      RemoveAbsent(rows[1..], k);
      assert [rows[0]] + rows[1..] == rows;
    }
  }

  /** UpdateAsync: the row with the updated entity's Id replaced by it; all others unchanged. */
  function Replace(rows: seq<Entity>, e: Entity): (r: seq<Entity>)
    ensures |r| == |rows|
    ensures forall i :: 0 <= i < |rows| ==> r[i].id == rows[i].id
    ensures forall i :: 0 <= i < |rows| && rows[i].id != e.id ==> r[i] == rows[i]
    ensures forall i :: 0 <= i < |rows| && rows[i].id == e.id ==> r[i] == e
  {
    seq(|rows|, i requires 0 <= i < |rows| => if rows[i].id == e.id then e else rows[i])
  }

  lemma ReplaceUnique(rows: seq<Entity>, e: Entity)
    requires UniqueKeys(rows)
    ensures UniqueKeys(Replace(rows, e))
  {
  }

  lemma AppendUnique(rows: seq<Entity>, e: Entity)
    requires UniqueKeys(rows) && !HasKey(rows, e.id)
    ensures UniqueKeys(rows + [e])
  {
    var r := rows + [e];
    forall i, j | 0 <= i < j < |r| ensures r[i].id != r[j].id {
      if j == |rows| { assert r[i] in rows; }
    }
  }

  /**
   * The in-place update of a stored entity: every property with a setter
   * other than Id takes the incoming value; Id and get-only properties stay.
   */
  function Merge(stored: Entity, incoming: Entity): (m: Entity)
  {
    Entity(stored.id, incoming.settable, stored.getOnly)
  }

  /** Merging is idempotent and merging an entity with itself changes nothing. */
  lemma MergeIdempotent(stored: Entity, incoming: Entity)
    ensures Merge(Merge(stored, incoming), incoming) == Merge(stored, incoming)
    ensures Merge(stored, stored) == stored
    ensures Merge(stored, incoming).id == stored.id
  {
  }
}
