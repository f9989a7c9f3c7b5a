// A database table with an identity key, as the repositories see it through
// the generic repository: rows in storage order, identities generated by
// the database for rows added with the default Id, and a count of saves.
module Tables {
  import opened Wrappers

  /** A stored entity: its integer identity and everything else. */
  datatype Row<D> = Row(id: int, data: D)

  /** Every row in the sequence carries the default Id 0. */
  predicate AllDefaultIds<D>(rs: seq<Row<D>>)
  {
    forall i :: 0 <= i < |rs| ==> rs[i].id == 0
  }

  /** The rows with identities first, first + 1, ... in order. */
  function Numbered<D>(rs: seq<Row<D>>, first: int): (r: seq<Row<D>>)
    ensures |r| == |rs|
    ensures forall i :: 0 <= i < |rs| ==> r[i] == rs[i].(id := first + i)
  {
    seq(|rs|, i requires 0 <= i < |rs| => rs[i].(id := first + i))
  }

  /** Identities increase along the rows, so no two rows share one. */
  predicate IdsIncrease<D>(rs: seq<Row<D>>)
  {
    forall i, j :: 0 <= i < j < |rs| ==> rs[i].id < rs[j].id
  }

  class Table<D(==)> {
    var rows: seq<Row<D>>
    var nextIdentity: int
    var saves: nat

    /** Identities are positive, below the next one to be generated, and increase along the rows. */
    ghost predicate Valid()
      reads this
    {
      1 <= nextIdentity
      && (forall i :: 0 <= i < |rows| ==> 1 <= rows[i].id < nextIdentity)
      && IdsIncrease(rows)
    }

    constructor ()
      ensures Valid() && rows == [] && nextIdentity == 1 && saves == 0
    {
      rows := [];
      nextIdentity := 1;
      saves := 0;
    }

    /** FindAsync(id). */
    function Find(id: int): (r: Option<Row<D>>)
      reads this
      requires Valid()
      ensures r.Some? <==> exists i :: 0 <= i < |rows| && rows[i].id == id
      ensures r.Some? ==> r.value in rows && r.value.id == id
      ensures forall i :: 0 <= i < |rows| && rows[i].id == id ==> r == Some(rows[i])
    {
      FindIn(rows, id)
    }

    /** AddAsync of a row with the default Id: the database generates its identity; one save. */
    method Add(r: Row<D>) returns (stored: Row<D>)
      requires Valid() && r.id == 0
      modifies this
      ensures Valid()
      ensures stored == r.(id := old(nextIdentity))
      ensures rows == old(rows) + [stored] && nextIdentity == old(nextIdentity) + 1
      ensures saves == old(saves) + 1
    {
      stored := r.(id := nextIdentity);
      rows := rows + [stored];
      nextIdentity := nextIdentity + 1;
      saves := saves + 1;
    }

    /** AddRangeAsync of rows with the default Id: consecutive identities, in order; one save. */
    method AddRange(rs: seq<Row<D>>) returns (stored: seq<Row<D>>)
      requires Valid() && AllDefaultIds(rs)
      modifies this
      ensures Valid()
      ensures stored == Numbered(rs, old(nextIdentity))
      ensures rows == old(rows) + stored && nextIdentity == old(nextIdentity) + |rs|
      ensures saves == old(saves) + 1
    {
      stored := Numbered(rs, nextIdentity);
      rows := rows + stored;
      nextIdentity := nextIdentity + |rs|;
      saves := saves + 1;
    }

    /** UpdateAsync: the row with the entity's Id takes its values; one save. */
    method Update(i: nat, r: Row<D>)
      requires Valid() && i < |rows| && rows[i].id == r.id
      modifies this`rows, this`saves
      ensures Valid()
      ensures rows == old(rows)[i := r] && saves == old(saves) + 1
    {
      rows := rows[i := r];
      saves := saves + 1;
    }

    /** DeleteAsync: the row goes; one save. */
    method Delete(i: nat)
      requires Valid() && i < |rows|
      modifies this`rows, this`saves
      ensures Valid()
      ensures rows == old(rows)[..i] + old(rows)[i + 1..] && saves == old(saves) + 1
    {
      ghost var before := rows;
      rows := rows[..i] + rows[i + 1..];
      forall a, b | 0 <= a < b < |rows|
        ensures rows[a].id < rows[b].id
      {
        assert rows[a] == before[if a < i then a else a + 1];
        assert rows[b] == before[if b < i then b else b + 1];
      }
      saves := saves + 1;
    }

    /** RemoveRange of the rows that satisfy p, then SaveChangesAsync. */
    method RemoveWhere(p: Row<D> -> bool)
      requires Valid()
      modifies this`rows, this`saves
      ensures Valid()
      ensures rows == Keep(old(rows), p) && saves == old(saves) + 1
    {
      KeepSubsequence(rows, p);
      assert forall x :: x in rows ==> 1 <= x.id < nextIdentity;
      rows := Keep(rows, p);
      saves := saves + 1;
    }
  }

  function FindIn<D>(rows: seq<Row<D>>, id: int): (r: Option<Row<D>>)
    ensures r.Some? <==> exists i :: 0 <= i < |rows| && rows[i].id == id
    ensures r.Some? ==> r.value in rows && r.value.id == id
  {
    if rows == [] then None
    else if rows[0].id == id then Some(rows[0])
    else
      var r := FindIn(rows[1..], id);
      assert forall i :: 1 <= i < |rows| ==> rows[i] == rows[1..][i - 1];
      r
  }

  /** The index of the row with this identity, when there is one. */
  function IndexOf<D>(rows: seq<Row<D>>, id: int): (r: Option<nat>)
    ensures r.Some? <==> exists i :: 0 <= i < |rows| && rows[i].id == id
    ensures r.Some? ==> r.value < |rows| && rows[r.value].id == id
  {
    if rows == [] then None
    else if rows[0].id == id then Some(0)
    else
      var r := IndexOf(rows[1..], id);
      assert forall i :: 1 <= i < |rows| ==> rows[i] == rows[1..][i - 1];
      if r.Some? then Some(r.value + 1) else None
  }

  /** The rows that do not satisfy p, in order. */
  function Keep<D>(rows: seq<Row<D>>, p: Row<D> -> bool): (r: seq<Row<D>>)
    ensures |r| <= |rows|
    ensures forall k :: 0 <= k < |r| ==> !p(r[k]) && r[k] in rows
  {
    if rows == [] then []
    else
      var rest := Keep(rows[1..], p);
      if p(rows[0]) then rest else [rows[0]] + rest
  }

  /** Dropping rows keeps the surviving ones in order, so their identities still increase. */
  lemma {:induction false} KeepSubsequence<D>(rows: seq<Row<D>>, p: Row<D> -> bool)
    requires IdsIncrease(rows)
    ensures IdsIncrease(Keep(rows, p))
  {
    if rows != [] {
      KeepSubsequence(rows[1..], p);
      var rest := Keep(rows[1..], p);
      forall k | 0 <= k < |rest|
        ensures rows[0].id < rest[k].id
      {
        var j :| 0 <= j < |rows[1..]| && rows[1..][j] == rest[k];
        assert rows[j + 1] == rest[k];
      }
      var r := Keep(rows, p);
      if !p(rows[0]) {
        assert r == [rows[0]] + rest;
        forall a, b | 0 <= a < b < |r|
          ensures r[a].id < r[b].id
        {
          assert r[b] == rest[b - 1];
          if a > 0 {
            assert r[a] == rest[a - 1];
            assert rest[a - 1].id < rest[b - 1].id;
          } else {
            assert r[a] == rows[0];
          }
        }
      }
    }
  }

  /** Keep drops exactly the rows that satisfy p. */
  lemma {:induction false} KeepExactly<D>(rows: seq<Row<D>>, p: Row<D> -> bool)
    ensures forall x :: x in rows && !p(x) ==> x in Keep(rows, p)
    ensures forall x :: x in Keep(rows, p) ==> x in rows && !p(x)
    ensures (forall x :: x in rows ==> !p(x)) ==> Keep(rows, p) == rows
  {
    if rows != [] {
      KeepExactly(rows[1..], p);
      assert forall x :: x in rows ==> x == rows[0] || x in rows[1..];
    }
  }
}
