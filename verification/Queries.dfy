/** `SELECT id FROM rows WHERE keep ORDER BY key, id`, over tables whose row id is the row's position. */
module Queries {
  import opened Sums

  /** Ids of the kept rows, in insertion order. */
  function Where<T>(rows: seq<T>, keep: T -> bool): (ids: seq<nat>)
    ensures forall i: nat :: i in ids <==> i < |rows| && keep(rows[i])
    ensures forall i, j :: 0 <= i < j < |ids| ==> ids[i] < ids[j]
  {
    if rows == [] then []
    else
      var n := |rows| - 1;
      var rest := Where(rows[..n], keep);
      assert forall i :: 0 <= i < |rest| ==> rest[i] in rest;
      if keep(rows[n]) then rest + [n] else rest
  }

  predicate Precedes(a: nat, b: nat, key: nat -> int) {
    key(a) < key(b) || (key(a) == key(b) && a < b)
  }

  predicate Ordered(ids: seq<nat>, key: nat -> int) {
    forall i, j :: 0 <= i < j < |ids| ==> Precedes(ids[i], ids[j], key)
  }

  function Insert(id: nat, ids: seq<nat>, key: nat -> int): (r: seq<nat>)
    requires id !in ids && Ordered(ids, key)
    ensures Ordered(r, key)
    ensures forall x :: x in r <==> x == id || x in ids
  {
    if ids == [] then [id]
    else if Precedes(id, ids[0], key) then [id] + ids
    else
      var rest := Insert(id, ids[1..], key);
      assert forall x :: x in ids <==> x == ids[0] || x in ids[1..];
      assert forall j :: 0 <= j < |rest| ==> rest[j] in rest;
      assert forall x :: x in rest ==> Precedes(ids[0], x, key);
      [ids[0]] + rest
  }

  function OrderBy(ids: seq<nat>, key: nat -> int): (r: seq<nat>)
    requires forall i, j :: 0 <= i < j < |ids| ==> ids[i] != ids[j]
    ensures Ordered(r, key)
    ensures forall x :: x in r <==> x in ids
  {
    if ids == [] then []
    else
      var n := |ids| - 1;
      assert forall x :: x in ids <==> x in ids[..n] || x == ids[n];
      Insert(ids[n], OrderBy(ids[..n], key), key)
  }

  lemma {:induction false} InsertSum(id: nat, ids: seq<nat>, key: nat -> int, w: nat -> int)
    requires id !in ids && Ordered(ids, key)
    ensures Sum(Insert(id, ids, key), w) == Sum(ids, w) + w(id)
  {
    if ids == [] {
      assert Insert(id, ids, key)[..0] == [];
    } else if Precedes(id, ids[0], key) {
      SumConcat([id], ids, w);
      assert [id][..0] == [];
    } else {
      InsertSum(id, ids[1..], key, w);
      SumConcat([ids[0]], Insert(id, ids[1..], key), w);
      SumConcat([ids[0]], ids[1..], w);
      assert [ids[0]] + ids[1..] == ids;
    }
  }

  /** Ordering a result set does not change any total over it. */
  lemma {:induction false} OrderBySum(ids: seq<nat>, key: nat -> int, w: nat -> int)
    requires forall i, j :: 0 <= i < j < |ids| ==> ids[i] != ids[j]
    ensures Sum(OrderBy(ids, key), w) == Sum(ids, w)
  {
    if ids != [] {
      var n := |ids| - 1;
      OrderBySum(ids[..n], key, w);
      InsertSum(ids[n], OrderBy(ids[..n], key), key, w);
    }
  }

  /** A total over the kept rows is the total over the table when dropped rows weigh nothing. */
  lemma {:induction false} WhereSum<T>(rows: seq<T>, keep: T -> bool, f: T -> int, w: nat -> int)
    requires forall row :: row in rows && !keep(row) ==> f(row) == 0
    requires forall i: nat :: i < |rows| ==> w(i) == f(rows[i])
    ensures Sum(Where(rows, keep), w) == Sum(rows, f)
  {
    if rows != [] {
      var n := |rows| - 1;
      WhereSum(rows[..n], keep, f, w);
      assert rows[n] in rows;
      if keep(rows[n]) {
        SumAppend<nat>(Where(rows[..n], keep), n, w);
      }
    }
  }
}
