/** pandas' `DataFrame.groupby(keys)` as the two scripts iterate it: the distinct key
    values in ascending order, rows whose key is missing (NaN) dropped, and for each
    key the rows that carry it, in their original order. */
module Grouping {
  import opened Outcomes
  import opened Summaries
  import opened Order

  /** A group key: the tuple of the grouping columns' values. */
  type Key = seq<string>

  /** Each key is smaller than the next one. */
  predicate Ascending(keys: seq<Key>)
  {
    forall i :: 0 < i < |keys| ==> KeyLess(keys[i - 1], keys[i])
  }

  /** Adding k to an ascending list of keys, unless it is already there. */
  function Insert(k: Key, keys: seq<Key>): (r: seq<Key>)
    requires Ascending(keys)
    ensures Ascending(r)
    ensures forall x :: x in r <==> x == k || x in keys
    ensures r != [] && (r[0] == k || (keys != [] && r[0] == keys[0]))
  {
    if keys == [] then [k]
    else if k == keys[0] then keys
    else if KeyLess(k, keys[0]) then [k] + keys
    else
      KeyLessTotal(k, keys[0]);
      var rest := Insert(k, keys[1..]);
      assert forall x :: x in keys <==> x == keys[0] || x in keys[1..];
      [keys[0]] + rest
  }

  /** The keys groupby iterates over: those of the rows that have one, once each,
      ascending. */
  function GroupKeys(rows: seq<Row>, keyOf: Row -> Option<Key>): (keys: seq<Key>)
    ensures Ascending(keys)
    ensures forall k :: k in keys <==> exists i :: 0 <= i < |rows| && keyOf(rows[i]) == Some(k)
  {
    if rows == [] then []
    else
      var front := rows[..|rows| - 1];
      var keys := GroupKeys(front, keyOf);
      assert forall i :: 0 <= i < |front| ==> front[i] == rows[i];
      match keyOf(rows[|rows| - 1])
      case None => keys
      case Some(k) => Insert(k, keys)
  }

  /** An ascending list is ordered everywhere, not only between neighbours. */
  lemma {:induction false} AscendingEverywhere(keys: seq<Key>, i: nat, j: nat)
    requires Ascending(keys) && i < j < |keys|
    ensures KeyLess(keys[i], keys[j])
    decreases j - i
  {
    if i + 1 < j {
      AscendingEverywhere(keys, i + 1, j);
      KeyLessTransitive(keys[i], keys[i + 1], keys[j]);
    }
  }

  /** No key is listed twice. */
  lemma AscendingDistinct(keys: seq<Key>, i: nat, j: nat)
    requires Ascending(keys) && i < j < |keys|
    ensures keys[i] != keys[j]
  {
    AscendingEverywhere(keys, i, j);
    KeyLessIrreflexive(keys[i]);
  }

  /** `group` for key k: the rows whose key is k, in their original order. */
  function Group(rows: seq<Row>, keyOf: Row -> Option<Key>, k: Key): (g: seq<Row>)
    ensures |g| <= |rows|
    ensures forall i :: 0 <= i < |g| ==> keyOf(g[i]) == Some(k)
  {
    if rows == [] then []
    else (if keyOf(rows[0]) == Some(k) then [rows[0]] else []) + Group(rows[1..], keyOf, k)
  }

  /** A group holds each row with its key as often as the table does, and no other row. */
  lemma {:induction false} GroupCounts(rows: seq<Row>, keyOf: Row -> Option<Key>, k: Key, x: Row)
    ensures multiset(Group(rows, keyOf, k))[x] == if keyOf(x) == Some(k) then multiset(rows)[x] else 0
  {
    if rows != [] {
      assert rows == [rows[0]] + rows[1..];
      GroupCounts(rows[1..], keyOf, k, x);
    }
  }

  /** Grouping keeps the table's row order: the group of a table made of two parts is
      the group of the first part followed by the group of the second. */
  lemma {:induction false} GroupAppend(a: seq<Row>, b: seq<Row>, keyOf: Row -> Option<Key>, k: Key)
    ensures Group(a + b, keyOf, k) == Group(a, keyOf, k) + Group(b, keyOf, k)
  {
    if a != [] {
      var head := if keyOf(a[0]) == Some(k) then [a[0]] else [];
      assert (a + b)[0] == a[0] && (a + b)[1..] == a[1..] + b;
      GroupAppend(a[1..], b, keyOf, k);
      assert Group(a + b, keyOf, k) == head + (Group(a[1..], keyOf, k) + Group(b, keyOf, k));
    } else {
      assert a + b == b;
    }
  }

  /** Every key groupby lists has a nonempty group. */
  lemma GroupNonEmpty(rows: seq<Row>, keyOf: Row -> Option<Key>, k: Key)
    requires k in GroupKeys(rows, keyOf)
    ensures Group(rows, keyOf, k) != []
  {
    var i :| 0 <= i < |rows| && keyOf(rows[i]) == Some(k);
    assert multiset(rows)[rows[i]] > 0;
    GroupCounts(rows, keyOf, k, rows[i]);
  }

  /** The rows that have a key, in order: those groupby does not drop. */
  function Keyed(rows: seq<Row>, keyOf: Row -> Option<Key>): (r: seq<Row>)
    ensures forall x :: multiset(r)[x] == if keyOf(x).Some? then multiset(rows)[x] else 0
  {
    if rows == [] then []
    else
      assert rows == [rows[0]] + rows[1..];
      (if keyOf(rows[0]).Some? then [rows[0]] else []) + Keyed(rows[1..], keyOf)
  }

  /** The groups of the given keys, one after the other. */
  function Concat(rows: seq<Row>, keyOf: Row -> Option<Key>, keys: seq<Key>): seq<Row>
  {
    if keys == [] then [] else Group(rows, keyOf, keys[0]) + Concat(rows, keyOf, keys[1..])
  }

  lemma {:induction false} ConcatCounts(rows: seq<Row>, keyOf: Row -> Option<Key>, keys: seq<Key>, x: Row)
    requires forall i, j :: 0 <= i < j < |keys| ==> keys[i] != keys[j]
    ensures multiset(Concat(rows, keyOf, keys))[x] ==
            if keyOf(x).Some? && keyOf(x).value in keys then multiset(rows)[x] else 0
  {
    if keys != [] {
      assert forall i, j :: 0 <= i < j < |keys[1..]| ==> keys[1..][i] != keys[1..][j] by {
        forall i, j | 0 <= i < j < |keys[1..]| ensures keys[1..][i] != keys[1..][j] {
          assert keys[1..][i] == keys[i + 1] && keys[1..][j] == keys[j + 1];
        }
      }
      ConcatCounts(rows, keyOf, keys[1..], x);
      GroupCounts(rows, keyOf, keys[0], x);
      assert forall k :: k in keys <==> k == keys[0] || k in keys[1..];
      if keyOf(x) == Some(keys[0]) {
        assert keys[0] !in keys[1..] by {
          forall j | 0 <= j < |keys[1..]| ensures keys[1..][j] != keys[0] {
            assert keys[1..][j] == keys[j + 1];
          }
        }
      }
    }
  }

  /** The groups partition the rows that have a key: taken together they hold each
      such row exactly as often as the table does, and nothing else. */
  lemma GroupsPartition(rows: seq<Row>, keyOf: Row -> Option<Key>)
    ensures multiset(Concat(rows, keyOf, GroupKeys(rows, keyOf))) == multiset(Keyed(rows, keyOf))
  {
    var keys := GroupKeys(rows, keyOf);
    forall i, j | 0 <= i < j < |keys| ensures keys[i] != keys[j] {
      AscendingDistinct(keys, i, j);
    }
    forall x ensures multiset(Concat(rows, keyOf, keys))[x] == multiset(Keyed(rows, keyOf))[x] {
      ConcatCounts(rows, keyOf, keys, x);
      if keyOf(x).Some? && multiset(rows)[x] > 0 {
        assert x in rows;
        var i :| 0 <= i < |rows| && rows[i] == x;
        assert keyOf(rows[i]) == Some(keyOf(x).value);
      }
    }
  }
}
