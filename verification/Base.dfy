/** Values shared by every model: options, the clock, and rows kept as sequences. */
module Base {
  datatype Option<+T> = None | Some(value: T) {
    function GetOr(default: T): T {
      if Some? then value else default
    }
  }

  /** Milliseconds since the epoch, as in JavaScript dates. */
  type Time = int

  const SECOND: int := 1000
  const MINUTE: int := 60 * SECOND
  const HOUR: int := 60 * MINUTE
  const DAY: int := 24 * HOUR
}

/** Tables kept in creation order, and what selecting and rewriting their rows do. */
module Rows {

  function Filter<T(!new)>(p: T -> bool, rows: seq<T>): seq<T> {
    if rows == [] then [] else
      var rest := Filter(p, rows[..|rows| - 1]);
      var last := rows[|rows| - 1];
      if p(last) then rest + [last] else rest
  }

  function Map<T(!new), U>(f: T -> U, rows: seq<T>): seq<U> {
    seq(|rows|, i requires 0 <= i < |rows| => f(rows[i]))
  }

  function Sum<T(!new)>(f: T -> nat, rows: seq<T>): nat
  {
    if rows == [] then 0 else Sum(f, rows[..|rows| - 1]) + f(rows[|rows| - 1])
  }

  lemma {:induction false} FilterKeeps<T(!new)>(p: T -> bool, rows: seq<T>)
    ensures |Filter(p, rows)| <= |rows|
    ensures forall r :: r in Filter(p, rows) <==> r in rows && p(r)
  {
    if rows != [] {
      FilterKeeps(p, rows[..|rows| - 1]);
      assert rows == rows[..|rows| - 1] + [rows[|rows| - 1]];
    }
  }

  lemma FilterAppend<T(!new)>(p: T -> bool, rows: seq<T>, x: T)
    ensures Filter(p, rows + [x]) == if p(x) then Filter(p, rows) + [x] else Filter(p, rows)
  {
    assert (rows + [x])[..|rows|] == rows;
  }

  lemma MapAppend<T(!new), U>(f: T -> U, rows: seq<T>, x: T)
    ensures Map(f, rows + [x]) == Map(f, rows) + [f(x)]
  {
  }

  lemma SumAppend<T(!new)>(f: T -> nat, rows: seq<T>, x: T)
    ensures Sum(f, rows + [x]) == Sum(f, rows) + f(x)
  {
    assert (rows + [x])[..|rows|] == rows;
  }

  lemma {:induction false} FilterConcat<T(!new)>(p: T -> bool, a: seq<T>, b: seq<T>)
    ensures Filter(p, a + b) == Filter(p, a) + Filter(p, b)
  {
    if b == [] {
      assert a + b == a;
    } else {
      var init, last := b[..|b| - 1], b[|b| - 1];
      assert a + b == (a + init) + [last] && b == init + [last];
      FilterConcat(p, a, init);
      FilterAppend(p, a + init, last);
      FilterAppend(p, init, last);
    }
  }

  ghost predicate IsLast<T(!new)>(p: T -> bool, rows: seq<T>, i: int) {
    0 <= i < |rows| && p(rows[i]) && forall j :: i < j < |rows| ==> !p(rows[j])
  }

  /** The last row selected is the last that matches. */
  lemma {:induction false} LastSelected<T(!new)>(p: T -> bool, rows: seq<T>)
    requires Filter(p, rows) != []
    ensures exists i :: IsLast(p, rows, i) && rows[i] == Filter(p, rows)[|Filter(p, rows)| - 1]
  {
    var init, last := rows[..|rows| - 1], rows[|rows| - 1];
    if p(last) {
      assert IsLast(p, rows, |rows| - 1);
    } else {
      LastSelected(p, init);
      var i :| IsLast(p, init, i) && init[i] == Filter(p, init)[|Filter(p, init)| - 1];
      assert IsLast(p, rows, i);
    }
  }

  /** The positions of the rows that match. */
  function Places<T(!new)>(p: T -> bool, rows: seq<T>): set<nat> {
    set i: nat | i < |rows| && p(rows[i])
  }

  /** A selection is as long as there are positions that match … */
  lemma {:induction false} FilterCounts<T(!new)>(p: T -> bool, rows: seq<T>)
    ensures |Filter(p, rows)| == |Places(p, rows)|
  {
    if rows == [] {
      assert Places(p, []) == {};
    } else {
      var init, last := rows[..|rows| - 1], rows[|rows| - 1];
      FilterCounts(p, init);
      PlacesAppend(p, init, last);
      assert rows == init + [last];
      hide Places;
    }
  }

  lemma PlacesAppend<T(!new)>(p: T -> bool, rows: seq<T>, x: T)
    ensures |Places(p, rows + [x])| == |Places(p, rows)| + if p(x) then 1 else 0
  {
    assert Places(p, rows + [x]) == if p(x) then Places(p, rows) + {|rows|} else Places(p, rows);
  }

  /** … and leaves out as many rows as do not match. */
  lemma {:induction false} FiltersPart<T(!new)>(p: T -> bool, q: T -> bool, rows: seq<T>)
    requires forall r :: r in rows ==> q(r) == !p(r)
    ensures |Filter(p, rows)| + |Filter(q, rows)| == |rows|
  {
    if rows != [] {
      FiltersPart(p, q, rows[..|rows| - 1]);
    }
  }

  /** A selection that only picks rows another selection keeps sees the same rows after it. */
  lemma {:induction false} FilterThroughFilter<T(!new)>(p: T -> bool, q: T -> bool, rows: seq<T>)
    requires forall r :: r in rows && p(r) ==> q(r)
    ensures Filter(p, Filter(q, rows)) == Filter(p, rows)
  {
    if rows != [] {
      var init, last := rows[..|rows| - 1], rows[|rows| - 1];
      assert rows == init + [last];
      FilterThroughFilter(p, q, init);
      FilterAppend(p, Filter(q, init), last);
    }
  }

  lemma {:induction false} FiltersAgree<T(!new)>(p: T -> bool, q: T -> bool, rows: seq<T>)
    requires forall r :: r in rows ==> p(r) == q(r)
    ensures Filter(p, rows) == Filter(q, rows)
  {
    if rows != [] {
      FiltersAgree(p, q, rows[..|rows| - 1]);
    }
  }

  lemma {:induction false} FiltersCommute<T(!new)>(p: T -> bool, q: T -> bool, rows: seq<T>)
    ensures Filter(p, Filter(q, rows)) == Filter(q, Filter(p, rows))
  {
    if rows != [] {
      var init, last := rows[..|rows| - 1], rows[|rows| - 1];
      FiltersCommute(p, q, init);
      FilterAppend(p, Filter(q, init), last);
      FilterAppend(q, Filter(p, init), last);
    }
  }

  lemma {:induction false} FiltersNest<T(!new)>(p: T -> bool, q: T -> bool, both: T -> bool, rows: seq<T>)
    requires forall r :: r in rows ==> both(r) == (p(r) && q(r))
    ensures Filter(q, Filter(p, rows)) == Filter(both, rows)
  {
    if rows != [] {
      var init, last := rows[..|rows| - 1], rows[|rows| - 1];
      FiltersNest(p, q, both, init);
      FilterAppend(q, Filter(p, init), last);
    }
  }

  /** Rows outside q stay outside p when rewritten, so rewriting may skip them. */
  lemma {:induction false} FilterMapThroughFilter<T(!new)>(p: T -> bool, f: T -> T, q: T -> bool, rows: seq<T>)
    requires forall r :: r in rows && !q(r) ==> !p(f(r))
    ensures Filter(p, Map(f, rows)) == Filter(p, Map(f, Filter(q, rows)))
  {
    if rows != [] {
      var init, last := rows[..|rows| - 1], rows[|rows| - 1];
      assert rows == init + [last];
      FilterMapThroughFilter(p, f, q, init);
      MapAppend(f, init, last);
      FilterAppend(p, Map(f, init), f(last));
      if q(last) {
        MapAppend(f, Filter(q, init), last);
        FilterAppend(p, Map(f, Filter(q, init)), f(last));
      }
    }
  }

  /** A rewrite that makes no row match makes no more rows match. */
  lemma {:induction false} FilterOfMapShrinks<T(!new)>(p: T -> bool, g: T -> T, q: T -> bool, rows: seq<T>)
    requires forall r :: r in rows && p(g(r)) ==> q(r)
    ensures |Filter(p, Map(g, rows))| <= |Filter(q, rows)|
  {
    if rows != [] {
      var init, last := rows[..|rows| - 1], rows[|rows| - 1];
      assert rows == init + [last];
      FilterOfMapShrinks(p, g, q, init);
      MapAppend(g, init, last);
      FilterAppend(p, Map(g, init), g(last));
    }
  }

  lemma {:induction false} FilterOfFilterShrinks<T(!new)>(p: T -> bool, k: T -> bool, q: T -> bool, rows: seq<T>)
    requires forall r :: r in rows && p(r) ==> q(r)
    ensures |Filter(p, Filter(k, rows))| <= |Filter(q, rows)|
  {
    if rows != [] {
      var init, last := rows[..|rows| - 1], rows[|rows| - 1];
      assert rows == init + [last];
      FilterOfFilterShrinks(p, k, q, init);
      FilterAppend(p, Filter(k, init), last);
    }
  }

  lemma {:induction false} SumOfFilter<T(!new)>(f: T -> nat, p: T -> bool, rows: seq<T>)
    ensures Sum(f, Filter(p, rows)) <= Sum(f, rows)
  {
    if rows != [] {
      var init, last := rows[..|rows| - 1], rows[|rows| - 1];
      SumOfFilter(f, p, init);
      SumAppend(f, Filter(p, init), last);
    }
  }

  /** A rewrite that raises no row's weight raises no sum. */
  lemma {:induction false} SumOfMap<T(!new)>(f: T -> nat, g: T -> T, rows: seq<T>)
    requires forall r :: r in rows ==> f(g(r)) <= f(r)
    ensures Sum(f, Map(g, rows)) <= Sum(f, rows)
  {
    if rows != [] {
      var init, last := rows[..|rows| - 1], rows[|rows| - 1];
      assert rows == init + [last];
      SumOfMap(f, g, init);
      MapAppend(g, init, last);
      SumAppend(f, Map(g, init), g(last));
    }
  }

  /** … and if it lowers the weight of one row, it lowers the sum. */
  lemma {:induction false} SumOfMapDrops<T(!new)>(f: T -> nat, g: T -> T, rows: seq<T>, x: T)
    requires forall r :: r in rows ==> f(g(r)) <= f(r)
    requires x in rows && f(g(x)) < f(x)
    ensures Sum(f, Map(g, rows)) < Sum(f, rows)
  {
    var init, last := rows[..|rows| - 1], rows[|rows| - 1];
    assert rows == init + [last];
    MapAppend(g, init, last);
    SumAppend(f, Map(g, init), g(last));
    if x in init {
      SumOfMapDrops(f, g, init, x);
    } else {
      SumOfMap(f, g, init);
    }
  }
}

/** Tables looked up by a unique column, and when two of them answer alike. */
module Tables {

  /** Both tables hold the same live rows; the rest may be in either, both or neither. */
  ghost predicate Agree<K(!new), V(!new)>(a: map<K, V>, b: map<K, V>, alive: V -> bool) {
    forall k :: (k in a && alive(a[k])) || (k in b && alive(b[k])) ==> k in a && k in b && a[k] == b[k]
  }

  function Rewrite<K, V>(table: map<K, V>, f: (K, V) -> V): map<K, V> {
    map k | k in table :: f(k, table[k])
  }

  function Keep<K, V>(table: map<K, V>, p: V -> bool): map<K, V> {
    map k | k in table && p(table[k]) :: table[k]
  }

  /** The keys a selection leaves out. */
  function Dropped<K, V>(table: map<K, V>, p: V -> bool): set<K> {
    set k | k in table && !p(table[k])
  }

  lemma KeepCounts<K, V>(table: map<K, V>, p: V -> bool)
    ensures |table| - |Keep(table, p)| == |Dropped(table, p)|
  {
    assert table.Keys == Keep(table, p).Keys + Dropped(table, p);
  }

  lemma {:induction false} SubsetSize<T>(a: set<T>, b: set<T>)
    requires a <= b
    ensures |a| <= |b|
  {
    if a != {} {
      var x :| x in a;
      SubsetSize(a - {x}, b - {x});
    }
  }
}
