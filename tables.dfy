// Generic helpers for database tables modelled as sequences of rows in
// insertion order: the first row matching a filter (a query's `.first()`),
// filtering, removal of one row, and offset/limit paging.

module Tables {
  import opened Strings

  /** Index of the first row satisfying `p`, as `query.filter(p).first()` finds it. */
  function FirstMatch<T>(s: seq<T>, p: T -> bool): (r: Option<nat>)
    ensures r.Some? ==> r.value < |s| && p(s[r.value])
    ensures r.Some? ==> forall k :: 0 <= k < r.value ==> !p(s[k])
    ensures r.None? <==> forall k :: 0 <= k < |s| ==> !p(s[k])
  {
    if |s| == 0 then None
    else if p(s[0]) then Some(0)
    else match FirstMatch(s[1..], p)
      case None => None
      case Some(k) => Some(k + 1)
  }

  /** The value stored under `key` in an association list, as a
      dictionary's `get` finds it: the first entry with that key. */
  function Lookup<K(==), V>(table: seq<(K, V)>, key: K): Option<V>
  {
    if |table| == 0 then None
    else if table[0].0 == key then Some(table[0].1)
    else Lookup(table[1..], key)
  }

  /** `Lookup` finds an entry stored under the key, and finds one whenever
      the table holds one. */
  lemma {:induction false} LookupFinds<K, V>(table: seq<(K, V)>, key: K)
    ensures Lookup(table, key).Some? ==> (key, Lookup(table, key).value) in table
    ensures Lookup(table, key).None? <==> forall k :: 0 <= k < |table| ==> table[k].0 != key
  {
    if |table| > 0 && table[0].0 != key {
      LookupFinds(table[1..], key);
      assert forall k :: 1 <= k < |table| ==> table[k] == table[1..][k - 1];
    }
  }

  /** An entry is found under its key when no earlier entry has that key. */
  lemma {:induction false} LookupAt<K, V>(table: seq<(K, V)>, k: int)
    requires 0 <= k < |table|
    requires forall j :: 0 <= j < k ==> table[j].0 != table[k].0
    ensures Lookup(table, table[k].0) == Some(table[k].1)
  {
    if k > 0 {
      LookupAt(table[1..], k - 1);
    }
  }

  /** The rows satisfying `p`, in table order (`query.filter(p).all()`). */
  function Filter<T>(s: seq<T>, p: T -> bool): (r: seq<T>)
    ensures |r| <= |s|
    ensures forall k :: 0 <= k < |r| ==> r[k] in s && p(r[k])
    ensures forall k :: 0 <= k < |s| && p(s[k]) ==> s[k] in r
  {
    if |s| == 0 then []
    else
      var last := s[|s| - 1];
      Filter(s[..|s| - 1], p) + if p(last) then [last] else []
  }

  /** A relation that holds between every earlier row and every later row
      still holds after filtering, because filtering keeps the order. */
  lemma {:induction false} FilterPairwise<T>(s: seq<T>, p: T -> bool, ok: (T, T) -> bool)
    requires forall i, j :: 0 <= i < j < |s| ==> ok(s[i], s[j])
    ensures forall i, j :: 0 <= i < j < |Filter(s, p)| ==> ok(Filter(s, p)[i], Filter(s, p)[j])
  {
    if |s| > 0 {
      var init := s[..|s| - 1];
      var last := s[|s| - 1];
      assert forall i, j :: 0 <= i < j < |init| ==> ok(init[i], init[j]) by {
        forall i, j | 0 <= i < j < |init| ensures ok(init[i], init[j]) {
          assert init[i] == s[i] && init[j] == s[j];
        }
      }
      FilterPairwise(init, p, ok);
      var front := Filter(init, p);
      if p(last) {
        var r := front + [last];
        assert Filter(s, p) == r;
        forall i, j | 0 <= i < j < |r| ensures ok(r[i], r[j]) {
          if j == |front| {
            assert r[i] == front[i] && r[j] == last;
            assert front[i] in init;
            var m :| 0 <= m < |init| && init[m] == front[i];
            assert init[m] == s[m];
            assert ok(s[m], s[|s| - 1]);
          } else {
            assert r[i] == front[i] && r[j] == front[j];
            assert ok(front[i], front[j]);
          }
        }
      } else {
        assert Filter(s, p) == front;
      }
    }
  }

  /** Filtering a table one row longer keeps the earlier result as a prefix. */
  lemma FilterSnoc<T>(s: seq<T>, x: T, p: T -> bool)
    ensures Filter(s + [x], p) == Filter(s, p) + if p(x) then [x] else []
  {
    assert (s + [x])[..|s|] == s;
  }

  /** A filter no row satisfies leaves nothing. */
  lemma {:induction false} FilterNothing<T>(s: seq<T>, p: T -> bool)
    requires forall x :: !p(x)
    ensures Filter(s, p) == []
  {
    if |s| > 0 {
      FilterNothing(s[..|s| - 1], p);
    }
  }

  /** The rows `f` produces from the rows of `s`, in order, skipping the
      rows it refuses; the row produced i-th is numbered `firstId + i`. */
  function CollectNumbered<T, U>(s: seq<T>, f: (T, int) -> Option<U>, firstId: int): (r: seq<U>)
    ensures |r| <= |s|
  {
    if |s| == 0 then []
    else
      var before := CollectNumbered(s[..|s| - 1], f, firstId);
      var next := f(s[|s| - 1], firstId + |before|);
      if next.Some? then before + [next.value] else before
  }

  /** Collecting from one more row adds at most that row's result, numbered
      `id`, the number after the earlier ones. */
  lemma CollectNumberedSnoc<T, U>(s: seq<T>, x: T, f: (T, int) -> Option<U>, firstId: int, id: int)
    requires id == firstId + |CollectNumbered(s, f, firstId)|
    ensures var before := CollectNumbered(s, f, firstId);
      CollectNumbered(s + [x], f, firstId) == if f(x, id).Some? then before + [f(x, id).value] else before
  {
    var t := s + [x];
    assert t[..|t| - 1] == s && t[|t| - 1] == x;
    var before := CollectNumbered(s, f, firstId);
    calc {
      CollectNumbered(t, f, firstId);
      { assert CollectNumbered(t[..|t| - 1], f, firstId) == before; }
      if f(x, id).Some? then before + [f(x, id).value] else before;
    }
  }

  /** When `f` produces a row exactly for the rows satisfying `p`, the rows
      collected are `f` applied to the filtered rows with consecutive numbers. */
  lemma {:induction false} CollectNumberedFiltered<T, U>(s: seq<T>, f: (T, int) -> Option<U>, p: T -> bool, firstId: int)
    requires forall x, id :: f(x, id).Some? <==> p(x)
    ensures |CollectNumbered(s, f, firstId)| == |Filter(s, p)|
    ensures forall k :: 0 <= k < |Filter(s, p)| ==>
      f(Filter(s, p)[k], firstId + k) == Some(CollectNumbered(s, f, firstId)[k])
  {
    if |s| > 0 {
      var init := s[..|s| - 1];
      var x := s[|s| - 1];
      CollectNumberedFiltered(init, f, p, firstId);
      var before := CollectNumbered(init, f, firstId);
      var front := Filter(init, p);
      if p(x) {
        var u := f(x, firstId + |before|).value;
        assert CollectNumbered(s, f, firstId) == before + [u];
        assert Filter(s, p) == front + [x];
      } else {
        assert CollectNumbered(s, f, firstId) == before;
        assert Filter(s, p) == front;
      }
    }
  }

  /** Adding rows one at a time to a table keeps it the old table followed
      by the rows added. */
  lemma AppendRow<T>(table: seq<T>, added: seq<T>, row: T)
    ensures (table + added) + [row] == table + (added + [row])
  {
  }

  /** The table without the row at index `i` (`db.delete(row)`). */
  function RemoveAt<T>(s: seq<T>, i: nat): (r: seq<T>)
    requires i < |s|
    ensures |r| == |s| - 1
    ensures forall k :: 0 <= k < i ==> r[k] == s[k]
    ensures forall k :: i <= k < |r| ==> r[k] == s[k + 1]
  {
    s[..i] + s[i + 1..]
  }

  /** `query.offset(skip).limit(limit).all()` for non-negative bounds. */
  function Page<T>(s: seq<T>, skip: nat, limit: nat): (r: seq<T>)
    ensures |r| == if skip >= |s| then 0 else if |s| - skip < limit then |s| - skip else limit
    ensures forall k :: 0 <= k < |r| ==> r[k] == s[skip + k]
  {
    if skip >= |s| then []
    else if |s| - skip < limit then s[skip..]
    else s[skip..skip + limit]
  }

  /** Two consecutive pages read the same rows as one page as long as both. */
  lemma PagesConcatenate<T>(s: seq<T>, skip: nat, a: nat, b: nat)
    ensures Page(s, skip, a) + Page(s, skip + a, b) == Page(s, skip, a + b)
  {
    var p, q, r := Page(s, skip, a), Page(s, skip + a, b), Page(s, skip, a + b);
    assert |p + q| == |r|;
    forall k | 0 <= k < |r| ensures (p + q)[k] == r[k] {
      if k < |p| {
      } else {
        assert (p + q)[k] == q[k - |p|] == s[skip + a + (k - |p|)];
      }
    }
  }
}
