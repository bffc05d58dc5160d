/** A table of the in-memory store is a map from an integer id to a row,
    with ids handed out by a counter that starts at 1. A JavaScript `Map`
    iterates in insertion order; since every id is inserted once, when the
    counter hands it out, and setting an existing key keeps its place, that
    order is ascending id order. This module states the table operations in
    those terms: `Array.from(map.values())`, `filter`, `find`, and deleting
    every row that matches while iterating over `entries()`. */
module Tables {
  import opened Base

  /** Every key lies in [1, next) and is the id its row carries. */
  ghost predicate WellKeyed<T>(m: map<int, T>, id: T -> int, next: int) {
    forall k :: k in m ==> 1 <= k < next && id(m[k]) == k
  }

  /** `Array.from(map.values())`: the rows with key below `next`, by
      ascending key. */
  function Rows<T>(m: map<int, T>, next: int): seq<T>
    decreases next
  {
    if next <= 1 then [] else Rows(m, next - 1) + (if next - 1 in m then [m[next - 1]] else [])
  }

  /** `rows.filter(r => field(r) === v)`. */
  function Filter<T, K(==)>(s: seq<T>, field: T -> K, v: K): seq<T>
    decreases |s|
  {
    if s == [] then []
    else Filter(s[..|s| - 1], field, v) + (if field(s[|s| - 1]) == v then [s[|s| - 1]] else [])
  }

  /** `rows.find(r => field(r) === v)`: the first matching row. */
  function Find<T, K(==)>(s: seq<T>, field: T -> K, v: K): (r: Option<T>)
    ensures r.Some? ==> exists i :: 0 <= i < |s| && s[i] == r.value && field(s[i]) == v
                          && forall j :: 0 <= j < i ==> field(s[j]) != v
    ensures r.None? <==> forall i :: 0 <= i < |s| ==> field(s[i]) != v
    decreases |s|
  {
    if s == [] then None
    else if field(s[0]) == v then Some(s[0])
    else
      var r := Find(s[1..], field, v);
      assert forall i :: 1 <= i < |s| ==> s[i] == s[1..][i - 1];
      r
  }

  /** What is left of a table after deleting every row that matches. */
  function Without<T, K(==)>(m: map<int, T>, field: T -> K, v: K): (r: map<int, T>)
    ensures forall k :: k in r <==> k in m && field(m[k]) != v
    ensures forall k :: k in r ==> r[k] == m[k]
  {
    map k | k in m && field(m[k]) != v :: m[k]
  }

  // ------------------------------------------------------------- lemmas

  /** The rows listed are exactly the stored rows. */
  lemma {:induction false} RowsMembers<T>(m: map<int, T>, next: int, x: T)
    ensures x in Rows(m, next) <==> exists k :: 1 <= k < next && k in m && m[k] == x
    decreases next
  {
    if next > 1 {
      RowsMembers(m, next - 1, x);
    }
  }

  /** In a well-keyed table a row is listed exactly when it is the row
      stored under its own id. */
  lemma RowsOfWellKeyed<T>(m: map<int, T>, id: T -> int, next: int, x: T)
    requires WellKeyed(m, id, next)
    ensures x in Rows(m, next) <==> id(x) in m && m[id(x)] == x
  {
    RowsMembers(m, next, x);
    if id(x) in m && m[id(x)] == x {
      var k := id(x);
      assert 1 <= k < next && k in m && m[k] == x;
    }
  }

  /** Listing a well-keyed table yields strictly increasing ids. */
  lemma {:induction false} RowsAscending<T>(m: map<int, T>, id: T -> int, next: int)
    requires WellKeyed(m, id, next)
    ensures forall i, j :: 0 <= i < j < |Rows(m, next)| ==> id(Rows(m, next)[i]) < id(Rows(m, next)[j])
    ensures forall i :: 0 <= i < |Rows(m, next)| ==> id(Rows(m, next)[i]) < next
    decreases next
  {
    if next > 1 {
      var m' := map k | k in m && k < next - 1 :: m[k];
      assert WellKeyed(m', id, next - 1);
      RowsAscending(m', id, next - 1);
      RowsAgree(m, m', next - 1);
    }
  }

  /** Rows below `next` depend only on the keys below `next`. */
  lemma {:induction false} RowsAgree<T>(m: map<int, T>, m': map<int, T>, next: int)
    requires forall k :: k < next ==> (k in m <==> k in m')
    requires forall k :: k < next && k in m ==> m[k] == m'[k]
    ensures Rows(m, next) == Rows(m', next)
    decreases next
  {
    if next > 1 {
      RowsAgree(m, m', next - 1);
    }
  }

  /** A well-keyed table lists one row per key. */
  lemma {:induction false} RowsCount<T>(m: map<int, T>, id: T -> int, next: int)
    requires WellKeyed(m, id, next)
    ensures |Rows(m, next)| == |m|
  {
    KeysBelowCount(m, next);
    assert (set k | k in m && 1 <= k < next) == m.Keys;
  }

  lemma {:induction false} KeysBelowCount<T>(m: map<int, T>, next: int)
    ensures |Rows(m, next)| == |set k | k in m && 1 <= k < next|
    decreases next
  {
    if next > 1 {
      KeysBelowCount(m, next - 1);
      var below := set k | k in m && 1 <= k < next - 1;
      var all := set k | k in m && 1 <= k < next;
      if next - 1 in m {
        assert all == below + {next - 1};
      } else {
        assert all == below;
      }
    } else {
      assert (set k | k in m && 1 <= k < next) == {};
    }
  }

  /** Filtering keeps exactly the matching rows. */
  lemma {:induction false} FilterMembers<T, K>(s: seq<T>, field: T -> K, v: K, x: T)
    ensures x in Filter(s, field, v) <==> x in s && field(x) == v
    decreases |s|
  {
    if s != [] {
      FilterMembers(s[..|s| - 1], field, v, x);
      assert s == s[..|s| - 1] + [s[|s| - 1]];
    }
  }

  /** Every filtered row matches. */
  lemma {:induction false} FilterAllMatch<T, K>(s: seq<T>, field: T -> K, v: K)
    ensures forall i :: 0 <= i < |Filter(s, field, v)| ==> field(Filter(s, field, v)[i]) == v
    ensures |Filter(s, field, v)| <= |s|
    decreases |s|
  {
    if s != [] {
      FilterAllMatch(s[..|s| - 1], field, v);
    }
  }

  lemma {:induction false} FilterAppend<T, K>(s: seq<T>, t: seq<T>, field: T -> K, v: K)
    ensures Filter(s + t, field, v) == Filter(s, field, v) + Filter(t, field, v)
    decreases |t|
  {
    if t == [] {
      assert s + t == s;
    } else {
      var t' := t[..|t| - 1];
      assert (s + t)[..|s + t| - 1] == s + t';
      FilterAppend(s, t', field, v);
    }
  }

  /** Appending a matching row to a sequence appends it to the selection. */
  lemma FilterAppendMatch<T, K>(s: seq<T>, x: T, field: T -> K, v: K)
    requires field(x) == v
    ensures Filter(s + [x], field, v) == Filter(s, field, v) + [x]
  {
    FilterAppend(s, [x], field, v);
    assert [x][..0] == [];
  }

  /** Filtering a list none of whose rows match gives the empty list. */
  lemma {:induction false} FilterNone<T, K>(s: seq<T>, field: T -> K, v: K)
    requires forall i :: 0 <= i < |s| ==> field(s[i]) != v
    ensures Filter(s, field, v) == []
    decreases |s|
  {
    if s != [] {
      FilterNone(s[..|s| - 1], field, v);
    }
  }

  /** After deleting the matching rows, a query for them finds nothing. */
  lemma WithoutLeavesNoMatch<T, K>(m: map<int, T>, field: T -> K, v: K, next: int)
    ensures Filter(Rows(Without(m, field, v), next), field, v) == []
  {
    var rs := Rows(Without(m, field, v), next);
    forall i | 0 <= i < |rs| ensures field(rs[i]) != v {
      RowsMembers(Without(m, field, v), next, rs[i]);
    }
    FilterNone(rs, field, v);
  }

  /** Adding a row under a key at or above `next` does not change the list
      of rows below `next`. */
  lemma RowsIgnoreLaterKeys<T>(m: map<int, T>, k: int, x: T, next: int)
    requires k >= next
    ensures Rows(m[k := x], next) == Rows(m, next)
  {
    RowsAgree(m[k := x], m, next);
  }

  /** Listing a table that has just received a row under key `next` appends
      that row. */
  lemma RowsAppendNew<T>(m: map<int, T>, x: T, next: int)
    requires next >= 1
    ensures Rows(m[next := x], next + 1) == Rows(m, next) + [x]
  {
    RowsIgnoreLaterKeys(m, next, x, next);
  }

  /** Raising the bound past every key lists the same rows. */
  lemma {:induction false} RowsPastKeys<T>(m: map<int, T>, next: int, next': int)
    requires next <= next'
    requires forall k :: k in m ==> k < next
    ensures Rows(m, next') == Rows(m, next)
    decreases next' - next
  {
    if next' > next {
      RowsPastKeys(m, next, next' - 1);
    }
  }

  /** Two tables that hold the same matching rows below `next` give the same
      filtered listing below `next`. */
  lemma {:induction false} FilterRowsAgree<T, K>(m: map<int, T>, m': map<int, T>, next: int, field: T -> K, v: K)
    requires forall k :: k < next && k in m && field(m[k]) == v ==> k in m' && m'[k] == m[k]
    requires forall k :: k < next && k in m' && field(m'[k]) == v ==> k in m && m[k] == m'[k]
    ensures Filter(Rows(m, next), field, v) == Filter(Rows(m', next), field, v)
    decreases next
  {
    if next > 1 {
      var k := next - 1;
      var tail := if k in m then [m[k]] else [];
      var tail' := if k in m' then [m'[k]] else [];
      FilterRowsAgree(m, m', k, field, v);
      FilterAppend(Rows(m, k), tail, field, v);
      FilterAppend(Rows(m', k), tail', field, v);
      assert Filter(tail, field, v) == Filter(tail', field, v) by {
        if k in m { assert tail[..0] == []; }
        if k in m' { assert tail'[..0] == []; }
      }
    }
  }

  /** A filtered listing stays as it was when the table keeps every
      matching row and gains none, however far the counter has moved. */
  lemma FilterUnchanged<T, K>(m: map<int, T>, m': map<int, T>, id: T -> int, next: int, next': int,
                              field: T -> K, v: K)
    requires WellKeyed(m, id, next) && next <= next'
    requires forall k :: k in m && field(m[k]) == v ==> k in m' && m'[k] == m[k]
    requires forall k :: k in m' && field(m'[k]) == v ==> k in m && m[k] == m'[k]
    ensures Filter(Rows(m', next'), field, v) == Filter(Rows(m, next), field, v)
  {
    RowsPastKeys(m, next, next');
    FilterRowsAgree(m, m', next', field, v);
  }

  /** Ids strictly increase along the list: the list is in insertion order. */
  ghost predicate Ascending<T>(s: seq<T>, id: T -> int) {
    forall i, j :: 0 <= i < j < |s| ==> id(s[i]) < id(s[j])
  }

  /** Filtering keeps the relative order of the rows it keeps. */
  lemma {:induction false} FilterAscending<T, K>(s: seq<T>, id: T -> int, field: T -> K, v: K)
    requires Ascending(s, id)
    ensures Ascending(Filter(s, field, v), id)
    decreases |s|
  {
    if s != [] {
      var init := s[..|s| - 1];
      FilterAscending(init, id, field, v);
      forall x | x in Filter(init, field, v) ensures id(x) < id(s[|s| - 1]) {
        FilterMembers(init, field, v, x);
        var i :| 0 <= i < |init| && init[i] == x;
        assert s[i] == x;
      }
    }
  }

  /** A filtered listing of a well-keyed table holds exactly the stored rows
      that match, in insertion order. */
  lemma SelectSpec<T, K>(m: map<int, T>, id: T -> int, next: int, field: T -> K, v: K)
    requires WellKeyed(m, id, next)
    ensures forall x :: x in Filter(Rows(m, next), field, v) <==> id(x) in m && m[id(x)] == x && field(x) == v
    ensures Ascending(Filter(Rows(m, next), field, v), id)
  {
    forall x ensures x in Filter(Rows(m, next), field, v) <==> id(x) in m && m[id(x)] == x && field(x) == v {
      FilterMembers(Rows(m, next), field, v, x);
      RowsOfWellKeyed(m, id, next, x);
    }
    RowsAscending(m, id, next);
    FilterAscending(Rows(m, next), id, field, v);
  }

  /** A search through a well-keyed table finds the matching row with the
      smallest id (the one inserted first), and finds nothing exactly when no
      stored row matches. */
  lemma FindSpec<T, K>(m: map<int, T>, id: T -> int, next: int, field: T -> K, v: K)
    requires WellKeyed(m, id, next)
    ensures Find(Rows(m, next), field, v).Some? ==>
              var x := Find(Rows(m, next), field, v).value;
              id(x) in m && m[id(x)] == x && field(x) == v
              && forall k :: k in m && field(m[k]) == v ==> id(x) <= k
    ensures Find(Rows(m, next), field, v).None? <==> forall k :: k in m ==> field(m[k]) != v
  {
    var s := Rows(m, next);
    RowsAscending(m, id, next);
    forall k | k in m ensures m[k] in s {
      RowsOfWellKeyed(m, id, next, m[k]);
    }
    var r := Find(s, field, v);
    if r.Some? {
      var i :| 0 <= i < |s| && s[i] == r.value && field(s[i]) == v
               && forall j :: 0 <= j < i ==> field(s[j]) != v;
      RowsOfWellKeyed(m, id, next, r.value);
      forall k | k in m && field(m[k]) == v ensures id(r.value) <= k {
        var j :| 0 <= j < |s| && s[j] == m[k];
        assert i <= j;
      }
    } else {
      forall k | k in m ensures field(m[k]) != v {
        var j :| 0 <= j < |s| && s[j] == m[k];
      }
    }
  }

  /** Overwriting the row a search finds with one that keeps its id and the
      searched field leaves the search finding the new row. */
  lemma FindAfterReplace<T, K>(m: map<int, T>, id: T -> int, next: int, field: T -> K, v: K, x: T)
    requires WellKeyed(m, id, next)
    requires Find(Rows(m, next), field, v).Some?
    requires id(x) == id(Find(Rows(m, next), field, v).value)
    requires field(x) == field(Find(Rows(m, next), field, v).value)
    ensures Find(Rows(m[id(x) := x], next), field, v) == Some(x)
  {
    var y := Find(Rows(m, next), field, v).value;
    var m' := m[id(x) := x];
    FindSpec(m, id, next, field, v);
    assert WellKeyed(m', id, next);
    FindSpec(m', id, next, field, v);
    assert field(m'[id(x)]) == v;
    var z := Find(Rows(m', next), field, v).value;
    assert id(z) <= id(x);
    assert id(z) == id(x);
  }

  // -------------------------------------------------------------- loops

  /** `Array.from(map.values())`, walking the keys in the order the counter
      handed them out. */
  method CollectRows<T>(m: map<int, T>, next: int) returns (rs: seq<T>)
    ensures rs == Rows(m, next)
  {
    rs := [];
    var k := 1;
    while k < next
      invariant k <= next || next <= 1
      invariant rs == Rows(m, if k <= 1 then 1 else k)
    {
      if k in m {
        rs := rs + [m[k]];
      }
      k := k + 1;
    }
    if next <= 1 {
      rs := [];
    }
  }

  /** `rows.filter(r => field(r) === v)`. */
  method FilterRows<T, K(==)>(s: seq<T>, field: T -> K, v: K) returns (r: seq<T>)
    ensures r == Filter(s, field, v)
  {
    r := [];
    var i := 0;
    while i < |s|
      invariant 0 <= i <= |s|
      invariant r == Filter(s[..i], field, v)
    {
      assert s[..i + 1][..i] == s[..i];
      if field(s[i]) == v {
        r := r + [s[i]];
      }
      i := i + 1;
    }
    assert s[..|s|] == s;
  }

  /** `rows.find(r => field(r) === v)`. */
  method FindRow<T, K(==)>(s: seq<T>, field: T -> K, v: K) returns (r: Option<T>)
    ensures r == Find(s, field, v)
  {
    var i := 0;
    while i < |s|
      invariant 0 <= i <= |s|
      invariant forall j :: 0 <= j < i ==> field(s[j]) != v
      invariant Find(s, field, v) == Find(s[i..], field, v)
    {
      if field(s[i]) == v {
        return Some(s[i]);
      }
      assert s[i..][1..] == s[i + 1..];
      i := i + 1;
    }
    r := None;
  }

  /** `for (const [key, row] of map.entries()) if (field(row) === v)
      map.delete(key)`. */
  method DeleteMatching<T, K(==)>(m: map<int, T>, field: T -> K, v: K, next: int) returns (r: map<int, T>)
    requires forall k :: k in m ==> 1 <= k < next
    ensures r == Without(m, field, v)
  {
    r := m;
    var k := 1;
    while k < next
      invariant forall j :: j in r <==> j in m && (j >= k || field(m[j]) != v)
      invariant forall j :: j in r ==> r[j] == m[j]
    {
      if k in r && field(r[k]) == v {
        r := r - {k};
      }
      k := k + 1;
    }
    var w := Without(m, field, v);
    forall j ensures j in r <==> j in w {
      if j in m {
        assert j < next <= k;
      }
    }
    assert r.Keys == w.Keys;
    assert forall j :: j in r ==> r[j] == w[j];
  }
}
