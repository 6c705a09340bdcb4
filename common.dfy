/** Shared vocabulary of the backend model: optional values, handler results
    carrying an HTTP status (section 15 of RFC 9110) and Python's truthiness. */
module Common {

  datatype Option<+T> = None | Some(value: T)

  /** What a route handler produces: a value, or the `HTTPException(status, detail)` it raises. */
  datatype Result<+T> = Ok(value: T) | Error(status: int, detail: string)

  const BAD_REQUEST: int := 400
  const FORBIDDEN: int := 403
  const NOT_FOUND: int := 404
  const INTERNAL_SERVER_ERROR: int := 500

  /** Python truthiness of an optional string: `None` and `""` are false. */
  predicate Given(s: Option<string>) {
    s.Some? && s.value != ""
  }

  /** Python truthiness of an optional integer id: `None` and `0` are false. */
  predicate GivenId(x: Option<int>) {
    x.Some? && x.value != 0
  }

  /** `a or b` on optional strings. */
  function OrElse(a: Option<string>, b: string): (r: string)
    ensures Given(a) ==> r == a.value
    ensures !Given(a) ==> r == b
  {
    if Given(a) then a.value else b
  }

  /** The text of an optional string as an f-string renders it (`None` prints as "None"). */
  function Show(s: Option<string>): string {
    if s.Some? then s.value else "None"
  }
}

/** Sequence utilities used as comprehensions and SQL queries. */
module Seqs {
  import opened Common

  function Filter<T>(s: seq<T>, p: T -> bool): (r: seq<T>)
    ensures |r| <= |s|
    ensures forall i :: 0 <= i < |r| ==> r[i] in s && p(r[i])
    ensures forall i :: 0 <= i < |s| && p(s[i]) ==> s[i] in r
  {
    if s == [] then [] else (if p(s[0]) then [s[0]] else []) + Filter(s[1..], p)
  }

  function Count<T>(s: seq<T>, p: T -> bool): nat {
    |Filter(s, p)|
  }

  lemma {:induction false} FilterAppend<T>(a: seq<T>, b: seq<T>, p: T -> bool)
    ensures Filter(a + b, p) == Filter(a, p) + Filter(b, p)
  {
    if a == [] {
      assert a + b == b;
    } else {
      assert (a + b)[1..] == a[1..] + b;
      FilterAppend(a[1..], b, p);
    }
  }

  /** Counting over one more element adds one exactly when it matches. */
  lemma CountSnoc<T>(s: seq<T>, x: T, p: T -> bool)
    ensures Count(s + [x], p) == Count(s, p) + (if p(x) then 1 else 0)
  {
    FilterAppend(s, [x], p);
    FilterSingle(x, p);
  }

  /** Filtering twice is filtering once by both conditions. */
  lemma {:induction false} FilterFilter<T>(s: seq<T>, p: T -> bool, q: T -> bool, both: T -> bool)
    requires forall x :: both(x) == (p(x) && q(x))
    ensures Filter(Filter(s, p), q) == Filter(s, both)
  {
    if s != [] {
      FilterFilter(s[1..], p, q, both);
      var head := if p(s[0]) then [s[0]] else [];
      FilterAppend(head, Filter(s[1..], p), q);
      if p(s[0]) {
        FilterSingle(s[0], q);
      }
    }
  }

  lemma FilterSingle<T>(x: T, p: T -> bool)
    ensures Filter([x], p) == if p(x) then [x] else []
  {
    assert [x][1..] == [];
  }

  lemma {:induction false} NoneKept<T>(s: seq<T>, p: T -> bool)
    requires forall i :: 0 <= i < |s| ==> !p(s[i])
    ensures Filter(s, p) == []
  {
    if s != [] {
      NoneKept(s[1..], p);
    }
  }

  lemma {:induction false} AllKept<T>(s: seq<T>, p: T -> bool)
    requires forall i :: 0 <= i < |s| ==> p(s[i])
    ensures Filter(s, p) == s
  {
    if s != [] {
      AllKept(s[1..], p);
    }
  }

  /** Filtering by two predicates that no element satisfies together keeps at most |s| in all. */
  lemma {:induction false} CountDisjoint<T>(s: seq<T>, p: T -> bool, q: T -> bool)
    requires forall x :: x in s ==> !(p(x) && q(x))
    ensures Count(s, p) + Count(s, q) <= |s|
    ensures Count(s, p) + Count(s, q) == Count(s, x => p(x) || q(x))
  {
    if s != [] {
      CountDisjoint(s[1..], p, q);
    }
  }

  lemma {:induction false} FilterOrder<T>(s: seq<T>, p: T -> bool, i: nat, j: nat)
    requires i < j < |Filter(s, p)|
    ensures exists a, b :: 0 <= a < b < |s| && s[a] == Filter(s, p)[i] && s[b] == Filter(s, p)[j]
  {
    var head := if p(s[0]) then [s[0]] else [];
    var tail := Filter(s[1..], p);
    assert Filter(s, p) == head + tail;
    if p(s[0]) && i == 0 {
      assert Filter(s, p)[j] == tail[j - 1];
      assert tail[j - 1] in s[1..];
      var b :| 0 <= b < |s[1..]| && s[1..][b] == tail[j - 1];
      assert s[b + 1] == Filter(s, p)[j];
    } else {
      var i', j' := if p(s[0]) then i - 1 else i, if p(s[0]) then j - 1 else j;
      assert Filter(s, p)[i] == tail[i'] && Filter(s, p)[j] == tail[j'];
      FilterOrder(s[1..], p, i', j');
      var a, b :| 0 <= a < b < |s[1..]| && s[1..][a] == tail[i'] && s[1..][b] == tail[j'];
      assert s[a + 1] == Filter(s, p)[i] && s[b + 1] == Filter(s, p)[j];
    }
  }

  function Reverse<T>(s: seq<T>): (r: seq<T>)
    ensures |r| == |s|
    ensures forall i :: 0 <= i < |s| ==> r[i] == s[|s| - 1 - i]
  {
    if s == [] then [] else Reverse(s[1..]) + [s[0]]
  }

  lemma ReverseMembers<T>(s: seq<T>)
    ensures forall x :: x in Reverse(s) <==> x in s
  {
    var r := Reverse(s);
    forall x | x in s ensures x in r {
      var k :| 0 <= k < |s| && s[k] == x;
      assert r[|s| - 1 - k] == x;
    }
  }

  /** The key never decreases along the sequence. */
  ghost predicate SortedBy<T>(s: seq<T>, key: T -> int) {
    forall i, j :: 0 <= i < j < |s| ==> key(s[i]) <= key(s[j])
  }

  /** Filtering keeps a table's order by any key that never decreases along it. */
  lemma FilterSorted<T>(s: seq<T>, p: T -> bool, key: T -> int)
    requires SortedBy(s, key)
    ensures SortedBy(Filter(s, p), key)
  {
    var f := Filter(s, p);
    forall i, j | 0 <= i < j < |f| ensures key(f[i]) <= key(f[j]) {
      FilterOrder(s, p, i, j);
    }
  }

  /** Reversing a sequence sorted by a key sorts it the other way. */
  lemma ReverseSorted<T>(s: seq<T>, key: T -> int)
    requires SortedBy(s, key)
    ensures var r := Reverse(s); forall i, j :: 0 <= i < j < |r| ==> key(r[i]) >= key(r[j])
  {
  }

  /** Python's `s[:n]`. */
  function Take<T>(s: seq<T>, n: nat): (r: seq<T>)
    ensures |r| == if n < |s| then n else |s|
    ensures r <= s
  {
    if n < |s| then s[..n] else s
  }

  /** SQLite's `LIMIT n`: a negative `n` sets no limit. */
  function SqlLimit<T>(s: seq<T>, n: int): (r: seq<T>)
    ensures |r| == if 0 <= n < |s| then n else |s|
    ensures r <= s
  {
    if n < 0 then s else Take(s, n)
  }

  /** A query ordered newest first with `LIMIT n` over rows kept oldest first: the last
      elements, from the newest backwards. */
  function NewestLimited<T>(s: seq<T>, n: int): (r: seq<T>)
    ensures |r| == if 0 <= n < |s| then n else |s|
    ensures forall i :: 0 <= i < |r| ==> r[i] == s[|s| - 1 - i]
  {
    var r := SqlLimit(Reverse(s), n);
    assert forall i :: 0 <= i < |r| ==> r[i] == Reverse(s)[i];
    r
  }

  /** The `n` newest rows of a table kept in creation order, put back oldest first, are
      exactly its last rows. */
  lemma NewestIsSuffix<T>(s: seq<T>, n: int)
    ensures Reverse(SqlLimit(Reverse(s), n)) == s[|s| - |SqlLimit(Reverse(s), n)|..]
  {
    var k := |SqlLimit(Reverse(s), n)|;
    var r := Reverse(SqlLimit(Reverse(s), n));
    forall i | 0 <= i < k
      ensures r[i] == s[|s| - k + i]
    {
      assert r[i] == SqlLimit(Reverse(s), n)[k - 1 - i] == Reverse(s)[k - 1 - i];
    }
  }

  /** The `n` newest elements (all of them for a negative `n`) put back oldest first: a query
      ordered newest first with `LIMIT n`, then reversed. */
  function Latest<T>(s: seq<T>, n: int): (r: seq<T>)
    ensures |r| == if 0 <= n < |s| then n else |s|
    ensures r == s[|s| - |r|..]
  {
    NewestIsSuffix(s, n);
    Reverse(SqlLimit(Reverse(s), n))
  }

  /** The `n` newest elements of a sequence sorted by a key, newest first, come in descending
      key order. */
  lemma NewestDescending<T>(s: seq<T>, n: int, key: T -> int)
    requires SortedBy(s, key)
    ensures var r := SqlLimit(Reverse(s), n); forall i, j :: 0 <= i < j < |r| ==> key(r[i]) >= key(r[j])
  {
    ReverseSorted(s, key);
    var r := SqlLimit(Reverse(s), n);
    assert forall i :: 0 <= i < |r| ==> r[i] == Reverse(s)[i];
  }

  /** A suffix of a sorted sequence is sorted. */
  lemma SuffixSorted<T>(s: seq<T>, k: nat, key: T -> int)
    requires SortedBy(s, key) && k <= |s|
    ensures SortedBy(s[k..], key)
  {
    forall i, j | 0 <= i < j < |s[k..]| ensures key(s[k..][i]) <= key(s[k..][j]) {
      assert s[k..][i] == s[k + i] && s[k..][j] == s[k + j];
    }
  }

  /** A database row: its primary key and its columns. */
  datatype Row<T> = Row(id: nat, val: T)

  ghost predicate IdsIncreasing<T>(s: seq<Row<T>>) {
    forall i, j :: 0 <= i < j < |s| ==> s[i].id < s[j].id
  }

  ghost predicate IdsBelow<T>(s: seq<Row<T>>, n: nat) {
    forall i :: 0 <= i < |s| ==> s[i].id < n
  }

  predicate HasId<T>(s: seq<Row<T>>, id: int) {
    exists i :: 0 <= i < |s| && s[i].id == id
  }

  /** `query.filter(p).first()`: the first row satisfying p. */
  function First<T>(s: seq<Row<T>>, p: Row<T> -> bool): (r: Option<Row<T>>)
    ensures r.Some? <==> exists i :: 0 <= i < |s| && p(s[i])
    ensures r.Some? ==> r.value in s && p(r.value)
    ensures r.Some? ==> exists i :: 0 <= i < |s| && s[i] == r.value && forall j :: 0 <= j < i ==> !p(s[j])
  {
    if s == [] then None
    else if p(s[0]) then Some(s[0])
    else
      var r := First(s[1..], p);
      assert forall i :: 1 <= i < |s| ==> s[i] == s[1..][i - 1];
      r
  }

  /** The row with a given primary key. */
  function Lookup<T>(s: seq<Row<T>>, id: int): (r: Option<T>)
    ensures r.Some? <==> HasId(s, id)
    ensures r.Some? ==> Row(id, r.value) in s
  {
    if s == [] then None
    else if s[0].id == id then Some(s[0].val)
    else
      var r := Lookup(s[1..], id);
      assert forall i :: 1 <= i < |s| ==> s[i] == s[1..][i - 1];
      r
  }

  lemma LookupUnique<T>(s: seq<Row<T>>, i: nat)
    requires IdsIncreasing(s) && i < |s|
    ensures Lookup(s, s[i].id) == Some(s[i].val)
  {
    var r := Lookup(s, s[i].id);
    var j :| 0 <= j < |s| && s[j] == Row(s[i].id, r.value);
  }

  /** With increasing keys, every row is what its key looks up. */
  lemma LookupRows<T>(s: seq<Row<T>>)
    ensures IdsIncreasing(s) ==> forall i :: 0 <= i < |s| ==> Lookup(s, s[i].id) == Some(s[i].val)
  {
    if IdsIncreasing(s) {
      forall i | 0 <= i < |s| ensures Lookup(s, s[i].id) == Some(s[i].val) {
        LookupUnique(s, i);
      }
    }
  }

  /** `db.delete(row)` for the row with this key. */
  function RemoveId<T>(s: seq<Row<T>>, id: int): (r: seq<Row<T>>)
    ensures forall i :: 0 <= i < |r| ==> r[i] in s && r[i].id != id
    ensures forall i :: 0 <= i < |s| && s[i].id != id ==> s[i] in r
    ensures !HasId(r, id)
  {
    Filter(s, (x: Row<T>) => x.id != id)
  }

  /** Assigning new column values to the row with this key. */
  function SetVal<T>(s: seq<Row<T>>, id: int, v: T): (r: seq<Row<T>>)
    ensures |r| == |s|
    ensures forall i :: 0 <= i < |s| ==> r[i].id == s[i].id
    ensures forall i :: 0 <= i < |s| ==> r[i].val == if s[i].id == id then v else s[i].val
  {
    if s == [] then [] else [if s[0].id == id then Row(id, v) else s[0]] + SetVal(s[1..], id, v)
  }

  /** Looking a key up after assigning new columns to its rows. */
  lemma {:induction false} LookupSetVal<T>(s: seq<Row<T>>, id: int, v: T, k: int)
    ensures Lookup(SetVal(s, id, v), k) == if k == id && HasId(s, id) then Some(v) else Lookup(s, k)
  {
    if s != [] {
      LookupSetVal(s[1..], id, v, k);
      assert SetVal(s, id, v)[1..] == SetVal(s[1..], id, v);
      if !HasId(s, id) {
        assert !HasId(s[1..], id) by {
          forall i | 0 <= i < |s[1..]| ensures s[1..][i].id != id {
            assert s[1..][i] == s[i + 1];
          }
        }
      }
      if s[0].id != id && HasId(s, id) {
        var i :| 0 <= i < |s| && s[i].id == id;
        assert s[1..][i - 1].id == id;
      }
    }
  }

  /** Every key looked up after assigning new columns to the rows of one key. */
  lemma LookupSetValAll<T>(s: seq<Row<T>>, id: int, v: T)
    ensures forall k :: Lookup(SetVal(s, id, v), k) == if k == id && HasId(s, id) then Some(v) else Lookup(s, k)
  {
    forall k ensures Lookup(SetVal(s, id, v), k) == if k == id && HasId(s, id) then Some(v) else Lookup(s, k) {
      LookupSetVal(s, id, v, k);
    }
  }

  /** Looking a key up after appending a row. */
  lemma {:induction false} LookupAppend<T>(s: seq<Row<T>>, x: Row<T>, k: int)
    ensures Lookup(s + [x], k) == if HasId(s, k) then Lookup(s, k) else if x.id == k then Some(x.val) else None
  {
    if s == [] {
      assert [x][1..] == [];
    } else {
      assert (s + [x])[1..] == s[1..] + [x];
      LookupAppend(s[1..], x, k);
      if s[0].id != k && HasId(s, k) {
        var i :| 0 <= i < |s| && s[i].id == k;
        assert s[1..][i - 1].id == k;
      }
      if !HasId(s, k) {
        assert !HasId(s[1..], k) by {
          forall i | 0 <= i < |s[1..]| ensures s[1..][i].id != k {
            assert s[1..][i] == s[i + 1];
          }
        }
      }
    }
  }

  lemma IdsIncreasingFilter<T>(s: seq<Row<T>>, p: Row<T> -> bool)
    requires IdsIncreasing(s)
    ensures IdsIncreasing(Filter(s, p))
  {
    var f := Filter(s, p);
    forall i, j | 0 <= i < j < |f| ensures f[i].id < f[j].id {
      FilterOrder(s, p, i, j);
    }
  }

  /** Under increasing keys, a key names one row. */
  lemma IdsDistinct<T>(s: seq<Row<T>>)
    requires IdsIncreasing(s)
    ensures forall a, b :: a in s && b in s && a.id == b.id ==> a == b
  {
    forall a, b | a in s && b in s && a.id == b.id ensures a == b {
      var i :| 0 <= i < |s| && s[i] == a;
      var j :| 0 <= j < |s| && s[j] == b;
      assert !(i < j) && !(j < i);
    }
  }

  /** The same keys in the same order, whatever the columns. */
  predicate SameKeys<T>(a: seq<Row<T>>, b: seq<Row<T>>) {
    |a| == |b| && forall i :: 0 <= i < |a| ==> a[i].id == b[i].id
  }

  lemma SameKeysIncreasing<T>(a: seq<Row<T>>, b: seq<Row<T>>)
    requires SameKeys(a, b)
    ensures IdsIncreasing(a) ==> IdsIncreasing(b)
    ensures forall id :: HasId(a, id) <==> HasId(b, id)
  {
    forall id | HasId(b, id) ensures HasId(a, id) {
      var i :| 0 <= i < |b| && b[i].id == id;
      assert a[i].id == id;
    }
  }

  lemma IdsAppend<T>(s: seq<Row<T>>, x: Row<T>, n: nat)
    requires IdsIncreasing(s) && IdsBelow(s, n) && x.id == n
    ensures IdsIncreasing(s + [x]) && IdsBelow(s + [x], n + 1)
  {
  }
}
