/** The leaderboard ranking shared by both ledger clients: drop the records whose
    payload could not be fetched, sort the rest by descending score with
    JavaScript's stable `Array.prototype.sort` and the comparator
    `(a, b) => b.score - a.score`, and keep the first ten. */
module Ranking {
  import opened Wrappers
  import Text

  /** Number of rows a leaderboard shows. */
  const TopCount := 10

  /** `rows.filter(row => row !== null)`: the fetched values, in their order. */
  function Survivors<T>(rs: seq<Option<T>>): (s: seq<T>)
    ensures |s| <= |rs|
    ensures forall i :: 0 <= i < |s| ==> Some(s[i]) in rs
    ensures forall j :: 0 <= j < |rs| && rs[j].Some? ==> rs[j].value in s
  {
    if rs == [] then []
    else if rs[0].Some? then [rs[0].value] + Survivors(rs[1..])
    else Survivors(rs[1..])
  }

  /** Every score is at least every later score. */
  ghost predicate SortedDesc<T>(s: seq<T>, key: T -> int) {
    forall i, j :: 0 <= i < j < |s| ==> key(s[i]) >= key(s[j])
  }

  /** The elements of `s` whose score is `k`, in their order in `s`.  A sort is
      stable when it keeps each of these subsequences as it was. */
  function WithKey<T>(s: seq<T>, key: T -> int, k: int): (r: seq<T>)
    ensures |r| <= |s|
    ensures forall i :: 0 <= i < |r| ==> r[i] in s && key(r[i]) == k
  {
    if s == [] then []
    else if key(s[0]) == k then [s[0]] + WithKey(s[1..], key, k)
    else WithKey(s[1..], key, k)
  }

  /** Place `x` before the first element whose score it reaches: `x` stays ahead
      of the equal scores that followed it in the input. */
  function Insert<T>(x: T, t: seq<T>, key: T -> int): (r: seq<T>)
    ensures |r| == |t| + 1
    ensures multiset(r) == multiset(t) + multiset{x}
  {
    if t == [] || key(x) >= key(t[0]) then [x] + t
    else
      assert t == [t[0]] + t[1..];
      [t[0]] + Insert(x, t[1..], key)
  }

  /** The stable descending sort, as insertion sort. */
  function Sort<T>(s: seq<T>, key: T -> int): (r: seq<T>)
    ensures |r| == |s|
    ensures multiset(r) == multiset(s)
  {
    if s == [] then []
    else
      assert s == [s[0]] + s[1..];
      Insert(s[0], Sort(s[1..], key), key)
  }

  lemma {:induction false} InsertSorted<T>(x: T, t: seq<T>, key: T -> int)
    requires SortedDesc(t, key)
    ensures SortedDesc(Insert(x, t, key), key)
  {
    if t != [] && key(x) < key(t[0]) {
      var rest := Insert(x, t[1..], key);
      InsertSorted(x, t[1..], key);
      forall y | y in rest
        ensures key(y) <= key(t[0])
      {
        assert y in multiset(rest);
        assert y == x || y in multiset(t[1..]);
      }
      assert Insert(x, t, key) == [t[0]] + rest;
    }
  }

  lemma {:induction false} SortSorted<T>(s: seq<T>, key: T -> int)
    ensures SortedDesc(Sort(s, key), key)
  {
    if s != [] {
      SortSorted(s[1..], key);
      InsertSorted(s[0], Sort(s[1..], key), key);
    }
  }

  lemma {:induction false} InsertWithKey<T>(x: T, t: seq<T>, key: T -> int, k: int)
    ensures WithKey(Insert(x, t, key), key, k)
         == (if key(x) == k then [x] else []) + WithKey(t, key, k)
  {
    if t == [] || key(x) >= key(t[0]) {
      assert ([x] + t)[1..] == t;
    } else {
      InsertWithKey(x, t[1..], key, k);
      assert ([t[0]] + Insert(x, t[1..], key))[1..] == Insert(x, t[1..], key);
    }
  }

  /** The sort is stable: among equal scores the input order is kept. */
  lemma {:induction false} SortStable<T>(s: seq<T>, key: T -> int, k: int)
    ensures WithKey(Sort(s, key), key, k) == WithKey(s, key, k)
  {
    if s != [] {
      SortStable(s[1..], key, k);
      InsertWithKey(s[0], Sort(s[1..], key), key, k);
    }
  }

  lemma WithOwnKey<T>(s: seq<T>, key: T -> int)
    requires s != []
    ensures WithKey(s, key, key(s[0])) == [s[0]] + WithKey(s[1..], key, key(s[0]))
  {
  }

  /** Sortedness and stability determine the result: two descending sequences
      with the same equal-score subsequences are the same sequence. */
  lemma {:induction false} SortedUnique<T>(a: seq<T>, b: seq<T>, key: T -> int)
    requires SortedDesc(a, key) && SortedDesc(b, key)
    requires forall k :: WithKey(a, key, k) == WithKey(b, key, k)
    ensures a == b
  {
    if a == [] && b == [] {
    } else if a == [] {
      WithOwnKey(b, key);
      assert false;
    } else if b == [] {
      WithOwnKey(a, key);
      assert false;
    } else {
      var ka, kb := key(a[0]), key(b[0]);
      var wa := WithKey(a, key, kb);
      assert WithKey(b, key, kb) != [];
      assert wa[0] in a && key(wa[0]) == kb;
      assert ka >= kb;
      var wb := WithKey(b, key, ka);
      assert WithKey(a, key, ka) != [];
      assert wb[0] in b && key(wb[0]) == ka;
      assert kb >= ka;
      assert a[0] == WithKey(a, key, ka)[0] == WithKey(b, key, ka)[0] == b[0];
      forall k
        ensures WithKey(a[1..], key, k) == WithKey(b[1..], key, k)
      {
        if k == ka {
          assert WithKey(a, key, k) == [a[0]] + WithKey(a[1..], key, k);
          assert WithKey(b, key, k) == [b[0]] + WithKey(b[1..], key, k);
          assert WithKey(a[1..], key, k) == WithKey(a, key, k)[1..];
        } else {
          assert WithKey(a, key, k) == WithKey(a[1..], key, k);
        }
      }
      SortedUnique(a[1..], b[1..], key);
      assert a == [a[0]] + a[1..];
      assert b == [b[0]] + b[1..];
    }
  }

  /** `slice(0, 10)` of the sorted survivors. */
  function TopTen<T>(rs: seq<Option<T>>, key: T -> int): (r: seq<T>)
    ensures |r| == Text.Min(TopCount, |Survivors(rs)|)
    ensures |r| <= TopCount
  {
    Sort(Survivors(rs), key)[..Text.Min(TopCount, |Survivors(rs)|)]
  }

  /** The top ten are in non-increasing score order. */
  lemma TopTenSorted<T>(rs: seq<Option<T>>, key: T -> int)
    ensures SortedDesc(TopTen(rs, key), key)
  {
    SortSorted(Survivors(rs), key);
  }

  /** Every entry of the top ten is one of the fetched values, each taken at
      most as often as it was fetched. */
  lemma TopTenFetched<T>(rs: seq<Option<T>>, key: T -> int)
    ensures multiset(TopTen(rs, key)) <= multiset(Survivors(rs))
    ensures forall i :: 0 <= i < |TopTen(rs, key)| ==> Some(TopTen(rs, key)[i]) in rs
  {
    var sorted := Sort(Survivors(rs), key);
    var r := TopTen(rs, key);
    var n := |r|;
    assert sorted == r + sorted[n..];
    assert multiset(sorted) == multiset(r) + multiset(sorted[n..]);
    forall i | 0 <= i < n
      ensures Some(r[i]) in rs
    {
      assert r[i] in multiset(r);
      assert r[i] in multiset(Survivors(rs));
    }
  }

  /** No fetched value left out of the top ten scores more than one kept in it. */
  lemma TopTenBeatsRest<T>(rs: seq<Option<T>>, key: T -> int, i: int, j: int)
    requires 0 <= i < |TopTen(rs, key)| <= j < |Survivors(rs)|
    ensures key(TopTen(rs, key)[i]) >= key(Sort(Survivors(rs), key)[j])
  {
    SortSorted(Survivors(rs), key);
  }

  /** JavaScript's sort is stable, so whatever sequence it produces is sorted
      descending and keeps the equal-score order of the survivors; the first ten
      of any such sequence are exactly the model's top ten. */
  lemma TopTenOfAnyStableSort<T>(rs: seq<Option<T>>, key: T -> int, sorted: seq<T>)
    requires SortedDesc(sorted, key)
    requires forall k :: WithKey(sorted, key, k) == WithKey(Survivors(rs), key, k)
    ensures TopTen(rs, key) == sorted[..Text.Min(TopCount, |sorted|)]
  {
    var s := Survivors(rs);
    SortSorted(s, key);
    forall k ensures WithKey(Sort(s, key), key, k) == WithKey(sorted, key, k) {
      SortStable(s, key, k);
    }
    SortedUnique(Sort(s, key), sorted, key);
  }
}
