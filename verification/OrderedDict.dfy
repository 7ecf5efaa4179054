/** Python's insertion-ordered `dict` as an association list, with the operations the
    recommenders use on it: item assignment, `update`, slicing a list of items, and
    `sorted(items, key=score, reverse=True)`, which is stable. */
module OrderedDict {
  import opened Wrappers

  function Keys<K, V>(d: seq<(K, V)>): (ks: seq<K>)
    ensures |ks| == |d| && forall i {:trigger ks[i]} :: 0 <= i < |d| ==> ks[i] == d[i].0
  {
    if d == [] then [] else [d[0].0] + Keys(d[1..])
  }

  /** No key occurs twice: every association list the model builds is the item list of a dict. */
  predicate DistinctKeys<K(==), V>(d: seq<(K, V)>)
  {
    forall i, j :: 0 <= i < j < |d| ==> d[i].0 != d[j].0
  }

  /** `d.get(k)`. */
  function Get<K(==), V>(d: seq<(K, V)>, k: K): (r: Option<V>)
    ensures r.None? <==> k !in Keys(d)
    ensures r.Some? ==> exists i :: 0 <= i < |d| && d[i] == (k, r.value)
  {
    if d == [] then None else if d[0].0 == k then Some(d[0].1) else Get(d[1..], k)
  }

  /** `d[k] = v`: overwrite in place when `k` is present, append otherwise. */
  function Put<K(==,!new), V>(d: seq<(K, V)>, k: K, v: V): (r: seq<(K, V)>)
    ensures Get(r, k) == Some(v)
    ensures forall k' :: k' != k ==> Get(r, k') == Get(d, k')
  {
    if d == [] then [(k, v)]
    else if d[0].0 == k then [(k, v)] + d[1..]
    else [d[0]] + Put(d[1..], k, v)
  }

  /** Assignment keeps the key order: an existing key stays where it is, a new key goes last. */
  lemma {:induction false} PutKeys<K(!new), V>(d: seq<(K, V)>, k: K, v: V)
    ensures k in Keys(d) ==> Keys(Put(d, k, v)) == Keys(d)
    ensures k !in Keys(d) ==> Keys(Put(d, k, v)) == Keys(d) + [k]
  {
    if d != [] && d[0].0 != k {
      PutKeys(d[1..], k, v);
      assert Keys(d) == [d[0].0] + Keys(d[1..]);
      assert Keys(Put(d, k, v)) == [d[0].0] + Keys(Put(d[1..], k, v));
    } else if d != [] {
      assert Keys(Put(d, k, v)) == [k] + Keys(d[1..]);
      assert Keys(d) == [k] + Keys(d[1..]);
    }
  }

  /** `if c: d[k] = v`. */
  function PutIf<K(==,!new), V>(d: seq<(K, V)>, c: bool, k: K, v: V): seq<(K, V)>
  {
    if c then Put(d, k, v) else d
  }

  /** A conditional assignment `r` adds at most one item. */
  lemma PutIfLength<K(!new), V>(r: seq<(K, V)>, d: seq<(K, V)>, c: bool, k: K, v: V)
    requires r == PutIf(d, c, k, v)
    ensures |r| <= |d| + (if c then 1 else 0)
  {
    if c {
      PutLength(d, k, v);
    }
  }

  /** A conditional assignment `r` adds no key but the assigned one, and only when it
      assigns. */
  lemma PutIfKeyIn<K(!new), V>(r: seq<(K, V)>, d: seq<(K, V)>, c: bool, k: K, v: V, x: K)
    requires r == PutIf(d, c, k, v)
    requires x in Keys(r)
    ensures x in Keys(d) || (c && x == k)
  {
    if c {
      PutKeyIn(d, k, v);
    }
  }

  /** A conditional assignment `r` keeps the keys distinct. */
  lemma PutIfDistinct<K(!new), V>(r: seq<(K, V)>, d: seq<(K, V)>, c: bool, k: K, v: V)
    requires r == PutIf(d, c, k, v) && DistinctKeys(d)
    ensures DistinctKeys(r)
  {
    if c {
      PutDistinct(d, k, v);
    }
  }

  /** Assignment adds at most one item. */
  lemma {:induction false} PutLength<K(!new), V>(d: seq<(K, V)>, k: K, v: V)
    ensures |Put(d, k, v)| <= |d| + 1
  {
    if d != [] && d[0].0 != k {
      PutLength(d[1..], k, v);
    }
  }

  /** A key after assignment is an old key or the assigned one. */
  lemma PutKeyIn<K(!new), V>(d: seq<(K, V)>, k: K, v: V)
    ensures forall x :: x in Keys(Put(d, k, v)) ==> x in Keys(d) || x == k
  {
    PutKeys(d, k, v);
  }

  /** The items after the first of a dict form a dict without the first key. */
  lemma DistinctTail<K, V>(d: seq<(K, V)>)
    requires DistinctKeys(d) && d != []
    ensures DistinctKeys(d[1..]) && d[0].0 !in Keys(d[1..])
  {
    var t := d[1..];
    forall a, b | 0 <= a < b < |t| ensures t[a].0 != t[b].0 {
      assert t[a] == d[a + 1] && t[b] == d[b + 1];
    }
    forall j | 0 <= j < |t| ensures Keys(t)[j] != d[0].0 {
      assert t[j] == d[j + 1];
    }
  }

  /** Assignment never creates a second item with the same key. */
  lemma PutDistinct<K(!new), V>(d: seq<(K, V)>, k: K, v: V)
    requires DistinctKeys(d)
    ensures DistinctKeys(Put(d, k, v))
  {
    PutKeys(d, k, v);
    var r := Put(d, k, v);
    assert Keys(r) == Keys(d) || Keys(r) == Keys(d) + [k];
    forall i, j | 0 <= i < j < |r| ensures r[i].0 != r[j].0 {
      assert r[i].0 == Keys(r)[i] && r[j].0 == Keys(r)[j];
      if Keys(r) != Keys(d) {
        assert k !in Keys(d);
        if j < |d| {
          assert Keys(d)[i] == d[i].0 && Keys(d)[j] == d[j].0;
        } else {
          assert Keys(r)[i] == Keys(d)[i];
        }
      } else {
        assert Keys(d)[i] == d[i].0 && Keys(d)[j] == d[j].0;
      }
    }
  }

  /** Assigning the same key twice keeps only the second value, in the same place. */
  lemma {:induction false} PutPut<K(!new), V>(d: seq<(K, V)>, k: K, a: V, b: V)
    ensures Put(Put(d, k, a), k, b) == Put(d, k, b)
    decreases |d|
  {
    if d != [] && d[0].0 != k {
      PutPut(d[1..], k, a, b);
      assert Put(d, k, a) == [d[0]] + Put(d[1..], k, a);
      assert Put(d, k, a)[1..] == Put(d[1..], k, a);
    }
  }

  /** Assigning a new key appends one item. */
  lemma {:induction false} PutNew<K(!new), V>(d: seq<(K, V)>, k: K, v: V)
    requires k !in Keys(d)
    ensures Put(d, k, v) == d + [(k, v)]
  {
    if d != [] {
      assert Keys(d) == [d[0].0] + Keys(d[1..]);
      PutNew(d[1..], k, v);
      assert d == [d[0]] + d[1..];
    }
  }

  /** In a dict, the value of the key of item `i` is that item's value. */
  lemma GetAt<K, V>(d: seq<(K, V)>, i: nat)
    requires DistinctKeys(d) && i < |d|
    ensures Get(d, d[i].0) == Some(d[i].1)
  {
    assert Keys(d)[i] == d[i].0;
    var g := Get(d, d[i].0);
    var j :| 0 <= j < |d| && d[j] == (d[i].0, g.value);
    assert j == i;
  }

  /** Assigning the key of item `i` replaces that item's value where it stands. */
  lemma {:induction false} PutAt<K(!new), V>(d: seq<(K, V)>, i: nat, v: V)
    requires DistinctKeys(d) && i < |d|
    ensures Put(d, d[i].0, v) == d[i := (d[i].0, v)]
    decreases i
  {
    var k := d[i].0;
    if i == 0 {
      assert Put(d, k, v) == [(k, v)] + d[1..];
    } else {
      DistinctTail(d);
      assert d[1..][i - 1] == d[i];
      PutAt(d[1..], i - 1, v);
      PutBehind(d, i, v);
    }
  }

  /** Updating behind the first item of a sequence is updating its tail. */
  lemma ConsUpdate<T>(d: seq<T>, i: nat, x: T)
    requires 0 < i < |d|
    ensures [d[0]] + d[1..][i - 1 := x] == d[i := x]
  {
    var r := d[1..][i - 1 := x];
    forall j | 0 <= j < |d| ensures ([d[0]] + r)[j] == d[i := x][j] {
      if j > 0 {
        assert ([d[0]] + r)[j] == r[j - 1];
      }
    }
  }

  /** The step of `PutAt` past the first item, which keeps its place. */
  lemma PutBehind<K(!new), V>(d: seq<(K, V)>, i: nat, v: V)
    requires 0 < i < |d| && d[0].0 != d[i].0
    requires Put(d[1..], d[i].0, v) == d[1..][i - 1 := (d[i].0, v)]
    ensures Put(d, d[i].0, v) == d[i := (d[i].0, v)]
  {
    assert Put(d, d[i].0, v) == [d[0]] + Put(d[1..], d[i].0, v);
    ConsUpdate(d, i, (d[i].0, v));
  }

  /** `d.update(e)`: assign every item of `e` in order. */
  function PutAll<K(==,!new), V>(d: seq<(K, V)>, e: seq<(K, V)>): (r: seq<(K, V)>)
    decreases |e|
  {
    if e == [] then d else PutAll(Put(d, e[0].0, e[0].1), e[1..])
  }

  lemma {:induction false} PutAllGet<K(!new), V>(d: seq<(K, V)>, e: seq<(K, V)>, k: K)
    requires DistinctKeys(e)
    ensures Get(PutAll(d, e), k) == if k in Keys(e) then Get(e, k) else Get(d, k)
    decreases |e|
  {
    if e != [] {
      PutAllGet(Put(d, e[0].0, e[0].1), e[1..], k);
      assert Keys(e) == [e[0].0] + Keys(e[1..]);
    }
  }

  /** `d.update(e)` keeps the keys of `d` and adds those of `e`, and no others. */
  lemma {:induction false} PutAllKeys<K(!new), V>(d: seq<(K, V)>, e: seq<(K, V)>)
    ensures forall k :: k in Keys(d) ==> k in Keys(PutAll(d, e))
    ensures forall k :: k in Keys(PutAll(d, e)) ==> k in Keys(d) || k in Keys(e)
    decreases |e|
  {
    if e != [] {
      PutKeys(d, e[0].0, e[0].1);
      PutAllKeys(Put(d, e[0].0, e[0].1), e[1..]);
      assert Keys(e) == [e[0].0] + Keys(e[1..]);
    }
  }

  /** `d.get(k, default)`. */
  function GetOr<K(==), V>(d: seq<(K, V)>, k: K, default: V): (v: V)
    ensures k !in Keys(d) ==> v == default
    ensures k in Keys(d) ==> Get(d, k) == Some(v)
  {
    match Get(d, k)
    case Some(v) => v
    case None => default
  }

  /** `d.pop(k)` on a present key: the item goes, the others keep their order. */
  function Remove<K(==,!new), V>(d: seq<(K, V)>, k: K): (r: seq<(K, V)>)
    ensures Get(r, k).None?
    ensures forall k' :: k' != k ==> Get(r, k') == Get(d, k')
    ensures forall x :: x in r ==> x in d && x.0 != k
    ensures |r| <= |d|
  {
    if d == [] then []
    else if d[0].0 == k then Remove(d[1..], k)
    else [d[0]] + Remove(d[1..], k)
  }

  /** Python's `s[:n]` on a list, including a negative `n`. */
  function Take<T>(s: seq<T>, n: int): (r: seq<T>)
    ensures n >= 0 ==> |r| == if n < |s| then n else |s|
    ensures r <= s
  {
    if n >= 0 then (if n < |s| then s[..n] else s)
    else if |s| + n > 0 then s[..|s| + n] else []
  }

  predicate SortedDesc<K>(s: seq<(K, real)>)
  {
    forall i, j :: 0 <= i < j < |s| ==> s[i].1 >= s[j].1
  }

  /** The items of `s` whose score is `v`, in order. */
  function WithScore<K>(s: seq<(K, real)>, v: real): seq<(K, real)>
  {
    if s == [] then [] else (if s[0].1 == v then [s[0]] else []) + WithScore(s[1..], v)
  }

  /** Place `x` before the first item whose score does not exceed its own. */
  function Insert<K>(x: (K, real), t: seq<(K, real)>): seq<(K, real)>
  {
    if t == [] then [x]
    else if t[0].1 <= x.1 then [x] + t
    else [t[0]] + Insert(x, t[1..])
  }

  /** `sorted(items, key=lambda item: item[1], reverse=True)`. */
  function SortByScoreDesc<K>(s: seq<(K, real)>): seq<(K, real)>
  {
    if s == [] then [] else Insert(s[0], SortByScoreDesc(s[1..]))
  }

  lemma {:induction false} InsertMultiset<K>(x: (K, real), t: seq<(K, real)>)
    ensures multiset(Insert(x, t)) == multiset(t) + multiset{x}
  {
    if t != [] && t[0].1 > x.1 {
      InsertMultiset(x, t[1..]);
      assert t == [t[0]] + t[1..];
    }
  }

  /** Inserting under a bound every score respects keeps every score under it. */
  lemma {:induction false} InsertBelow<K>(x: (K, real), t: seq<(K, real)>, b: real)
    requires x.1 <= b && forall k :: 0 <= k < |t| ==> t[k].1 <= b
    ensures forall k :: 0 <= k < |Insert(x, t)| ==> Insert(x, t)[k].1 <= b
  {
    if t != [] && t[0].1 > x.1 {
      InsertBelow(x, t[1..], b);
      var r := Insert(x, t[1..]);
      forall k | 0 <= k < |[t[0]] + r| ensures ([t[0]] + r)[k].1 <= b {
        if k > 0 {
          assert ([t[0]] + r)[k] == r[k - 1];
        }
      }
    } else if t != [] {
      forall k | 0 <= k < |[x] + t| ensures ([x] + t)[k].1 <= b {
        if k > 0 {
          assert ([x] + t)[k] == t[k - 1];
        }
      }
    }
  }

  lemma {:induction false} InsertSorted<K>(x: (K, real), t: seq<(K, real)>)
    requires SortedDesc(t)
    ensures SortedDesc(Insert(x, t))
  {
    if t != [] && t[0].1 > x.1 {
      var tail := t[1..];
      assert forall k :: 0 <= k < |tail| ==> tail[k] == t[k + 1];
      InsertSorted(x, tail);
      InsertBelow(x, tail, t[0].1);
      var r := Insert(x, tail);
      var u := [t[0]] + r;
      forall i, j | 0 <= i < j < |u| ensures u[i].1 >= u[j].1 {
        assert u[j] == r[j - 1];
        if i > 0 {
          assert u[i] == r[i - 1];
        }
      }
    } else if t != [] {
      var u := [x] + t;
      forall i, j | 0 <= i < j < |u| ensures u[i].1 >= u[j].1 {
        assert u[j] == t[j - 1];
        if i > 0 {
          assert u[i] == t[i - 1];
        }
      }
    }
  }

  lemma {:induction false} InsertWithScore<K>(x: (K, real), t: seq<(K, real)>, v: real)
    ensures WithScore(Insert(x, t), v) == (if x.1 == v then [x] else []) + WithScore(t, v)
  {
    if t != [] && t[0].1 > x.1 {
      InsertWithScore(x, t[1..], v);
      assert ([t[0]] + Insert(x, t[1..]))[1..] == Insert(x, t[1..]);
    } else if t != [] {
      assert ([x] + t)[1..] == t;
    }
  }

  lemma {:induction false} InsertDistinct<K>(x: (K, real), t: seq<(K, real)>)
    requires DistinctKeys(t) && forall y :: y in t ==> y.0 != x.0
    ensures DistinctKeys(Insert(x, t))
  {
    if t != [] && t[0].1 > x.1 {
      InsertDistinct(x, t[1..]);
      InsertMultiset(x, t[1..]);
      var r := Insert(x, t[1..]);
      forall y | y in r ensures y.0 != t[0].0 {
        assert y in multiset(r);
        if y != x {
          assert y in multiset(t[1..]);
          var j :| 0 <= j < |t[1..]| && t[1..][j] == y;
          assert t[j + 1] == y;
        }
      }
    }
  }

  /** Sorting never puts two items with the same key in the result. */
  lemma {:induction false} SortDistinct<K>(s: seq<(K, real)>)
    requires DistinctKeys(s)
    ensures DistinctKeys(SortByScoreDesc(s))
  {
    if s != [] {
      SortDistinct(s[1..]);
      SortByScoreDescFacts(s[1..]);
      var t := SortByScoreDesc(s[1..]);
      forall y | y in t ensures y.0 != s[0].0 {
        assert y in multiset(t);
        var j :| 0 <= j < |s[1..]| && s[1..][j] == y;
        assert s[j + 1] == y;
      }
      InsertDistinct(s[0], t);
    }
  }

  /** The stable descending sort is sorted, is a permutation of its input, and keeps the
      input order among items of equal score. */
  lemma {:induction false} SortByScoreDescFacts<K>(s: seq<(K, real)>)
    ensures SortedDesc(SortByScoreDesc(s))
    ensures multiset(SortByScoreDesc(s)) == multiset(s)
    ensures forall v :: WithScore(SortByScoreDesc(s), v) == WithScore(s, v)
  {
    if s != [] {
      SortByScoreDescFacts(s[1..]);
      InsertSorted(s[0], SortByScoreDesc(s[1..]));
      InsertMultiset(s[0], SortByScoreDesc(s[1..]));
      forall v ensures WithScore(SortByScoreDesc(s), v) == WithScore(s, v) {
        InsertWithScore(s[0], SortByScoreDesc(s[1..]), v);
      }
      assert s == [s[0]] + s[1..];
    }
  }
}
