/** Insertion-ordered dictionaries, as JavaScript objects (with
    non-numeric keys) and Python dicts behave: assigning to an existing
    key keeps its position, assigning to a new key appends it. Counters
    (`d[k] = (d[k] || 0) + 1`, `defaultdict(int)`) are tallies built on
    them, and `sort` with a descending comparator is a stable sort. */
module Ordered {
  import opened Wrappers

  type Entries<K, V> = seq<(K, V)>

  predicate DistinctKeys<K(==,!new), V(!new)>(es: Entries<K, V>) {
    forall i, j :: 0 <= i < j < |es| ==> es[i].0 != es[j].0
  }

  function KeySet<K, V>(es: Entries<K, V>): set<K> {
    set i | 0 <= i < |es| :: es[i].0
  }

  /** The position of key `k`, searching from position `i`. */
  function FindFrom<K(==,!new), V(!new)>(es: Entries<K, V>, k: K, i: nat): (r: Option<nat>)
    requires i <= |es|
    ensures r.Some? ==> i <= r.value < |es| && es[r.value].0 == k
    ensures r.Some? ==> forall j :: i <= j < r.value ==> es[j].0 != k
    ensures r.None? ==> forall j :: i <= j < |es| ==> es[j].0 != k
    decreases |es| - i
  {
    if i == |es| then None
    else if es[i].0 == k then Some(i)
    else FindFrom(es, k, i + 1)
  }

  function Find<K(==,!new), V(!new)>(es: Entries<K, V>, k: K): Option<nat> {
    FindFrom(es, k, 0)
  }

  lemma FindKeySet<K(!new), V(!new)>(es: Entries<K, V>, k: K)
    ensures Find(es, k).Some? <==> k in KeySet(es)
  {
    if k in KeySet(es) {
      var i :| 0 <= i < |es| && es[i].0 == k;
      assert Find(es, k).Some?;
    }
  }

  /** `d[k]` with a default for a missing key (`d.get(k, default)`). */
  function Get<K(==,!new), V(!new)>(es: Entries<K, V>, k: K, default: V): V {
    match Find(es, k)
    case Some(i) => es[i].1
    case None => default
  }

  /** `d[k] = v`. */
  function Put<K(==,!new), V(!new)>(es: Entries<K, V>, k: K, v: V): (r: Entries<K, V>)
    ensures forall d :: Get(r, k, d) == v
    ensures forall j, d :: j != k ==> Get(r, j, d) == Get(es, j, d)
    ensures KeySet(r) == KeySet(es) + {k}
    ensures DistinctKeys(es) ==> DistinctKeys(r)
    ensures |r| == if k in KeySet(es) then |es| else |es| + 1
    ensures forall i :: 0 <= i < |es| ==> r[i].0 == es[i].0
  {
    FindKeySet(es, k);
    match Find(es, k)
    case Some(i) =>
      var r := es[i := (k, v)];
      FindAgrees(es, r, k, 0);
      assert forall j :: j != k ==> Find(r, j) == Find(es, j) by {
        forall j | j != k ensures Find(r, j) == Find(es, j) {
          FindAgrees(es, r, j, 0);
        }
      }
      assert KeySet(r) == KeySet(es) by {
        assert forall n :: 0 <= n < |es| ==> r[n].0 == es[n].0;
      }
      r
    case None =>
      var r := es + [(k, v)];
      FindAppendNew(es, k, v, 0);
      assert KeySet(r) == KeySet(es) + {k} by {
        assert r[|es|].0 == k;
        assert forall n :: 0 <= n < |es| ==> r[n] == es[n];
      }
      assert forall j :: j != k ==> Find(r, j) == Find(es, j) by {
        forall j | j != k ensures Find(r, j) == Find(es, j) {
          FindAppend(es, (k, v), j, 0);
        }
      }
      r
  }

  /** Every entry after `d[k] = v` is the pair just stored or the entry
      that was at its position before. */
  lemma PutEntries<K(!new), V(!new)>(es: Entries<K, V>, k: K, v: V)
    ensures forall i :: 0 <= i < |Put(es, k, v)| ==> Put(es, k, v)[i] == (k, v) || (i < |es| && Put(es, k, v)[i] == es[i])
  {
  }

  /** The keys of a list of entries one longer. */
  lemma KeySetSnoc<K, V>(es: Entries<K, V>)
    requires es != []
    ensures KeySet(es) == KeySet(es[..|es| - 1]) + {es[|es| - 1].0}
  {
    var init := es[..|es| - 1];
    forall k | k in KeySet(es)
      ensures k in KeySet(init) + {es[|es| - 1].0}
    {
      var i :| 0 <= i < |es| && es[i].0 == k;
      if i < |init| {
        assert init[i].0 == k;
      }
    }
    forall k | k in KeySet(init)
      ensures k in KeySet(es)
    {
      var i :| 0 <= i < |init| && init[i].0 == k;
      assert es[i].0 == k;
    }
  }

  /** With distinct keys, each entry is what its key looks up. */
  lemma GetAt<K(!new), V(!new)>(es: Entries<K, V>, i: nat, default: V)
    requires DistinctKeys(es) && i < |es|
    ensures Get(es, es[i].0, default) == es[i].1
  {
  }

  /** Assigning to a new key appends the pair. */
  lemma PutNew<K(!new), V(!new)>(es: Entries<K, V>, k: K, v: V)
    requires k !in KeySet(es)
    ensures Put(es, k, v) == es + [(k, v)]
  {
    FindKeySet(es, k);
  }

  lemma {:induction false} FindAgrees<K(!new), V(!new)>(a: Entries<K, V>, b: Entries<K, V>, j: K, i: nat)
    requires |a| == |b| && i <= |a|
    requires forall n :: 0 <= n < |a| ==> (a[n].0 == j <==> b[n].0 == j)
    ensures FindFrom(a, j, i) == FindFrom(b, j, i)
    decreases |a| - i
  {
    if i < |a| {
      FindAgrees(a, b, j, i + 1);
    }
  }

  lemma {:induction false} FindAppend<K(!new), V(!new)>(a: Entries<K, V>, e: (K, V), j: K, i: nat)
    requires e.0 != j && i <= |a|
    ensures FindFrom(a + [e], j, i) == FindFrom(a, j, i)
    decreases |a| - i
  {
    if i < |a| {
      FindAppend(a, e, j, i + 1);
    }
  }

  lemma {:induction false} FindAppendNew<K(!new), V(!new)>(a: Entries<K, V>, k: K, v: V, i: nat)
    requires i <= |a|
    requires forall n :: i <= n < |a| ==> a[n].0 != k
    ensures FindFrom(a + [(k, v)], k, i) == Some(|a|)
    decreases |a| - i
  {
    if i < |a| {
      FindAppendNew(a, k, v, i + 1);
    }
  }

  /** `s.filter(p)`: the elements satisfying `p`, in order. */
  function Filter<T(!new)>(s: seq<T>, p: T -> bool): (r: seq<T>)
    ensures |r| <= |s|
    ensures forall x :: x in r <==> x in s && p(x)
    ensures forall i :: 0 <= i < |r| ==> p(r[i])
  {
    if s == [] then []
    else (if p(s[0]) then [s[0]] else []) + Filter(s[1..], p)
  }

  /** `filter` keeps every passing element as often as it occurs and
      drops the others entirely. */
  lemma {:induction false} FilterCounts<T(!new)>(s: seq<T>, p: T -> bool, x: T)
    ensures multiset(Filter(s, p))[x] == if p(x) then multiset(s)[x] else 0
    decreases |s|
  {
    if s != [] {
      assert s == [s[0]] + s[1..];
      FilterCounts(s[1..], p, x);
    }
  }

  /** `filter` keeps the order: filtering a concatenation concatenates
      the filtered parts. */
  lemma {:induction false} FilterAppend<T(!new)>(a: seq<T>, b: seq<T>, p: T -> bool)
    ensures Filter(a + b, p) == Filter(a, p) + Filter(b, p)
    decreases |a|
  {
    if a == [] {
      assert a + b == b;
    } else {
      var head := if p(a[0]) then [a[0]] else [];
      assert (a + b)[1..] == a[1..] + b;
      FilterAppend(a[1..], b, p);
      FilterFirst(a + b, p);
      FilterFirst(a, p);
      Associative(head, Filter(a[1..], p), Filter(b, p));
    }
  }

  /** One step of `filter`: the first element, when it passes, then the
      filtered rest. */
  lemma FilterFirst<T(!new)>(s: seq<T>, p: T -> bool)
    requires s != []
    ensures Filter(s, p) == (if p(s[0]) then [s[0]] else []) + Filter(s[1..], p)
  {
  }



  /** A counter: key to number of occurrences, in first-seen order. */
  type Tally<K> = Entries<K, nat>

  function Count<K(==,!new)>(t: Tally<K>, k: K): nat {
    Get(t, k, 0)
  }

  /** The sum of all counts. */
  function Total<K>(t: Tally<K>): nat {
    if t == [] then 0 else Total(t[..|t| - 1]) + t[|t| - 1].1
  }

  lemma {:induction false} TotalUpdate<K>(t: Tally<K>, i: nat, e: (K, nat))
    requires i < |t|
    ensures Total(t[i := e]) + t[i].1 == Total(t) + e.1
    decreases |t|
  {
    var u := t[i := e];
    if i == |t| - 1 {
      assert u[..|u| - 1] == t[..|t| - 1];
    } else {
      assert u[..|u| - 1] == t[..|t| - 1][i := e];
      TotalUpdate(t[..|t| - 1], i, e);
    }
  }

  /** `d[k] = (d[k] || 0) + 1`. */
  function Increment<K(==,!new)>(t: Tally<K>, k: K): (r: Tally<K>)
    ensures Count(r, k) == Count(t, k) + 1
    ensures forall j :: j != k ==> Count(r, j) == Count(t, j)
    ensures Total(r) == Total(t) + 1
    ensures KeySet(r) == KeySet(t) + {k}
    ensures DistinctKeys(t) ==> DistinctKeys(r)
  {
    var r := Put<K, nat>(t, k, Count(t, k) + 1);
    match Find(t, k)
    case Some(i) =>
      TotalUpdate(t, i, (k, Count(t, k) + 1));
      r
    case None =>
      assert (t + [(k, 1)])[..|t|] == t;
      r
  }

  /** The counter produced by incrementing once per element of `ks`, in
      order. */
  function TallyOf<K(==,!new)>(ks: seq<K>): (r: Tally<K>)
    ensures DistinctKeys(r)
    ensures Total(r) == |ks|
  {
    if ks == [] then []
    else
      var init := ks[..|ks| - 1];
      assert ks == init + [ks[|ks| - 1]];
      Increment(TallyOf(init), ks[|ks| - 1])
  }

  /** The keys counted are the elements of `ks`. */
  lemma {:induction false} TallyOfKeys<K(!new)>(ks: seq<K>)
    ensures KeySet(TallyOf(ks)) == set k | k in ks
    decreases |ks|
  {
    if ks != [] {
      var init, x := ks[..|ks| - 1], ks[|ks| - 1];
      assert ks == init + [x];
      TallyOfKeys(init);
    }
  }

  /** Incrementing the counter of `ks` once more for `k`. */
  lemma TallySnoc<K(!new)>(ks: seq<K>, k: K)
    ensures Increment(TallyOf(ks), k) == TallyOf(ks + [k])
  {
    assert (ks + [k])[..|ks|] == ks;
  }

  /** Each key's count is its number of occurrences. */
  lemma {:induction false} TallyOfCounts<K(!new)>(ks: seq<K>, k: K)
    ensures Count(TallyOf(ks), k) == multiset(ks)[k]
    decreases |ks|
  {
    if ks != [] {
      var init, x := ks[..|ks| - 1], ks[|ks| - 1];
      assert ks == init + [x];
      TallyOfCounts(init, k);
    }
  }

  /** `s` is in non-increasing order of `key`. */
  predicate SortedDesc<T>(s: seq<T>, key: T -> real) {
    forall i, j :: 0 <= i < j < |s| ==> key(s[i]) >= key(s[j])
  }

  /** Inserts `x` after every element whose key is at least its own. */
  function InsertDesc<T(==)>(x: T, s: seq<T>, key: T -> real): (r: seq<T>)
    requires SortedDesc(s, key)
    ensures SortedDesc(r, key)
    ensures multiset(r) == multiset(s) + multiset{x}
    ensures |r| == |s| + 1
    ensures r[0] == x || (s != [] && r[0] == s[0])
  {
    if s == [] then [x]
    else if key(x) > key(s[0]) then
      SortedCons(x, s, key);
      [x] + s
    else
      var rest := InsertDesc(x, s[1..], key);
      assert s == [s[0]] + s[1..];
      SortedTail(s, key);
      SortedCons(s[0], rest, key);
      [s[0]] + rest
  }

  lemma SortedTail<T>(s: seq<T>, key: T -> real)
    requires SortedDesc(s, key) && s != []
    ensures SortedDesc(s[1..], key)
    ensures forall i :: 0 <= i < |s| - 1 ==> key(s[0]) >= key(s[1..][i])
  {
  }

  lemma SortedCons<T>(h: T, s: seq<T>, key: T -> real)
    requires SortedDesc(s, key) && (s == [] || key(h) >= key(s[0]))
    ensures SortedDesc([h] + s, key)
  {
    var r := [h] + s;
    forall i, j | 0 <= i < j < |r| ensures key(r[i]) >= key(r[j]) {
      if i > 0 {
        assert r[i] == s[i - 1] && r[j] == s[j - 1];
      } else {
        assert r[j] == s[j - 1];
        assert key(s[0]) >= key(s[j - 1]) || j == 1;
      }
    }
  }

  /** A stable sort into non-increasing order of `key`: JavaScript's
      `sort((a, b) => key(b) - key(a))` and Python's
      `sorted(..., key=key, reverse=True)`. */
  function SortDesc<T(==)>(s: seq<T>, key: T -> real): (r: seq<T>)
    ensures SortedDesc(r, key)
    ensures multiset(r) == multiset(s)
    ensures |r| == |s|
  {
    if s == [] then []
    else
      assert s == s[..|s| - 1] + [s[|s| - 1]];
      InsertDesc(s[|s| - 1], SortDesc(s[..|s| - 1], key), key)
  }

  /** The elements of `s` whose key is `v`, in order. */
  function WithKey<T>(s: seq<T>, key: T -> real, v: real): seq<T> {
    if s == [] then []
    else Keep(s[0], key, v) + WithKey(s[1..], key, v)
  }

  /** `[x]` when its key is `v`, `[]` otherwise. */
  function Keep<T>(x: T, key: T -> real, v: real): seq<T> {
    if key(x) == v then [x] else []
  }

  lemma Associative<T>(a: seq<T>, b: seq<T>, c: seq<T>)
    ensures (a + b) + c == a + (b + c)
  {
  }

  lemma {:induction false} WithKeyAppend<T>(a: seq<T>, b: seq<T>, key: T -> real, v: real)
    ensures WithKey(a + b, key, v) == WithKey(a, key, v) + WithKey(b, key, v)
    decreases |a|
  {
    if a == [] {
      assert a + b == b;
    } else {
      assert (a + b)[0] == a[0];
      assert (a + b)[1..] == a[1..] + b;
      WithKeyAppend(a[1..], b, key, v);
      Associative(Keep(a[0], key, v), WithKey(a[1..], key, v), WithKey(b, key, v));
    }
  }

  lemma {:induction false} InsertDescStable<T>(x: T, s: seq<T>, key: T -> real, v: real)
    requires SortedDesc(s, key)
    ensures WithKey(InsertDesc(x, s, key), key, v) == WithKey(s, key, v) + Keep(x, key, v)
    decreases |s|
  {
    if s == [] {
    } else if key(x) > key(s[0]) {
      InsertFrontStable(x, s, key, v);
    } else {
      var rest := InsertDesc(x, s[1..], key);
      assert InsertDesc(x, s, key) == [s[0]] + rest;
      InsertDescStable(x, s[1..], key, v);
      WithKeyAppend([s[0]], rest, key, v);
      WithKeySingle(s[0], key, v);
      Associative(Keep(s[0], key, v), WithKey(s[1..], key, v), Keep(x, key, v));
    }
  }

  /** Inserting in front of elements of strictly smaller key. */
  lemma InsertFrontStable<T>(x: T, s: seq<T>, key: T -> real, v: real)
    requires SortedDesc(s, key) && s != [] && key(x) > key(s[0])
    ensures WithKey([x] + s, key, v) == WithKey(s, key, v) + Keep(x, key, v)
  {
    assert ([x] + s)[0] == x && ([x] + s)[1..] == s;
    if key(x) == v {
      forall i | 0 <= i < |s| ensures key(s[i]) != v {
        assert i == 0 || key(s[0]) >= key(s[i]);
      }
      WithKeyNone(s, key, v);
    }
  }

  lemma {:induction false} WithKeyNone<T>(s: seq<T>, key: T -> real, v: real)
    requires forall i :: 0 <= i < |s| ==> key(s[i]) != v
    ensures WithKey(s, key, v) == []
    decreases |s|
  {
    if s != [] {
      WithKeyNone(s[1..], key, v);
    }
  }

  /** Stability: among elements with equal keys, the sort keeps the
      input order. */
  lemma {:induction false} SortDescStable<T>(s: seq<T>, key: T -> real, v: real)
    ensures WithKey(SortDesc(s, key), key, v) == WithKey(s, key, v)
    decreases |s|
  {
    if s != [] {
      var init, x := s[..|s| - 1], s[|s| - 1];
      assert s == init + [x];
      var sorted := SortDesc(init, key);
      assert SortDesc(s, key) == InsertDesc(x, sorted, key);
      SortDescStable(init, key, v);
      InsertDescStable(x, sorted, key, v);
      WithKeyAppend(init, [x], key, v);
      WithKeySingle(x, key, v);
    }
  }

  lemma WithKeySingle<T>(x: T, key: T -> real, v: real)
    ensures WithKey([x], key, v) == Keep(x, key, v)
  {
    assert [x][1..] == [];
    assert Keep(x, key, v) + [] == Keep(x, key, v);
  }

  /** A prefix one element longer. */
  lemma PrefixSnoc<T>(s: seq<T>, k: nat)
    requires k < |s|
    ensures s[..k + 1] == s[..k] + [s[k]]
  {
  }

  /** `s.slice(0, n)`, `s[:n]`. */
  function Take<T>(s: seq<T>, n: nat): (r: seq<T>)
    ensures |r| == if |s| <= n then |s| else n
    ensures r == s[..|r|]
  {
    if |s| <= n then s else s[..n]
  }

  /** The keys of the entries, in order. */
  function Keys<K, V>(es: Entries<K, V>): (r: seq<K>)
    ensures |r| == |es| && forall i :: 0 <= i < |es| ==> r[i] == es[i].0
  {
    if es == [] then [] else [es[0].0] + Keys(es[1..])
  }

  function CountKey<K>(e: (K, nat)): real {
    e.1 as real
  }

  /** `Object.entries(counter).sort(([,a], [,b]) => b - a)`. */
  function ByCount<K(==)>(t: Tally<K>): seq<(K, nat)> {
    SortDesc(t, CountKey)
  }

  /** In a sorted sequence, an element past a prefix ranks no higher than
      any element of the prefix. */
  lemma LeftOutRanksLower<K>(sorted: seq<(K, nat)>, n: nat, j: nat)
    requires SortedDesc(sorted, CountKey) && n <= j < |sorted|
    ensures forall x :: x in sorted[..n] ==> x.1 >= sorted[j].1
  {
    forall x | x in sorted[..n]
      ensures x.1 >= sorted[j].1
    {
      var i :| 0 <= i < n && sorted[i] == x;
      assert CountKey(sorted[i]) >= CountKey(sorted[j]);
    }
  }

  /** The `n` entries of highest count, highest first
      (`sorted(d.items(), key=count, reverse=True)[:n]`). */
  function Top<K(==)>(t: Tally<K>, n: nat): seq<(K, nat)> {
    Take(ByCount(t), n)
  }

  /** `Top` keeps `n` entries of the counter (all when there are fewer),
      highest count first, and no entry left out has a higher count than
      an entry kept. */
  lemma TopRanks<K>(t: Tally<K>, n: nat, e: (K, nat))
    ensures |Top(t, n)| == if |t| <= n then |t| else n
    ensures SortedDesc(Top(t, n), CountKey)
    ensures forall x :: x in Top(t, n) ==> x in t
    ensures e in t && e !in Top(t, n) ==> forall x :: x in Top(t, n) ==> x.1 >= e.1
  {
    var sorted := ByCount(t);
    var top := Top(t, n);
    assert top == sorted[..|top|];
    forall x | x in top
      ensures x in t
    {
      assert x in multiset(sorted);
    }
    if e in t && e !in top {
      assert e in multiset(sorted);
      var j :| 0 <= j < |sorted| && sorted[j] == e;
      LeftOutRanksLower(sorted, |top|, j);
    }
  }
}
