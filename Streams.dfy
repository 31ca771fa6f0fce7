/** The pieces of the Java collections and stream library that the services
    use, as functions on sequences: the optional value a lookup may return,
    `filter`, a stable `sorted` by an integer key, `limit`, and the capped
    logs that several services keep. */
module Streams {

  /** A Java reference that may be null. */
  datatype Option<T> = None | Some(value: T)

  /** Outcome of a service call that either returns or throws; every service
      modelled here wraps whatever went wrong into a BusinessRuleException. */
  datatype Result<T> = Ok(value: T) | BusinessRuleFailure

  /** `stream().filter(p)`: the elements of `s` that satisfy `p`, in order. */
  function Filter<T>(s: seq<T>, p: T -> bool): (r: seq<T>)
    ensures |r| <= |s|
  {
    if s == [] then []
    else (if p(s[0]) then [s[0]] else []) + Filter(s[1..], p)
  }

  /** An element is kept by the filter exactly when it is in `s` and
      satisfies `p`. */
  lemma {:induction false} FilterMembership<T>(s: seq<T>, p: T -> bool, x: T)
    ensures x in Filter(s, p) <==> x in s && p(x)
  {
    if s != [] {
      FilterMembership(s[1..], p, x);
      assert s == [s[0]] + s[1..];
    }
  }

  /** Filtering keeps every matching element as often as it occurs and
      nothing else. */
  lemma {:induction false} FilterMultiset<T>(s: seq<T>, p: T -> bool, x: T)
    ensures multiset(Filter(s, p))[x] == if p(x) then multiset(s)[x] else 0
  {
    if s != [] {
      FilterMultiset(s[1..], p, x);
      assert s == [s[0]] + s[1..];
    }
  }

  /** `r` is `s` with some elements left out, the rest in their order. */
  ghost predicate IsSubsequence<T>(r: seq<T>, s: seq<T>)
    decreases |s|
  {
    r == [] || (s != [] && ((r[0] == s[0] && IsSubsequence(r[1..], s[1..])) || IsSubsequence(r, s[1..])))
  }

  /** Filtering only leaves elements out: the survivors keep their order. */
  lemma {:induction false} FilterIsSubsequence<T>(s: seq<T>, p: T -> bool)
    ensures IsSubsequence(Filter(s, p), s)
  {
    if s != [] {
      FilterIsSubsequence(s[1..], p);
      var r := Filter(s, p);
      if p(s[0]) {
        assert r[0] == s[0] && r[1..] == Filter(s[1..], p);
      } else {
        assert r == Filter(s[1..], p);
      }
    }
  }

  /** Filtering a log that grew by one element extends the filtered log by
      that element when it matches, and leaves it alone otherwise. */
  lemma {:induction false} FilterAppend<T>(s: seq<T>, x: T, p: T -> bool)
    ensures Filter(s + [x], p) == Filter(s, p) + (if p(x) then [x] else [])
  {
    if s == [] {
      assert s + [x] == [x];
    } else {
      var grown := s + [x];
      assert grown[0] == s[0] && grown[1..] == s[1..] + [x];
      FilterAppend(s[1..], x, p);
    }
  }

  /** Number of elements of `s` that satisfy `p` (`filter(p).count()`). */
  function Count<T>(s: seq<T>, p: T -> bool): (n: nat)
    ensures n == |Filter(s, p)|
  {
    if s == [] then 0 else (if p(s[0]) then 1 else 0) + Count(s[1..], p)
  }

  /** `s` is in ascending order of `key`. */
  ghost predicate SortedBy<T>(s: seq<T>, key: T -> int) {
    forall i, j :: 0 <= i < j < |s| ==> key(s[i]) <= key(s[j])
  }

  /** A sorted sequence stays sorted behind a head no larger than any of it. */
  lemma PrependSorted<T>(a: T, t: seq<T>, key: T -> int)
    requires SortedBy(t, key)
    requires forall k :: 0 <= k < |t| ==> key(a) <= key(t[k])
    ensures SortedBy([a] + t, key)
  {
    forall i, j | 0 <= i < j < |[a] + t| ensures key(([a] + t)[i]) <= key(([a] + t)[j]) {
      assert ([a] + t)[j] == t[j - 1];
      if i > 0 { assert ([a] + t)[i] == t[i - 1]; }
    }
  }

  /** Every element drawn from behind the head of a sorted `s`, or larger
      than that head, has a key no smaller than the head's. */
  lemma AboveHead<T>(x: T, s: seq<T>, tail: seq<T>, key: T -> int)
    requires SortedBy(s, key) && s != [] && key(s[0]) < key(x)
    requires forall k :: 0 <= k < |tail| ==> tail[k] == x || tail[k] in s[1..]
    ensures forall k :: 0 <= k < |tail| ==> key(s[0]) <= key(tail[k])
  {
    forall k | 0 <= k < |tail| ensures key(s[0]) <= key(tail[k]) {
      if tail[k] != x {
        var j :| 0 <= j < |s[1..]| && s[1..][j] == tail[k];
        assert s[j + 1] == tail[k];
      }
    }
  }

  /** Inserts `x` in front of the first element whose key is not smaller,
      so that among equal keys `x` comes first. */
  function Insert<T>(x: T, s: seq<T>, key: T -> int): (r: seq<T>)
    requires SortedBy(s, key)
    ensures SortedBy(r, key)
    ensures multiset(r) == multiset(s) + multiset{x}
    ensures |r| == |s| + 1
    ensures forall k :: 0 <= k < |r| ==> r[k] == x || r[k] in s
  {
    if s == [] || key(x) <= key(s[0]) then
      PrependSorted(x, s, key);
      [x] + s
    else
      var tail := Insert(x, s[1..], key);
      AboveHead(x, s, tail, key);
      PrependSorted(s[0], tail, key);
      assert s == [s[0]] + s[1..];
      [s[0]] + tail
  }

  /** `stream().sorted(comparing(key))`: a stable insertion sort. */
  function SortBy<T>(s: seq<T>, key: T -> int): (r: seq<T>)
    ensures SortedBy(r, key)
    ensures multiset(r) == multiset(s)
    ensures |r| == |s|
  {
    if s == [] then []
    else
      assert s == [s[0]] + s[1..];
      Insert(s[0], SortBy(s[1..], key), key)
  }

  /** The elements whose key is `v`. */
  function KeyIs<T>(key: T -> int, v: int): T -> bool {
    (x: T) => key(x) == v
  }

  /** Filtering a sequence that starts with `a`. */
  lemma FilterCons<T>(a: T, t: seq<T>, p: T -> bool)
    ensures Filter([a] + t, p) == (if p(a) then [a] else []) + Filter(t, p)
  {
    assert ([a] + t)[0] == a && ([a] + t)[1..] == t;
  }
  /** Inserting past a smaller head leaves the head in front. */
  lemma InsertPastHead<T>(x: T, s: seq<T>, key: T -> int)
    requires SortedBy(s, key) && s != [] && key(s[0]) < key(x)
    ensures Insert(x, s, key) == [s[0]] + Insert(x, s[1..], key)
  {
  }

  /** Moving `x` behind a head that the filter tells apart from it. */
  lemma FilterSwap<T>(a: T, x: T, t: seq<T>, u: seq<T>, p: T -> bool)
    requires Filter(t, p) == (if p(x) then [x] else []) + Filter(u, p)
    requires !(p(x) && p(a))
    ensures Filter([a] + t, p) == (if p(x) then [x] else []) + Filter([a] + u, p)
  {
    FilterCons(a, t, p);
    FilterCons(a, u, p);
    var hx: seq<T> := if p(x) then [x] else [];
    var ha: seq<T> := if p(a) then [a] else [];
    var fu := Filter(u, p);
    assert Filter([a] + t, p) == ha + (hx + fu);
    assert Filter([a] + u, p) == ha + fu;
    if p(x) {
      assert ha == [];
      assert ha + (hx + fu) == hx + fu == hx + (ha + fu);
    } else {
      assert hx == [];
      assert ha + (hx + fu) == ha + fu == hx + (ha + fu);
    }
  }

  /** Inserting `x` puts it in front of every element with the same key. */
  lemma {:induction false} InsertIsStable<T>(x: T, s: seq<T>, key: T -> int, v: int)
    requires SortedBy(s, key)
    ensures Filter(Insert(x, s, key), KeyIs(key, v)) ==
      (if key(x) == v then [x] else []) + Filter(s, KeyIs(key, v))
  {
    var p := KeyIs(key, v);
    if s == [] || key(x) <= key(s[0]) {
      FilterCons(x, s, p);
    } else {
      InsertPastHead(x, s, key);
      InsertIsStable(x, s[1..], key, v);
      FilterSwap(s[0], x, Insert(x, s[1..], key), s[1..], p);
      assert [s[0]] + s[1..] == s;
    }
  }

  /** The sort is stable: the elements with any one key come out in the
      order in which they went in. */
  lemma {:induction false} SortByIsStable<T>(s: seq<T>, key: T -> int, v: int)
    ensures Filter(SortBy(s, key), KeyIs(key, v)) == Filter(s, KeyIs(key, v))
  {
    if s != [] {
      SortByIsStable(s[1..], key, v);
      InsertIsStable(s[0], SortBy(s[1..], key), key, v);
    }
  }

  /** In a sequence sorted by `key`, the first `n` elements are those with
      the smallest keys: nothing left behind has a smaller key than anything
      taken. */
  lemma SortedPrefix<T>(sorted: seq<T>, key: T -> int, n: nat)
    requires n <= |sorted| && SortedBy(sorted, key)
    ensures SortedBy(sorted[..n], key)
    ensures multiset(sorted[..n]) <= multiset(sorted)
    ensures forall e, x :: e in sorted[..n] && x in multiset(sorted) - multiset(sorted[..n]) ==> key(e) <= key(x)
  {
    var front, rest := sorted[..n], sorted[n..];
    assert sorted == front + rest;
    assert multiset(sorted) == multiset(front) + multiset(rest);
    forall e, x | e in front && x in multiset(sorted) - multiset(front) ensures key(e) <= key(x) {
      assert x in rest;
      var j :| 0 <= j < |rest| && rest[j] == x;
      var i :| 0 <= i < |front| && front[i] == e;
      assert sorted[n + j] == x && sorted[i] == e;
    }
  }

  /** `stream().limit(n)`: Java rejects a negative limit with an
      IllegalArgumentException, modelled as None. */
  function Limit<T>(s: seq<T>, n: int): (r: Option<seq<T>>)
    ensures r.None? <==> n < 0
    ensures r.Some? ==> |r.value| == (if n < |s| then n else |s|)
    ensures r.Some? ==> r.value <= s
  {
    if n < 0 then None
    else if n < |s| then Some(s[..n])
    else Some(s)
  }

  /** A list to which one element is added and, when that makes it longer
      than `cap`, the element at index 0 is removed once (`add` then
      `if (size() > cap) remove(0)`). */
  function AppendDropOldest<T>(log: seq<T>, x: T, cap: nat): (r: seq<T>)
    requires cap > 0
    ensures |log| <= cap ==> |r| <= cap
    ensures |log| < cap ==> r == log + [x]
    ensures |log| == cap ==> r == log[1..] + [x]
    ensures r != [] && r[|r| - 1] == x
    ensures cap >= 2 && |log| <= cap && log != [] ==> |r| >= 2 && r[|r| - 2] == log[|log| - 1]
  {
    var grown := log + [x];
    if |grown| > cap then grown[1..] else grown
  }

  /** The last `n` elements of `s` (all of them when there are fewer). */
  function LastN<T>(s: seq<T>, n: nat): (r: seq<T>)
    ensures |r| == if |s| < n then |s| else n
    ensures forall k :: 0 <= k < |r| ==> r[k] == s[|s| - |r| + k]
  {
    if |s| <= n then s else s[|s| - n..]
  }

  /** `s` ends with `tail`. */
  predicate EndsWith<T(==)>(s: seq<T>, tail: seq<T>) {
    |tail| <= |s| && s[|s| - |tail|..] == tail
  }

  /** The last `n` elements of a sequence end with its last `|t| <= n`. */
  lemma LastNEndsWith<T>(s: seq<T>, t: seq<T>, n: nat)
    requires |t| <= n
    ensures EndsWith(LastN(s + t, n), t)
  {
    var r := LastN(s + t, n);
    assert r[|r| - |t|..] == t;
  }

  /** Below the cap, dropping the oldest after an append keeps the last
      `cap` elements. */
  lemma AppendDropOldestIsLastN<T>(log: seq<T>, x: T, cap: nat)
    requires cap > 0 && |log| <= cap
    ensures AppendDropOldest(log, x, cap) == LastN(log + [x], cap)
  {
  }

  /** Two appends, each dropping the oldest when over the cap, keep the
      last `cap` elements of the log followed by both. */
  lemma AppendDropOldestTwice<T>(log: seq<T>, a: T, b: T, cap: nat)
    requires cap > 0 && |log| <= cap
    ensures AppendDropOldest(AppendDropOldest(log, a, cap), b, cap) == LastN(log + [a, b], cap)
  {
    var all := log + [a, b];
    var r := AppendDropOldest(AppendDropOldest(log, a, cap), b, cap);
    if |log| + 2 <= cap {
      assert r == all by {
        assert AppendDropOldest(log, a, cap) == log + [a];
      }
      assert LastN(all, cap) == all;
    } else if |log| + 1 == cap {
      assert r == all[1..] by {
        assert AppendDropOldest(log, a, cap) == log + [a];
        assert (log + [a])[1..] + [b] == all[1..];
      }
      assert LastN(all, cap) == all[1..];
    } else {
      assert r == all[2..] by {
        var once := log[1..] + [a];
        assert AppendDropOldest(log, a, cap) == once;
        assert once[1..] + [b] == all[2..];
      }
      assert LastN(all, cap) == all[2..];
    }
  }

  /** A map with no keys is empty. */
  lemma NoKeyMeansEmpty<K, V>(m: map<K, V>)
    requires forall k :: k !in m
    ensures |m| == 0
  {
    assert forall k :: k !in m.Keys;
    assert m.Keys == {};
  }

  /** A non-empty map has a key. */
  lemma SomeKey<K, V>(m: map<K, V>) returns (k: K)
    requires |m| > 0
    ensures k in m
  {
    if forall j :: j !in m {
      NoKeyMeansEmpty(m);
      assert false;
    }
    k :| k in m;
  }

  /** A non-empty set has an element. */
  lemma SomeElement<T>(s: set<T>) returns (x: T)
    requires s != {}
    ensures x in s
  {
    if forall y :: y !in s {
      assert false;
    }
    x :| x in s;
  }

  /** The keys that `m` maps to `c`. */
  function KeysWith<K, C(==)>(m: map<K, C>, c: C): set<K> {
    set k | k in m && m[k] == c
  }

  /** Number of keys that `m` maps to `c`. */
  function CountIn<K, C(==)>(m: map<K, C>, c: C): nat {
    |KeysWith(m, c)|
  }

  /** The counts of the classes listed in `classes`, added up. */
  function SumCounts<K, C(==)>(m: map<K, C>, classes: seq<C>): nat {
    if classes == [] then 0 else CountIn(m, classes[0]) + SumCounts(m, classes[1..])
  }

  /** Removing one key lowers the count of its class by one. */
  lemma CountWithout<K, C>(m: map<K, C>, k: K, c: C)
    requires k in m
    ensures CountIn(m, c) == CountIn(m - {k}, c) + (if m[k] == c then 1 else 0)
  {
    if m[k] == c {
      assert KeysWith(m, c) == KeysWith(m - {k}, c) + {k};
    } else {
      assert KeysWith(m, c) == KeysWith(m - {k}, c);
    }
  }

  lemma {:induction false} SumWithout<K, C>(m: map<K, C>, k: K, classes: seq<C>)
    requires k in m
    requires forall i, j :: 0 <= i < j < |classes| ==> classes[i] != classes[j]
    ensures SumCounts(m, classes) == SumCounts(m - {k}, classes) + (if m[k] in classes then 1 else 0)
    decreases |classes|
  {
    if classes != [] {
      CountWithout(m, k, classes[0]);
      SumWithout(m, k, classes[1..]);
      assert m[k] in classes <==> m[k] == classes[0] || m[k] in classes[1..];
    }
  }

  lemma {:induction false} SumOverNothing<K, C>(m: map<K, C>, classes: seq<C>)
    requires m == map[]
    ensures SumCounts(m, classes) == 0
    decreases |classes|
  {
    if classes != [] {
      assert KeysWith(m, classes[0]) == {};
      SumOverNothing(m, classes[1..]);
    }
  }

  /** When every value of `m` is one of the listed classes, listed once
      each, the per-class counts add up to the size of `m`: every key is
      counted once, in its own class. */
  lemma {:induction false} CountsCoverMap<K, C>(m: map<K, C>, classes: seq<C>)
    requires forall i, j :: 0 <= i < j < |classes| ==> classes[i] != classes[j]
    requires forall k :: k in m ==> m[k] in classes
    ensures SumCounts(m, classes) == |m|
    decreases |m|
  {
    if |m| == 0 {
      assert m == map[];
      SumOverNothing(m, classes);
    } else {
      var k := SomeKey(m);
      SumWithout(m, k, classes);
      CountsCoverMap(m - {k}, classes);
      assert |m - {k}| == |m| - 1;
    }
  }

  /** Adding a key raises the count of its class only. */
  lemma CountWith<K, C>(m: map<K, C>, k: K, v: C, c: C)
    requires k !in m
    ensures CountIn(m[k := v], c) == CountIn(m, c) + (if v == c then 1 else 0)
  {
    CountWithout(m[k := v], k, c);
    assert m[k := v] - {k} == m;
  }

  /** `counts` holds, for each class that occurs in `seen`, its count, and
      has no key for a class that does not occur. */
  ghost predicate Tallies<K, C>(counts: map<C, nat>, seen: map<K, C>) {
    && (forall c :: c in counts ==> counts[c] == CountIn(seen, c) > 0)
    && (forall k :: k in seen ==> seen[k] in counts)
  }

  /** A counter read through `map.get`, with a missing entry read as 0. */
  function GetOrZero<K>(m: map<K, nat>, k: K): nat {
    if k in m then m[k] else 0
  }

  /** `counts.merge(key, 1, Integer::sum)`. */
  function Bump<C>(counts: map<C, nat>, key: C): (r: map<C, nat>)
    ensures r.Keys == counts.Keys + {key}
    ensures r[key] == (if key in counts then counts[key] else 0) + 1
    ensures forall c :: c in counts && c != key ==> r[c] == counts[c]
  {
    counts[key := (if key in counts then counts[key] else 0) + 1]
  }

  /** Merging one more element keeps a tally exact. */
  lemma BumpKeepsTally<K, C>(counts: map<C, nat>, seen: map<K, C>, k: K, v: C)
    requires k !in seen && Tallies(counts, seen)
    ensures Tallies(Bump(counts, v), seen[k := v])
  {
    forall c | c in Bump(counts, v)
      ensures CountIn(seen[k := v], c) == CountIn(seen, c) + (if v == c then 1 else 0)
    {
      CountWith(seen, k, v, c);
    }
  }

  /** The part of `m` whose keys are in `ks`. */
  function Restrict<K, V>(m: map<K, V>, ks: set<K>): map<K, V> {
    map k | k in m && k in ks :: m[k]
  }

  lemma RestrictOneMore<K, V>(m: map<K, V>, ks: set<K>, k: K)
    requires k in m && k !in ks
    ensures k !in Restrict(m, ks)
    ensures Restrict(m, ks + {k}) == Restrict(m, ks)[k := m[k]]
  {
  }

  lemma RestrictToAll<K, V>(m: map<K, V>)
    ensures Restrict(m, m.Keys) == m
  {
  }

  lemma TallyStep<K, C>(counts: map<C, nat>, m: map<K, C>, done: set<K>, k: K)
    requires k in m && k !in done && Tallies(counts, Restrict(m, done))
    ensures Tallies(Bump(counts, m[k]), Restrict(m, done + {k}))
  {
    RestrictOneMore(m, done, k);
    BumpKeepsTally(counts, Restrict(m, done), k, m[k]);
  }

  lemma TallyStart<K, C>(m: map<K, C>)
    ensures Tallies(map[], Restrict(m, {}))
  {
    assert Restrict(m, {}) == map[];
  }

  lemma TallyEnd<K, C>(counts: map<C, nat>, m: map<K, C>)
    requires Tallies(counts, Restrict(m, m.Keys))
    ensures Tallies(counts, m)
  {
    RestrictToAll(m);
  }

  /** Moving one element from the part still to visit to the part visited
      keeps the two parts a split of `all`. */
  lemma MoveOneOver<T>(all: set<T>, remaining: set<T>, done: set<T>, x: T)
    requires remaining <= all && done == all - remaining && x in remaining
    ensures remaining - {x} <= all && done + {x} == all - (remaining - {x})
    ensures x !in done && |done + {x}| == |done| + 1
  {
  }
}
