/**
 * Generic sequence operations that stand for the JavaScript array and
 * collection idioms the dashboard is built from: `filter`, `find`,
 * copy-on-write `map`, `[...new Set(xs)]`, a counting `Map` filled by a
 * loop, and the stable `sort` with a numeric comparator.
 */
module Seqs {

  datatype Option<T> = None | Some(value: T)

  /** `xs.filter(p)`: the elements satisfying `p`, in order. */
  function Filter<T(==)>(xs: seq<T>, p: T -> bool): (r: seq<T>)
    ensures |r| <= |xs|
    ensures forall i :: 0 <= i < |r| ==> r[i] in xs && p(r[i])
    ensures forall i :: 0 <= i < |xs| && p(xs[i]) ==> xs[i] in r
  {
    if xs == [] then [] else (if p(xs[0]) then [xs[0]] else []) + Filter(xs[1..], p)
  }

  /** Number of elements satisfying `p` (`xs.filter(p).length`). */
  function Count<T(==)>(xs: seq<T>, p: T -> bool): nat
  {
    |Filter(xs, p)|
  }

  /** `a` is an order-preserving subsequence of `b`. */
  predicate IsSubseq<T(==)>(a: seq<T>, b: seq<T>)
    decreases |b|
  {
    a == [] || (b != [] && ((a[0] == b[0] && IsSubseq(a[1..], b[1..])) || IsSubseq(a, b[1..])))
  }

  predicate Distinct<T(==)>(s: seq<T>)
  {
    forall i, j :: 0 <= i < j < |s| ==> s[i] != s[j]
  }

  lemma {:induction false} FilterIsSubseq<T>(xs: seq<T>, p: T -> bool)
    ensures IsSubseq(Filter(xs, p), xs)
  {
    if xs != [] {
      FilterIsSubseq(xs[1..], p);
      var f, f' := Filter(xs, p), Filter(xs[1..], p);
      if p(xs[0]) {
        assert f == [xs[0]] + f' && f[0] == xs[0] && f[1..] == f';
      } else {
        assert f == f';
      }
    }
  }

  lemma {:induction false} FilterAppend<T>(a: seq<T>, b: seq<T>, p: T -> bool)
    ensures Filter(a + b, p) == Filter(a, p) + Filter(b, p)
  {
    if a != [] {
      FilterAppend(a[1..], b, p);
      var h := if p(a[0]) then [a[0]] else [];
      calc {
        Filter(a + b, p);
        { assert (a + b)[0] == a[0] && (a + b)[1..] == a[1..] + b; }
        h + Filter(a[1..] + b, p);
        h + (Filter(a[1..], p) + Filter(b, p));
        (h + Filter(a[1..], p)) + Filter(b, p);
      }
    } else {
      assert a + b == b;
    }
  }

  /** Counting one more element: the `(map.get(k) || 0) + 1` step. */
  lemma CountSnoc<T>(xs: seq<T>, x: T, p: T -> bool)
    ensures Count(xs + [x], p) == Count(xs, p) + (if p(x) then 1 else 0)
  {
    FilterAppend(xs, [x], p);
  }

  lemma {:induction false} IsSubseqRefl<T>(a: seq<T>)
    ensures IsSubseq(a, a)
  {
    if a != [] {
      IsSubseqRefl(a[1..]);
    }
  }

  /** A subsequence of a subsequence is a subsequence. */
  lemma {:induction false} IsSubseqTrans<T>(a: seq<T>, b: seq<T>, c: seq<T>)
    requires IsSubseq(a, b) && IsSubseq(b, c)
    ensures IsSubseq(a, c)
    decreases |c|
  {
    if a != [] {
      assert b != [] && c != [];
      if b[0] == c[0] && IsSubseq(b[1..], c[1..]) {
        if a[0] == b[0] && IsSubseq(a[1..], b[1..]) {
          IsSubseqTrans(a[1..], b[1..], c[1..]);
        } else {
          IsSubseqTrans(a, b[1..], c[1..]);
        }
      } else {
        IsSubseqTrans(a, b, c[1..]);
      }
    }
  }

  /** Three filtering stages in a row, each keeping exactly the elements of
      its input that pass its test, keep exactly the elements that pass all
      three, in order. */
  lemma FilterChain<T>(xs: seq<T>, r1: seq<T>, r2: seq<T>, r: seq<T>, p1: T -> bool, p2: T -> bool, p3: T -> bool)
    requires IsSubseq(r1, xs) && IsSubseq(r2, r1) && IsSubseq(r, r2)
    requires forall i :: 0 <= i < |r1| ==> r1[i] in xs && p1(r1[i])
    requires forall i :: 0 <= i < |r2| ==> r2[i] in r1 && p2(r2[i])
    requires forall i :: 0 <= i < |r| ==> r[i] in r2 && p3(r[i])
    requires forall i :: 0 <= i < |xs| && p1(xs[i]) ==> xs[i] in r1
    requires forall i :: 0 <= i < |r1| && p2(r1[i]) ==> r1[i] in r2
    requires forall i :: 0 <= i < |r2| && p3(r2[i]) ==> r2[i] in r
    ensures IsSubseq(r, xs)
    ensures forall i :: 0 <= i < |r| ==> r[i] in xs && p1(r[i]) && p2(r[i]) && p3(r[i])
    ensures forall i :: 0 <= i < |xs| && p1(xs[i]) && p2(xs[i]) && p3(xs[i]) ==> xs[i] in r
  {
    IsSubseqTrans(r2, r1, xs);
    IsSubseqTrans(r, r2, xs);
    forall i | 0 <= i < |r|
      ensures r[i] in xs && p1(r[i]) && p2(r[i])
    {
      var a :| 0 <= a < |r2| && r2[a] == r[i];
      var b :| 0 <= b < |r1| && r1[b] == r2[a];
    }
    forall i | 0 <= i < |xs| && p1(xs[i]) && p2(xs[i]) && p3(xs[i])
      ensures xs[i] in r
    {
      var a :| 0 <= a < |r1| && r1[a] == xs[i];
      var b :| 0 <= b < |r2| && r2[b] == xs[i];
    }
  }

  /** Two successive filters are one filter by the conjunction. */
  lemma {:induction false} FilterThenFilter<T>(xs: seq<T>, p: T -> bool, q: T -> bool, both: T -> bool)
    requires forall x :: both(x) == (p(x) && q(x))
    ensures Filter(Filter(xs, p), q) == Filter(xs, both)
  {
    if xs != [] {
      FilterThenFilter(xs[1..], p, q, both);
      FilterAppend(if p(xs[0]) then [xs[0]] else [], Filter(xs[1..], p), q);
    }
  }

  /** Filtering by a predicate that holds everywhere changes nothing. */
  lemma {:induction false} FilterKeepsAll<T>(xs: seq<T>, p: T -> bool)
    requires forall i :: 0 <= i < |xs| ==> p(xs[i])
    ensures Filter(xs, p) == xs
  {
    if xs != [] {
      FilterKeepsAll(xs[1..], p);
    }
  }

  /** Two predicates that agree on every element filter alike. */
  lemma {:induction false} FilterSame<T>(xs: seq<T>, p: T -> bool, q: T -> bool)
    requires forall i :: 0 <= i < |xs| ==> p(xs[i]) == q(xs[i])
    ensures Filter(xs, p) == Filter(xs, q)
  {
    if xs != [] {
      FilterSame(xs[1..], p, q);
    }
  }

  /** The index of the first element satisfying `p` (`findIndex`). */
  function FindIndex<T>(xs: seq<T>, p: T -> bool): (r: Option<nat>)
    ensures r.Some? ==> r.value < |xs| && p(xs[r.value])
    ensures r.Some? ==> forall j :: 0 <= j < r.value ==> !p(xs[j])
    ensures r.None? ==> forall j :: 0 <= j < |xs| ==> !p(xs[j])
  {
    if xs == [] then None
    else if p(xs[0]) then Some(0)
    else match FindIndex(xs[1..], p)
      case None => None
      case Some(k) => Some(k + 1)
  }

  /** `xs.find(p)`: the first element satisfying `p`, or nothing. */
  function Find<T>(xs: seq<T>, p: T -> bool): Option<T>
  {
    match FindIndex(xs, p)
    case None => None
    case Some(k) => Some(xs[k])
  }

  /** The index of the last element satisfying `p`; what
      `new Map(xs.map(...)).get` sees when a key occurs more than once. */
  function FindLastIndex<T>(xs: seq<T>, p: T -> bool): (r: Option<nat>)
    ensures r.Some? ==> r.value < |xs| && p(xs[r.value])
    ensures r.Some? ==> forall j :: r.value < j < |xs| ==> !p(xs[j])
    ensures r.None? ==> forall j :: 0 <= j < |xs| ==> !p(xs[j])
    decreases |xs|
  {
    if xs == [] then None
    else if p(xs[|xs| - 1]) then Some(|xs| - 1)
    else FindLastIndex(xs[..|xs| - 1], p)
  }

  function FindLast<T>(xs: seq<T>, p: T -> bool): Option<T>
  {
    match FindLastIndex(xs, p)
    case None => None
    case Some(k) => Some(xs[k])
  }

  /** `xs.map(f)` */
  function Map<A, B>(xs: seq<A>, f: A -> B): (r: seq<B>)
    ensures |r| == |xs|
    ensures forall i :: 0 <= i < |xs| ==> r[i] == f(xs[i])
  {
    if xs == [] then [] else [f(xs[0])] + Map(xs[1..], f)
  }

  lemma MapCons<A, B>(x: A, rest: seq<A>, f: A -> B)
    ensures Map([x] + rest, f) == [f(x)] + Map(rest, f)
  {
    assert ([x] + rest)[1..] == rest;
  }

  /** Copy-on-write `xs.map(x => sel(x) ? f(x) : x)`. */
  function MapWhere<T>(xs: seq<T>, sel: T -> bool, f: T -> T): (r: seq<T>)
    ensures |r| == |xs|
    ensures forall i :: 0 <= i < |xs| ==> r[i] == (if sel(xs[i]) then f(xs[i]) else xs[i])
  {
    if xs == [] then [] else [if sel(xs[0]) then f(xs[0]) else xs[0]] + MapWhere(xs[1..], sel, f)
  }

  /* ---------------------------------------------------------------- */
  /*  [...new Set(xs)]                                                */
  /* ---------------------------------------------------------------- */

  /** Position of the first occurrence of `x` in `xs` (`|xs|` if absent). */
  function FirstIndex<T(==)>(xs: seq<T>, x: T): (r: nat)
    ensures r <= |xs|
    ensures r < |xs| <==> x in xs
    ensures r < |xs| ==> xs[r] == x && x !in xs[..r]
  {
    if xs == [] then 0 else if xs[0] == x then 0 else 1 + FirstIndex(xs[1..], x)
  }

  /** The distinct elements of `xs`, each at its first occurrence. */
  function Dedupe<T(==)>(xs: seq<T>): (r: seq<T>)
    ensures forall i :: 0 <= i < |r| ==> r[i] in xs
    ensures forall i :: 0 <= i < |xs| ==> xs[i] in r
    ensures Distinct(r)
    decreases |xs|
  {
    if xs == [] then []
    else
      assert xs == xs[..|xs| - 1] + [xs[|xs| - 1]];
      var d := Dedupe(xs[..|xs| - 1]);
      if xs[|xs| - 1] in d then d else d + [xs[|xs| - 1]]
  }

  lemma FirstIndexSnoc<T>(xs: seq<T>, x: T, y: T)
    requires y in xs
    ensures FirstIndex(xs + [x], y) == FirstIndex(xs, y)
  {
    var k := FirstIndex(xs, y);
    var k' := FirstIndex(xs + [x], y);
    assert (xs + [x])[k] == y;
    assert (xs + [x])[..k'] == if k' <= |xs| then xs[..k'] else xs + [x];
  }

  /** `Dedupe` lists the values in the order in which they first occur. */
  lemma {:induction false} DedupeFirstOccurrenceOrder<T>(xs: seq<T>)
    ensures forall i, j :: 0 <= i < j < |Dedupe(xs)| ==>
      FirstIndex(xs, Dedupe(xs)[i]) < FirstIndex(xs, Dedupe(xs)[j])
  {
    if xs != [] {
      var pre, x := xs[..|xs| - 1], xs[|xs| - 1];
      assert xs == pre + [x];
      DedupeFirstOccurrenceOrder(pre);
      var d := Dedupe(pre);
      forall y | y in d
        ensures FirstIndex(xs, y) == FirstIndex(pre, y) < |pre|
      {
        FirstIndexSnoc(pre, x, y);
      }
      if x !in d {
        assert x !in pre;
        assert FirstIndex(xs, x) == |pre| by {
          assert xs[..|pre|] == pre;
        }
        forall i, j | 0 <= i < j < |d + [x]|
          ensures FirstIndex(xs, (d + [x])[i]) < FirstIndex(xs, (d + [x])[j])
        {
          assert (d + [x])[i] == d[i];
          assert (d + [x])[i] in d;
          if j < |d| { assert (d + [x])[j] == d[j]; }
        }
      }
    }
  }

  /* ---------------------------------------------------------------- */
  /*  A counting Map filled by a loop                                 */
  /* ---------------------------------------------------------------- */

  /** A JavaScript `Map<K, number>` used as a counter: its keys in insertion
      order and the count stored for each. */
  datatype Tally<K> = Tally(keys: seq<K>, counts: map<K, nat>)

  /** `map.set(k, (map.get(k) || 0) + 1)` */
  function Bump<K(==)>(t: Tally<K>, k: K): Tally<K>
  {
    if k in t.counts then Tally(t.keys, t.counts[k := t.counts[k] + 1])
    else Tally(t.keys + [k], t.counts[k := 1])
  }

  /** The counter after the loop has visited every element of `xs`, bumping
      `key(x)` for each `x` that satisfies `p`. */
  function TallyOf<T, K(==)>(xs: seq<T>, p: T -> bool, key: T -> K): Tally<K>
    decreases |xs|
  {
    if xs == [] then Tally([], map[])
    else
      var t := TallyOf(xs[..|xs| - 1], p, key);
      if p(xs[|xs| - 1]) then Bump(t, key(xs[|xs| - 1])) else t
  }

  /** How many elements satisfy `p` and have key `k`. */
  function CountKey<T, K(==)>(xs: seq<T>, p: T -> bool, key: T -> K, k: K): nat
    decreases |xs|
  {
    if xs == [] then 0
    else CountKey(xs[..|xs| - 1], p, key, k) + (if p(xs[|xs| - 1]) && key(xs[|xs| - 1]) == k then 1 else 0)
  }

  /** The count kept under key `k` is the number of elements a filter by
      "satisfies `p` and has key `k`" keeps. */
  lemma {:induction false} CountKeyIsCount<T, K>(xs: seq<T>, p: T -> bool, key: T -> K, k: K, q: T -> bool)
    requires forall x :: q(x) == (p(x) && key(x) == k)
    ensures CountKey(xs, p, key, k) == Count(xs, q)
    decreases |xs|
  {
    if xs != [] {
      var pre, x := xs[..|xs| - 1], xs[|xs| - 1];
      assert xs == pre + [x];
      CountKeyIsCount(pre, p, key, k, q);
      CountSnoc(pre, x, q);
    }
  }

  /** The loop `for (const x of xs) if (p(x)) map.set(key(x), (map.get(key(x)) || 0) + 1)`. */
  method CountBy<T, K(==)>(xs: seq<T>, p: T -> bool, key: T -> K) returns (t: Tally<K>)
    ensures t == TallyOf(xs, p, key)
  {
    t := Tally([], map[]);
    for i := 0 to |xs|
      invariant t == TallyOf(xs[..i], p, key)
    {
      assert xs[..i + 1][..i] == xs[..i];
      if p(xs[i]) {
        t := Bump(t, key(xs[i]));
      }
    }
    assert xs[..|xs|] == xs;
  }

  /** Every key of the counter holds the number of matching elements with
      that key, and exactly the keys with a positive number are present. */
  lemma {:induction false} TallyCounts<T, K>(xs: seq<T>, p: T -> bool, key: T -> K)
    ensures forall k :: k in TallyOf(xs, p, key).counts <==> CountKey(xs, p, key, k) > 0
    ensures forall k :: k in TallyOf(xs, p, key).counts ==> TallyOf(xs, p, key).counts[k] == CountKey(xs, p, key, k)
    decreases |xs|
  {
    if xs != [] {
      var pre, x := xs[..|xs| - 1], xs[|xs| - 1];
      TallyCounts(pre, p, key);
      var t := TallyOf(pre, p, key);
      var t' := TallyOf(xs, p, key);
      assert t' == if p(x) then Bump(t, key(x)) else t;
      forall k
        ensures k in t'.counts <==> CountKey(xs, p, key, k) > 0
      {
        assert CountKey(xs, p, key, k) == CountKey(pre, p, key, k) + (if p(x) && key(x) == k then 1 else 0);
        assert k in t.counts <==> CountKey(pre, p, key, k) > 0;
      }
      forall k | k in t'.counts
        ensures t'.counts[k] == CountKey(xs, p, key, k)
      {
        assert CountKey(xs, p, key, k) == CountKey(pre, p, key, k) + (if p(x) && key(x) == k then 1 else 0);
        assert k in t.counts <==> CountKey(pre, p, key, k) > 0;
        if k in t.counts {
          assert t.counts[k] == CountKey(pre, p, key, k);
        }
      }
    }
  }

  /** The counter's key list has no repeats and lists exactly its keys. */
  lemma {:induction false} TallyKeys<T, K>(xs: seq<T>, p: T -> bool, key: T -> K)
    ensures Distinct(TallyOf(xs, p, key).keys)
    ensures forall k :: k in TallyOf(xs, p, key).keys <==> k in TallyOf(xs, p, key).counts
    decreases |xs|
  {
    if xs != [] {
      var pre, x := xs[..|xs| - 1], xs[|xs| - 1];
      TallyKeys(pre, p, key);
      var t := TallyOf(pre, p, key);
      assert TallyOf(xs, p, key) == if p(x) then Bump(t, key(x)) else t;
      if p(x) && key(x) !in t.counts {
        var ks := t.keys + [key(x)];
        assert forall i :: 0 <= i < |t.keys| ==> ks[i] == t.keys[i];
        assert key(x) !in t.keys;
        forall k
          ensures k in ks <==> k in t.counts[key(x) := 1]
        {
          assert k in ks <==> k in t.keys || k == key(x);
        }
      }
    }
  }

  /** Sum of the counts stored under `ks`. */
  function SumCounts<K(==)>(ks: seq<K>, m: map<K, nat>): nat
    decreases |ks|
  {
    if ks == [] then 0
    else SumCounts(ks[..|ks| - 1], m) + (if ks[|ks| - 1] in m then m[ks[|ks| - 1]] else 0)
  }

  lemma {:induction false} SumCountsOther<K>(ks: seq<K>, m: map<K, nat>, k: K, v: nat)
    requires k !in ks
    ensures SumCounts(ks, m[k := v]) == SumCounts(ks, m)
    decreases |ks|
  {
    if ks != [] {
      SumCountsOther(ks[..|ks| - 1], m, k, v);
    }
  }

  lemma {:induction false} SumCountsBump<K>(ks: seq<K>, m: map<K, nat>, k: K)
    requires Distinct(ks) && k in ks && k in m
    ensures SumCounts(ks, m[k := m[k] + 1]) == SumCounts(ks, m) + 1
    decreases |ks|
  {
    var pre, last := ks[..|ks| - 1], ks[|ks| - 1];
    if last == k {
      assert k !in pre;
      SumCountsOther(pre, m, k, m[k] + 1);
    } else {
      assert k in pre by {
        var i :| 0 <= i < |ks| && ks[i] == k;
        assert i < |ks| - 1 && pre[i] == k;
      }
      SumCountsBump(pre, m, k);
    }
  }

  /** The counts add up to the number of elements that satisfy `p`. */
  lemma {:induction false} TallyTotal<T, K>(xs: seq<T>, p: T -> bool, key: T -> K)
    ensures SumCounts(TallyOf(xs, p, key).keys, TallyOf(xs, p, key).counts) == Count(xs, p)
    decreases |xs|
  {
    if xs != [] {
      var pre, x := xs[..|xs| - 1], xs[|xs| - 1];
      assert xs == pre + [x];
      TallyTotal(pre, p, key);
      TallyKeys(pre, p, key);
      CountSnoc(pre, x, p);
      if p(x) {
        BumpTotal(TallyOf(pre, p, key), key(x));
      }
    }
  }

  /** One bump adds one to the total. */
  lemma BumpTotal<K>(t: Tally<K>, k: K)
    requires Distinct(t.keys) && forall j :: j in t.keys <==> j in t.counts
    ensures SumCounts(Bump(t, k).keys, Bump(t, k).counts) == SumCounts(t.keys, t.counts) + 1
  {
    if k in t.counts {
      SumCountsBump(t.keys, t.counts, k);
    } else {
      SumCountsOther(t.keys, t.counts, k, 1);
      assert (t.keys + [k])[..|t.keys|] == t.keys;
    }
  }

  /* ---------------------------------------------------------------- */
  /*  xs.sort((a, b) => key(b) - key(a))                              */
  /* ---------------------------------------------------------------- */

  predicate SortedDesc<T>(s: seq<T>, key: T -> int)
  {
    forall i, j :: 0 <= i < j < |s| ==> key(s[i]) >= key(s[j])
  }

  /** Inserts `x` before the first element whose key is not larger, so that
      `x` stays ahead of the elements it preceded that have an equal key. */
  function InsertDesc<T>(x: T, s: seq<T>, key: T -> int): (r: seq<T>)
    ensures multiset(r) == multiset(s) + multiset{x}
  {
    if s == [] || key(x) >= key(s[0]) then [x] + s
    else
      assert s == [s[0]] + s[1..];
      [s[0]] + InsertDesc(x, s[1..], key)
  }

  lemma {:induction false} InsertDescSorted<T>(x: T, s: seq<T>, key: T -> int)
    requires SortedDesc(s, key)
    ensures SortedDesc(InsertDesc(x, s, key), key)
  {
    if s != [] && key(x) < key(s[0]) {
      InsertDescSorted(x, s[1..], key);
      var rest := InsertDesc(x, s[1..], key);
      forall j | 0 <= j < |rest|
        ensures key(s[0]) >= key(rest[j])
      {
        assert rest[j] in multiset(rest);
        assert rest[j] in multiset(s[1..]) + multiset{x};
        if rest[j] != x {
          assert rest[j] in s[1..];
        }
      }
    }
  }

  /** A stable sort by non-increasing key, as `Array.prototype.sort` does with
      the comparator `(a, b) => key(b) - key(a)`. */
  function SortDesc<T>(xs: seq<T>, key: T -> int): (r: seq<T>)
    ensures multiset(r) == multiset(xs)
    ensures SortedDesc(r, key)
  {
    if xs == [] then []
    else
      assert xs == [xs[0]] + xs[1..];
      var rest := SortDesc(xs[1..], key);
      InsertDescSorted(xs[0], rest, key);
      InsertDesc(xs[0], rest, key)
  }

  /** `Filter` of a sequence with a known head. */
  lemma FilterCons<T>(x: T, s: seq<T>, p: T -> bool)
    ensures Filter([x] + s, p) == (if p(x) then [x] else []) + Filter(s, p)
  {
    assert ([x] + s)[0] == x && ([x] + s)[1..] == s;
  }

  /** Two heads that `p` never both keeps can trade places under `Filter`. */
  lemma FilterSwapHead<T>(a: T, b: T, tail: seq<T>, rest: seq<T>, p: T -> bool)
    requires Filter(rest, p) == Filter([b] + tail, p)
    requires !(p(a) && p(b))
    ensures Filter([a] + rest, p) == Filter([b] + ([a] + tail), p)
  {
    FilterCons(a, rest, p);
    FilterCons(b, tail, p);
    FilterCons(a, tail, p);
    FilterCons(b, [a] + tail, p);
    var ft := Filter(tail, p);
    var fa: seq<T> := if p(a) then [a] else [];
    var fb: seq<T> := if p(b) then [b] else [];
    if p(a) {
      assert fb == [];
      assert fb + ft == ft && fb + (fa + ft) == fa + ft;
    } else {
      assert fa == [];
      assert fa + ft == ft && fa + (fb + ft) == fb + ft;
    }
  }

  /** Inserting `x` moves it past the elements with a larger key only, so
      among elements of one key the order of `[x] + s` is kept. */
  lemma {:induction false} InsertDescKeepsTies<T>(x: T, s: seq<T>, key: T -> int, p: T -> bool, k: int)
    requires forall y :: p(y) ==> key(y) == k
    ensures Filter(InsertDesc(x, s, key), p) == Filter([x] + s, p)
  {
    if s != [] && key(x) < key(s[0]) {
      var tail := s[1..];
      InsertDescKeepsTies(x, tail, key, p, k);
      var rest := InsertDesc(x, tail, key);
      assert InsertDesc(x, s, key) == [s[0]] + rest;
      assert s == [s[0]] + tail;
      FilterSwapHead(s[0], x, tail, rest, p);
    }
  }

  /** `SortDesc` is stable: the elements of any one key, or any selection of
      them, come out in their original order. */
  lemma {:induction false} SortDescStable<T>(xs: seq<T>, key: T -> int, p: T -> bool, k: int)
    requires forall y :: p(y) ==> key(y) == k
    ensures Filter(SortDesc(xs, key), p) == Filter(xs, p)
  {
    if xs != [] {
      SortDescStable(xs[1..], key, p, k);
      var rest := SortDesc(xs[1..], key);
      InsertDescKeepsTies(xs[0], rest, key, p, k);
      assert ([xs[0]] + rest)[0] == xs[0] && ([xs[0]] + rest)[1..] == rest;
    }
  }
}
