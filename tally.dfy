/** Running totals per key, as the repository builds them with a JavaScript
    `Map` (`catMap` in the analytics page), a Java `groupingBy` into a hash map
    (monthly breakdown) and a Java `groupingBy` into a `TreeMap` (weekly
    breakdown). A map is an association list: a JavaScript `Map` keeps its keys
    in first-insertion order, a `TreeMap` in ascending key order. */
module Tally {
  import opened Text

  type Totals<K> = seq<(K, real)>

  function KeysOf<K>(m: Totals<K>): seq<K>
  {
    seq(|m|, i requires 0 <= i < |m| => m[i].0)
  }

  function ValuesOf<K>(m: Totals<K>): seq<real>
  {
    seq(|m|, i requires 0 <= i < |m| => m[i].1)
  }

  function SumOf(s: seq<real>): real
  {
    if s == [] then 0.0 else s[0] + SumOf(s[1..])
  }

  lemma {:induction false} SumOfAppend(a: seq<real>, b: seq<real>)
    ensures SumOf(a + b) == SumOf(a) + SumOf(b)
  {
    if a == [] {
      assert a + b == b;
    } else {
      assert (a + b)[0] == a[0] && (a + b)[1..] == a[1..] + b;
      SumOfAppend(a[1..], b);
    }
  }

  /** The value stored under `k`, or 0 when `k` is absent (`map.get(k) || 0`). */
  function Get<K(==,!new)>(m: Totals<K>, k: K): (r: real)
    ensures k !in KeysOf(m) ==> r == 0.0
  {
    if m == [] then 0.0
    else if m[0].0 == k then assert KeysOf(m)[0] == k; m[0].1
    else assert KeysOf(m[1..]) == KeysOf(m)[1..]; Get(m[1..], k)
  }

  predicate DistinctKeys<K(==,!new)>(m: Totals<K>)
  {
    forall i, j :: 0 <= i < j < |m| ==> m[i].0 != m[j].0
  }

  /** Putting an entry in front of a map. */
  lemma Cons<K(!new)>(x: (K, real), rest: Totals<K>)
    ensures ([x] + rest)[0] == x && ([x] + rest)[1..] == rest
    ensures KeysOf([x] + rest) == [x.0] + KeysOf(rest)
    ensures ValuesOf([x] + rest) == [x.1] + ValuesOf(rest)
    ensures SumOf(ValuesOf([x] + rest)) == x.1 + SumOf(ValuesOf(rest))
    ensures forall y :: Get([x] + rest, y) == if x.0 == y then x.1 else Get(rest, y)
  {
    var r := [x] + rest;
    assert r[1..] == rest;
    assert KeysOf(r) == [x.0] + KeysOf(rest);
    assert ValuesOf(r) == [x.1] + ValuesOf(rest);
    assert ValuesOf(r)[1..] == ValuesOf(rest);
  }

  /** `m.set(k, (m.get(k) || 0) + v)` on an insertion-ordered map: an existing
      key keeps its place, a new key goes last. */
  function Add<K(==,!new)>(m: Totals<K>, k: K, v: real): (r: Totals<K>)
    ensures KeysOf(r) == if k in KeysOf(m) then KeysOf(m) else KeysOf(m) + [k]
    ensures forall x :: Get(r, x) == Get(m, x) + (if x == k then v else 0.0)
    ensures SumOf(ValuesOf(r)) == SumOf(ValuesOf(m)) + v
  {
    if m == [] then
      Cons((k, v), []);
      assert [(k, v)] + [] == [(k, v)];
      assert KeysOf(m) == [] && ValuesOf(m) == [];
      [(k, v)]
    else if m[0].0 == k then
      Cons(m[0], m[1..]);
      Cons((k, m[0].1 + v), m[1..]);
      assert m == [m[0]] + m[1..];
      [(k, m[0].1 + v)] + m[1..]
    else
      var rest := Add(m[1..], k, v);
      Cons(m[0], m[1..]);
      Cons(m[0], rest);
      assert m == [m[0]] + m[1..];
      [m[0]] + rest
  }

  /** The keys of `items`, one per item, in order. */
  function KeySeq<T, K>(items: seq<T>, key: T -> K): seq<K>
  {
    seq(|items|, i requires 0 <= i < |items| => key(items[i]))
  }

  /** A key is among the items' keys exactly when some item has it. */
  lemma KeySeqHas<T, K(!new)>(items: seq<T>, key: T -> K, k: K)
    ensures k in KeySeq(items, key) <==> exists x :: x in items && key(x) == k
  {
    var ks := KeySeq(items, key);
    if k in ks {
      var i :| 0 <= i < |ks| && ks[i] == k;
      assert items[i] in items && key(items[i]) == k;
    }
    if exists x :: x in items && key(x) == k {
      var x :| x in items && key(x) == k;
      var i :| 0 <= i < |items| && items[i] == x;
      assert ks[i] == k;
    }
  }

  /** Sum of all amounts: `reduce((sum, x) => sum + x.amount, 0)`. */
  function SumAmounts<T>(items: seq<T>, amount: T -> real): real
  {
    if items == [] then 0.0 else SumAmounts(items[..|items| - 1], amount) + amount(items[|items| - 1])
  }

  /** Summing from the front gives the same total as summing from the back. */
  lemma {:induction false} SumAmountsCons<T>(x: T, items: seq<T>, amount: T -> real)
    ensures SumAmounts([x] + items, amount) == amount(x) + SumAmounts(items, amount)
  {
    if items != [] {
      var n := |items| - 1;
      SumAmountsCons(x, items[..n], amount);
      assert ([x] + items)[..|[x] + items| - 1] == [x] + items[..n];
    } else {
      assert [x] + items == [x];
      assert [x][..0] == [];
    }
  }

  /** Sum of the amounts of the items whose key is `k`. */
  function SumWhere<T, K(==,!new)>(items: seq<T>, key: T -> K, amount: T -> real, k: K): real
  {
    if items == [] then 0.0
    else SumWhere(items[..|items| - 1], key, amount, k)
         + (if key(items[|items| - 1]) == k then amount(items[|items| - 1]) else 0.0)
  }

  /** `s` with every repeated element dropped after its first occurrence. */
  function FirstSeen<K(==,!new)>(s: seq<K>): (r: seq<K>)
    ensures forall x :: x in r <==> x in s
    ensures forall i, j :: 0 <= i < j < |r| ==> r[i] != r[j]
  {
    if s == [] then []
    else
      var d := FirstSeen(s[..|s| - 1]);
      assert s == s[..|s| - 1] + [s[|s| - 1]];
      if s[|s| - 1] in d then d else d + [s[|s| - 1]]
  }

  /** A list without repeats has as many distinct elements as it is long:
      `new Set(s).size == s.length`. */
  lemma {:induction false} DistinctCount<K>(s: seq<K>)
    requires forall i, j :: 0 <= i < j < |s| ==> s[i] != s[j]
    ensures |set x | x in s| == |s|
  {
    if s != [] {
      var n := |s| - 1;
      DistinctCount(s[..n]);
      assert s == s[..n] + [s[n]];
      assert s[n] !in s[..n];
      assert (set x | x in s) == (set x | x in s[..n]) + {s[n]};
    }
  }

  /** The number of distinct elements of `s`, counted by first occurrence. */
  lemma FirstSeenCount<K(!new)>(s: seq<K>)
    ensures |FirstSeen(s)| == |set x | x in s|
    ensures |FirstSeen(s)| <= |s|
  {
    DistinctCount(FirstSeen(s));
    assert (set x | x in FirstSeen(s)) == (set x | x in s);
    FirstSeenNoLonger(s);
  }

  lemma {:induction false} FirstSeenNoLonger<K(!new)>(s: seq<K>)
    ensures |FirstSeen(s)| <= |s|
  {
    if s != [] {
      FirstSeenNoLonger(s[..|s| - 1]);
    }
  }

  /** The map `items.forEach(x => m.set(key(x), (m.get(key(x)) || 0) + amount(x)))`
      builds from an empty insertion-ordered map. */
  function Group<T, K(==,!new)>(items: seq<T>, key: T -> K, amount: T -> real): (r: Totals<K>)
    ensures KeysOf(r) == FirstSeen(KeySeq(items, key))
    ensures forall k :: Get(r, k) == SumWhere(items, key, amount, k)
    ensures SumOf(ValuesOf(r)) == SumAmounts(items, amount)
  {
    if items == [] then []
    else
      var n := |items| - 1;
      assert KeySeq(items[..n], key) == KeySeq(items, key)[..n];
      Add(Group(items[..n], key, amount), key(items[n]), amount(items[n]))
  }

  /** A key is in the map exactly when some item has it. */
  lemma GroupKeys<T, K(!new)>(items: seq<T>, key: T -> K, amount: T -> real, k: K)
    ensures k in KeysOf(Group(items, key, amount)) <==> exists i :: 0 <= i < |items| && key(items[i]) == k
  {
    var ks := KeySeq(items, key);
    if k in ks {
      var i :| 0 <= i < |ks| && ks[i] == k;
      assert key(items[i]) == k;
    }
    if exists i :: 0 <= i < |items| && key(items[i]) == k {
      var i :| 0 <= i < |items| && key(items[i]) == k;
      assert ks[i] == k;
    }
  }

  lemma GroupDistinct<T, K(!new)>(items: seq<T>, key: T -> K, amount: T -> real)
    ensures DistinctKeys(Group(items, key, amount))
  {
    var r := Group(items, key, amount);
    forall i, j | 0 <= i < j < |r| ensures r[i].0 != r[j].0 {
      assert KeysOf(r)[i] == r[i].0 && KeysOf(r)[j] == r[j].0;
    }
  }

  /** Keys strictly ascending, as a `TreeMap<String, _>` iterates them. */
  predicate StrictlyAscending(m: Totals<string>)
  {
    forall i, j :: 0 <= i < j < |m| ==> Lt(m[i].0, m[j].0)
  }

  /** `merge(k, v, BigDecimal::add)` on a `TreeMap`: an existing key is updated
      in place, a new key is inserted at its place in key order. */
  function AddSorted(m: Totals<string>, k: string, v: real): (r: Totals<string>)
    requires StrictlyAscending(m)
    ensures StrictlyAscending(r)
    ensures forall x :: x in KeysOf(r) <==> x in KeysOf(m) || x == k
    ensures forall x :: Get(r, x) == Get(m, x) + (if x == k then v else 0.0)
    ensures SumOf(ValuesOf(r)) == SumOf(ValuesOf(m)) + v
  {
    if m == [] then
      Cons((k, v), []);
      assert [(k, v)] + [] == [(k, v)];
      assert KeysOf(m) == [] && ValuesOf(m) == [];
      [(k, v)]
    else if m[0].0 == k then
      Cons(m[0], m[1..]);
      Cons((k, m[0].1 + v), m[1..]);
      assert m == [m[0]] + m[1..];
      [(k, m[0].1 + v)] + m[1..]
    else if Lt(k, m[0].0) then
      Cons(m[0], m[1..]);
      Cons((k, v), m);
      assert m == [m[0]] + m[1..];
      InsertFirst(m, k, v);
      [(k, v)] + m
    else
      LtStrictTotal(k, m[0].0);
      var rest := AddSorted(m[1..], k, v);
      Cons(m[0], m[1..]);
      Cons(m[0], rest);
      assert m == [m[0]] + m[1..];
      InsertLater(m, k, rest);
      [m[0]] + rest
  }

  /** A key below every key of an ascending map goes in front of it: the
      result ascends, and the key was not there before. */
  lemma InsertFirst(m: Totals<string>, k: string, v: real)
    requires StrictlyAscending(m) && m != [] && Lt(k, m[0].0)
    ensures StrictlyAscending([(k, v)] + m)
    ensures k !in KeysOf(m)
  {
    var r := [(k, v)] + m;
    forall i, j | 0 <= i < j < |r| ensures Lt(r[i].0, r[j].0) {
      if i == 0 && j > 1 {
        LtTransitive(k, m[0].0, m[j - 1].0);
      }
    }
    forall j | 0 <= j < |m| ensures KeysOf(m)[j] != k {
      if j > 0 {
        LtTransitive(k, m[0].0, m[j].0);
      }
      LtStrictTotal(k, m[j].0);
    }
  }

  /** A key above the first key of an ascending map goes after it: if the
      rest of the map with the key added ascends and holds only keys of the
      rest and the key, the whole result ascends. */
  lemma InsertLater(m: Totals<string>, k: string, rest: Totals<string>)
    requires StrictlyAscending(m) && m != [] && Lt(m[0].0, k)
    requires StrictlyAscending(rest)
    requires forall x :: x in KeysOf(rest) <==> x in KeysOf(m[1..]) || x == k
    ensures StrictlyAscending([m[0]] + rest)
  {
    var r := [m[0]] + rest;
    forall i, j | 0 <= i < j < |r| ensures Lt(r[i].0, r[j].0) {
      if i == 0 {
        assert r[j].0 == KeysOf(rest)[j - 1];
        assert r[j].0 in KeysOf(rest);
        if r[j].0 != k {
          assert r[j].0 in KeysOf(m[1..]);
          var n :| 0 <= n < |m[1..]| && KeysOf(m[1..])[n] == r[j].0;
          assert m[n + 1].0 == r[j].0;
        }
      } else {
        assert r[i] == rest[i - 1] && r[j] == rest[j - 1];
      }
    }
  }

  /** The `TreeMap` that `groupingBy(key, TreeMap::new, reducing(ZERO, add))` builds. */
  function GroupSorted<T>(items: seq<T>, key: T -> string, amount: T -> real): (r: Totals<string>)
    ensures StrictlyAscending(r)
    ensures forall x :: x in KeysOf(r) <==> x in KeySeq(items, key)
    ensures forall k :: Get(r, k) == SumWhere(items, key, amount, k)
    ensures SumOf(ValuesOf(r)) == SumAmounts(items, amount)
  {
    if items == [] then []
    else
      var n := |items| - 1;
      assert KeySeq(items, key) == KeySeq(items[..n], key) + [key(items[n])];
      AddSorted(GroupSorted(items[..n], key, amount), key(items[n]), amount(items[n]))
  }
}
