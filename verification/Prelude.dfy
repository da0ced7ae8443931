/** Option values, ascending enumeration of finite sets of naturals (the iteration order of
    a BTreeMap keyed by an integer), and sums over finite maps. */
module Prelude {

  datatype Option<+T> = None | Some(value: T)

  // ---------- sequences without duplicates ----------

  ghost predicate Distinct<T>(s: seq<T>) {
    forall i, j :: 0 <= i < j < |s| ==> s[i] != s[j]
  }

  /** The elements of a sequence. */
  function Elems<T>(s: seq<T>): set<T> {
    set x | x in s
  }

  lemma ElemsAppend<T>(s: seq<T>, x: T)
    ensures Elems(s + [x]) == Elems(s) + {x}
  {}

  lemma ElemsConcat<T>(s: seq<T>, t: seq<T>)
    ensures Elems(s + t) == Elems(s) + Elems(t)
  {}

  /** A sequence has at most as many elements as positions. */
  lemma {:induction false} ElemsCard<T>(s: seq<T>)
    ensures |Elems(s)| <= |s|
    ensures Distinct(s) ==> |Elems(s)| == |s|
  {
    if s != [] {
      var front, last := s[..|s| - 1], s[|s| - 1];
      assert s == front + [last];
      ElemsCard(front);
      ElemsAppend(front, last);
      if Distinct(s) {
        assert last !in Elems(front);
      }
    }
  }

  // ---------- ascending enumeration ----------

  function LeastFrom(s: set<nat>, n: nat, ghost bound: nat): (x: nat)
    requires bound in s && n <= bound && forall y :: y in s ==> n <= y
    ensures x in s && forall y :: y in s ==> x <= y
    decreases bound - n
  {
    if n in s then n else LeastFrom(s, n + 1, bound)
  }

  function Least(s: set<nat>): (x: nat)
    requires s != {}
    ensures x in s && forall y :: y in s ==> x <= y
  {
    ghost var bound :| bound in s;
    LeastFrom(s, 0, bound)
  }

  ghost predicate Increasing(r: seq<nat>) {
    forall i, j :: 0 <= i < j < |r| ==> r[i] < r[j]
  }

  /** The elements of a set in ascending order. */
  function Ascending(s: set<nat>): (r: seq<nat>)
    ensures Elems(r) == s && Increasing(r)
  {
    if s == {} then [] else
      var x := Least(s);
      var rest := Ascending(s - {x});
      IncreasingCons(x, rest, s);
      [x] + rest
  }

  lemma IncreasingCons(x: nat, rest: seq<nat>, s: set<nat>)
    requires Increasing(rest) && Elems(rest) == s - {x}
    requires x in s && forall y :: y in s ==> x <= y
    ensures Increasing([x] + rest) && Elems([x] + rest) == s
  {
    var r := [x] + rest;
    forall i, j | 0 <= i < j < |r| ensures r[i] < r[j] {
      assert rest[j - 1] in Elems(rest);
    }
    ElemsConcat([x], rest);
    assert Elems([x]) == {x};
  }

  lemma IncreasingDistinct(r: seq<nat>)
    requires Increasing(r)
    ensures Distinct(r)
  {}

  /** The naturals below n. */
  function Below(n: nat): set<nat> {
    if n == 0 then {} else Below(n - 1) + {n - 1}
  }

  lemma {:induction false} BelowIs(n: nat)
    ensures |Below(n)| == n
    ensures forall i: nat :: i in Below(n) <==> i < n
  {
    if n > 0 {
      BelowIs(n - 1);
    }
  }

  // ---------- concatenation ----------

  function Flatten<T>(s: seq<seq<T>>): seq<T> {
    if s == [] then [] else s[0] + Flatten(s[1..])
  }

  lemma {:induction false} FlattenAppend<T>(s: seq<seq<T>>, x: seq<T>)
    ensures Flatten(s + [x]) == Flatten(s) + x
  {
    if s == [] {
      assert Flatten([x]) == x + Flatten([x][1..]);
    } else {
      assert (s + [x])[1..] == s[1..] + [x];
      FlattenAppend(s[1..], x);
    }
  }

  // ---------- key sets ----------

  lemma MinusKeys<K, V>(m: map<K, V>, s: set<K>)
    ensures (m - s).Keys == m.Keys - s
  {}

  lemma PlusKeys<K, V>(a: map<K, V>, b: map<K, V>)
    ensures (a + b).Keys == a.Keys + b.Keys
  {}

  // ---------- sums over finite maps ----------

  /** The sum of the values of a map. The keys are taken in an arbitrary order;
      TotalRemove shows that the order does not matter. */
  ghost function Total<K>(m: map<K, nat>): nat {
    if m.Keys == {} then 0 else
      var k :| k in m.Keys;
      m[k] + Total(m - {k})
  }

  lemma CardRemove<K, V>(m: map<K, V>, k: K)
    requires k in m
    ensures |m - {k}| == |m| - 1
  {
    assert (m - {k}).Keys == m.Keys - {k};
  }

  lemma {:induction false} TotalRemove<K>(m: map<K, nat>, k: K)
    requires k in m
    ensures Total(m) == m[k] + Total(m - {k})
    decreases |m|
  {
    var c :| c in m.Keys && Total(m) == m[c] + Total(m - {c});
    if c != k {
      TotalRemove(m - {c}, k);
      TotalRemove(m - {k}, c);
      assert m - {c} - {k} == m - {k} - {c};
    }
  }

  lemma TotalAdd<K>(m: map<K, nat>, k: K, v: nat)
    requires k !in m
    ensures Total(m[k := v]) == Total(m) + v
  {
    TotalRemove(m[k := v], k);
    assert m[k := v] - {k} == m;
  }

  lemma UnionMinus<K>(a: map<K, nat>, b: map<K, nat>, k: K)
    requires k !in a && k in b
    ensures (a + b) - {k} == a + (b - {k})
    ensures k in a + b && (a + b)[k] == b[k]
  {}

  lemma {:induction false} TotalUnion<K>(a: map<K, nat>, b: map<K, nat>)
    requires a.Keys !! b.Keys
    ensures Total(a + b) == Total(a) + Total(b)
    decreases |b|
  {
    if b.Keys == {} {
      assert a + b == a;
    } else {
      var k :| k in b.Keys;
      CardRemove(b, k);
      TotalUnion(a, b - {k});
      TotalRemove(b, k);
      TotalRemove(a + b, k);
      UnionMinus(a, b, k);
    }
  }

  /** Splitting a map by its keys splits its total. */
  lemma TotalSplit<K>(m: map<K, nat>, s: set<K>)
    ensures Total(m) == Total(m - s) + Total(map k | k in m && k in s :: m[k])
  {
    var inside := map k | k in m && k in s :: m[k];
    assert m == (m - s) + inside;
    TotalUnion(m - s, inside);
  }

  lemma MulSucc(n: nat, x: nat)
    ensures (n + 1) * x == n * x + x
  {}

  lemma {:induction false} TotalAtLeast<K>(m: map<K, nat>, low: nat)
    requires forall k :: k in m ==> low <= m[k]
    ensures |m| * low <= Total(m)
    decreases |m|
  {
    if m.Keys != {} {
      var k :| k in m.Keys;
      TotalRemove(m, k);
      CardRemove(m, k);
      TotalAtLeast(m - {k}, low);
      MulSucc(|m| - 1, low);
    }
  }

  /** Adding pointwise adds the totals. */
  lemma {:induction false} TotalPointwise<K>(a: map<K, nat>, b: map<K, nat>, c: map<K, nat>)
    requires a.Keys == b.Keys == c.Keys
    requires forall k :: k in a ==> a[k] + b[k] == c[k]
    ensures Total(a) + Total(b) == Total(c)
    decreases |a|
  {
    if a.Keys != {} {
      var k :| k in a.Keys;
      TotalRemove(a, k);
      TotalRemove(b, k);
      TotalRemove(c, k);
      TotalPointwise(a - {k}, b - {k}, c - {k});
    }
  }

  lemma {:induction false} TotalConstant<K>(m: map<K, nat>, v: nat)
    requires forall k :: k in m ==> m[k] == v
    ensures Total(m) == |m| * v
    decreases |m|
  {
    if m.Keys != {} {
      var k :| k in m.Keys;
      TotalRemove(m, k);
      CardRemove(m, k);
      TotalConstant(m - {k}, v);
      MulSucc(|m| - 1, v);
    }
  }

  /** The sum of a sequence of amounts. */
  function Sum(s: seq<nat>): nat {
    if s == [] then 0 else Sum(s[..|s| - 1]) + s[|s| - 1]
  }

  lemma SumAppend(s: seq<nat>, x: nat)
    ensures Sum(s + [x]) == Sum(s) + x
  {
    assert (s + [x])[..|s|] == s;
  }

  lemma {:induction false} SumConcat(s: seq<nat>, t: seq<nat>)
    ensures Sum(s + t) == Sum(s) + Sum(t)
  {
    if t == [] {
      assert s + t == s;
    } else {
      assert (s + t)[..|s + t| - 1] == s + t[..|t| - 1];
      SumConcat(s, t[..|t| - 1]);
    }
  }

  /** Listing every key of a map once, in any order, sums to the total of the map. */
  lemma {:induction false} SumListing<K>(keys: seq<K>, m: map<K, nat>)
    requires Distinct(keys)
    requires Elems(keys) == m.Keys
    ensures Sum(seq(|keys|, i requires 0 <= i < |keys| => assert keys[i] in Elems(keys); m[keys[i]])) == Total(m)
    decreases |keys|
  {
    var amounts := seq(|keys|, i requires 0 <= i < |keys| => assert keys[i] in Elems(keys); m[keys[i]]);
    if keys == [] {
      assert m.Keys == {};
    } else {
      var n := |keys| - 1;
      var k := keys[n];
      var front := keys[..n];
      assert keys == front + [k];
      assert k in Elems(keys);
      TotalRemove(m, k);
      assert Elems(front) == (m - {k}).Keys by {
        ElemsAppend(front, k);
        assert k !in Elems(front);
      }
      SumListing(front, m - {k});
      assert amounts[..n] ==
             seq(|front|, i requires 0 <= i < |front| => assert front[i] in Elems(front); (m - {k})[front[i]]);
    }
  }
}
