/** A map that remembers the order in which its keys were inserted
    (minter/src/utils/insertion_ordered_map/mod.rs).

    OrderedMap is the value it stands for: the keys, oldest first, and what each maps to.
    InsertionOrderedMap is the two-index representation, proved to refine it. */
module InsertionOrdered {
  import opened Prelude

  datatype OrderedMap<K, V> = OrderedMap(keys: seq<K>, values: map<K, V>) {

    ghost predicate Valid() {
      Distinct(keys) && Elems(keys) == values.Keys
    }

    predicate Has(k: K) {
      k in values
    }

    /** The map without k; the other keys keep their order. */
    function Remove(k: K): OrderedMap<K, V> {
      OrderedMap(Without(keys, k), values - {k})
    }

    /** The map with k mapped to v, moved to the end when it was already present. */
    function Insert(k: K, v: V): OrderedMap<K, V> {
      OrderedMap(Without(keys, k) + [k], values[k := v])
    }

    lemma RemoveValid(k: K)
      requires Valid()
      ensures Remove(k).Valid()
    {
      WithoutElems(keys, k);
    }

    lemma InsertValid(k: K, v: V)
      requires Valid()
      ensures Insert(k, v).Valid()
    {
      WithoutElems(keys, k);
      ElemsAppend(Without(keys, k), k);
    }
  }

  function Without<K(==)>(s: seq<K>, k: K): seq<K> {
    if s == [] then [] else
      Without(s[..|s| - 1], k) + if s[|s| - 1] == k then [] else [s[|s| - 1]]
  }

  lemma {:induction false} WithoutElems<K>(s: seq<K>, k: K)
    ensures Elems(Without(s, k)) == Elems(s) - {k}
    ensures Distinct(s) ==> Distinct(Without(s, k))
    ensures k !in s ==> Without(s, k) == s
  {
    if s != [] {
      var front, last := s[..|s| - 1], s[|s| - 1];
      assert s == front + [last];
      WithoutElems(front, k);
      ElemsAppend(front, last);
      ElemsAppend(Without(front, k), last);
      assert Distinct(s) ==> last !in Elems(front);
    }
  }

  lemma WithoutAppend<K>(s: seq<K>, x: K, k: K)
    ensures Without(s + [x], k) == Without(s, k) + if x == k then [] else [x]
  {
    assert (s + [x])[..|s|] == s;
  }

  /** The keys indexed below n, in the order of their sequence numbers. */
  function KeysBelow<K>(order: map<nat, K>, n: nat): seq<K> {
    if n == 0 then [] else
      KeysBelow(order, n - 1) + if n - 1 in order then [order[n - 1]] else []
  }

  /** KeysBelow looks at the numbers below n only. */
  lemma {:induction false} KeysBelowFrame<K>(a: map<nat, K>, b: map<nat, K>, n: nat)
    requires forall i | 0 <= i < n :: (i in a <==> i in b) && (i in a ==> a[i] == b[i])
    ensures KeysBelow(a, n) == KeysBelow(b, n)
  {
    if n > 0 {
      KeysBelowFrame(a, b, n - 1);
    }
  }

  lemma {:induction false} KeysBelowElems<K>(order: map<nat, K>, n: nat)
    ensures Elems(KeysBelow(order, n)) == (set i | 0 <= i < n && i in order :: order[i])
  {
    if n > 0 {
      KeysBelowElems(order, n - 1);
      ElemsConcat(KeysBelow(order, n - 1), if n - 1 in order then [order[n - 1]] else []);
      assert n - 1 in order ==> Elems([order[n - 1]]) == {order[n - 1]};
    }
  }

  ghost predicate Injective<K>(order: map<nat, K>) {
    forall i, j | i in order && j in order && order[i] == order[j] :: i == j
  }

  lemma {:induction false} KeysBelowDistinct<K>(order: map<nat, K>, n: nat)
    requires Injective(order)
    ensures Distinct(KeysBelow(order, n))
  {
    if n > 0 {
      KeysBelowDistinct(order, n - 1);
      KeysBelowElems(order, n - 1);
      if n - 1 in order {
        assert order[n - 1] !in Elems(KeysBelow(order, n - 1));
      }
    }
  }

  /** Dropping one sequence number drops its key from the listing. */
  lemma {:induction false} KeysBelowRemove<K>(order: map<nat, K>, n: nat, q: nat)
    requires Injective(order) && q in order
    ensures KeysBelow(order - {q}, n) == Without(KeysBelow(order, n), order[q])
  {
    if n > 0 {
      var k, below := order[q], KeysBelow(order, n - 1);
      KeysBelowRemove(order, n - 1, q);
      if n - 1 in order {
        WithoutAppend(below, order[n - 1], k);
        assert order[n - 1] == k <==> n - 1 == q;
      } else {
        assert KeysBelow(order, n) == below + [] == below;
      }
    }
  }

  /** The two indexes are mutual inverses below n. */
  ghost predicate Linked<K, V>(entries: map<K, (nat, V)>, order: map<nat, K>, n: nat) {
    && (forall k | k in entries ::
          entries[k].0 < n && entries[k].0 in order && order[entries[k].0] == k)
    && (forall q | q in order ::
          q < n && order[q] in entries && entries[order[q]].0 == q)
  }

  ghost function ValueOf<K, V>(entries: map<K, (nat, V)>, order: map<nat, K>, n: nat): OrderedMap<K, V> {
    OrderedMap(KeysBelow(order, n), map k | k in entries :: entries[k].1)
  }

  lemma LinkedValid<K, V>(entries: map<K, (nat, V)>, order: map<nat, K>, n: nat)
    requires Linked(entries, order, n)
    ensures Injective(order) && ValueOf(entries, order, n).Valid()
  {
    KeysBelowElems(order, n);
    assert Injective(order);
    KeysBelowDistinct(order, n);
    forall k | k in entries ensures k in Elems(KeysBelow(order, n)) {
      assert order[entries[k].0] == k;
    }
    assert Elems(KeysBelow(order, n)) == entries.Keys;
  }

  lemma LinkedRemove<K, V>(entries: map<K, (nat, V)>, order: map<nat, K>, n: nat, k: K)
    requires Linked(entries, order, n) && k in entries
    ensures Linked(entries - {k}, order - {entries[k].0}, n)
    ensures ValueOf(entries - {k}, order - {entries[k].0}, n) == ValueOf(entries, order, n).Remove(k)
  {
    LinkedValid(entries, order, n);
    KeysBelowRemove(order, n, entries[k].0);
    assert ValueOf(entries - {k}, order - {entries[k].0}, n).values == ValueOf(entries, order, n).values - {k};
  }

  lemma LinkedAppend<K, V>(entries: map<K, (nat, V)>, order: map<nat, K>, n: nat, k: K, v: V)
    requires Linked(entries, order, n) && k !in entries
    ensures Linked(entries[k := (n, v)], order[n := k], n + 1)
    ensures ValueOf(entries[k := (n, v)], order[n := k], n + 1) ==
            OrderedMap(KeysBelow(order, n) + [k], ValueOf(entries, order, n).values[k := v])
  {
    KeysBelowFrame(order, order[n := k], n);
    assert ValueOf(entries[k := (n, v)], order[n := k], n + 1).values ==
           ValueOf(entries, order, n).values[k := v];
  }

  /** Removing an absent key changes nothing. */
  lemma RemoveAbsent<K, V>(m: OrderedMap<K, V>, k: K)
    requires m.Valid() && !m.Has(k)
    ensures m.Remove(k) == m
  {
    assert k !in Elems(m.keys);
    WithoutElems(m.keys, k);
  }

  class InsertionOrderedMap<K(==), V(==)> {
    var entries: map<K, (nat, V)>
    var order: map<nat, K>
    var nextSeq: nat

    ghost predicate Valid()
      reads this
    {
      Linked(entries, order, nextSeq)
    }

    /** The ordered map this object stands for. */
    ghost function Value(): OrderedMap<K, V>
      reads this
    {
      ValueOf(entries, order, nextSeq)
    }

    constructor ()
      ensures Valid() && Value() == OrderedMap([], map[])
    {
      entries, order, nextSeq := map[], map[], 0;
    }

    method Insert(key: K, value: V) returns (oldValue: Option<V>)
      requires Valid()
      modifies this
      ensures Valid() && Value() == old(Value()).Insert(key, value)
      ensures oldValue == if old(Value()).Has(key) then Some(old(Value()).values[key]) else None
    {
      oldValue := Remove(key);
      LinkedAppend(entries, order, nextSeq, key, value);
      hide Linked, KeysBelow;
      var s := nextSeq;
      nextSeq := nextSeq + 1;
      order := order[s := key];
      entries := entries[key := (s, value)];
    }

    method Remove(key: K) returns (removed: Option<V>)
      requires Valid()
      modifies this
      ensures Valid() && Value() == old(Value()).Remove(key) && key !in entries
      ensures removed == if old(Value()).Has(key) then Some(old(Value()).values[key]) else None
    {
      LinkedValid(entries, order, nextSeq);
      if key in entries {
        var (s, value) := entries[key];
        LinkedRemove(entries, order, nextSeq, key);
        entries := entries - {key};
        order := order - {s};
        removed := Some(value);
      } else {
        RemoveAbsent(Value(), key);
        removed := None;
      }
    }

    /** The pairs in insertion order, read off the order index. */
    method Iter() returns (pairs: seq<(K, V)>)
      requires Valid()
      ensures Value().Valid() && pairs == Pairs(Value())
    {
      pairs := [];
      var n := 0;
      ghost var keys := [];
      while n < nextSeq
        invariant 0 <= n <= nextSeq
        invariant keys == KeysBelow(order, n)
        invariant |pairs| == |keys|
        invariant forall i | 0 <= i < |keys| ::
                    keys[i] in entries && pairs[i] == (keys[i], entries[keys[i]].1)
      {
        if n in order {
          var key := order[n];
          pairs := pairs + [(key, entries[key].1)];
          keys := keys + [key];
        }
        n := n + 1;
      }
      LinkedValid(entries, order, nextSeq);
    }

    /** Equality compares the iterations, whatever the sequence numbers are. */
    method Equals(other: InsertionOrderedMap<K, V>) returns (eq: bool)
      requires Valid() && other.Valid()
      ensures eq <==> Value() == other.Value()
    {
      var a := Iter();
      var b := other.Iter();
      eq := a == b;
      PairsInjective(Value(), other.Value());
    }
  }

  /** The pairs of an ordered map, oldest first. */
  ghost function Pairs<K, V>(m: OrderedMap<K, V>): seq<(K, V)>
    requires m.Valid()
  {
    seq(|m.keys|, i requires 0 <= i < |m.keys| =>
      assert m.keys[i] in Elems(m.keys);
      (m.keys[i], m.values[m.keys[i]]))
  }

  /** An ordered map is determined by its pairs. */
  lemma PairsInjective<K, V>(a: OrderedMap<K, V>, b: OrderedMap<K, V>)
    requires a.Valid() && b.Valid()
    ensures Pairs(a) == Pairs(b) <==> a == b
  {
    if Pairs(a) == Pairs(b) {
      assert |a.keys| == |Pairs(a)| == |Pairs(b)| == |b.keys|;
      forall i | 0 <= i < |a.keys| ensures a.keys[i] == b.keys[i] {
        assert Pairs(a)[i].0 == Pairs(b)[i].0;
      }
      assert a.keys == b.keys;
      forall k | k in a.values ensures k in b.values && a.values[k] == b.values[k] {
        assert k in Elems(a.keys);
        var i :| 0 <= i < |a.keys| && a.keys[i] == k;
        assert Pairs(a)[i].1 == Pairs(b)[i].1;
      }
      assert a.values.Keys == b.values.Keys;
      assert a.values == b.values;
    }
  }
}
