/** JavaScript's `Map` (and discord.js's `Collection`, which extends it): a finite
    map that remembers the order in which its keys were first inserted. */
module OrderedMaps {

  datatype RawMap<K, V> = RawMap(keys: seq<K>, values: map<K, V>)

  ghost predicate Distinct<T>(s: seq<T>) {
    forall i, j | 0 <= i < j < |s| :: s[i] != s[j]
  }

  /** The keys are listed once each, in insertion order, and are exactly the domain. */
  ghost predicate WellFormed<K, V>(m: RawMap<K, V>) {
    && Distinct(m.keys)
    && m.values.Keys == (set k | k in m.keys)
  }

  /** `WellFormed`, reached through `depth` unfoldings. The verifier expands a
      recursive predicate one level at a time, so stating the constraint of
      `OMap` this way keeps it folded until a proof asks for it through
      `Unsealed`, instead of expanding it for every map in scope. */
  ghost predicate Sealed<K, V>(m: RawMap<K, V>, depth: nat)
    decreases depth
  {
    if depth == 0 then WellFormed(m) else Sealed(m, depth - 1)
  }

  type OMap<K, V> = m: RawMap<K, V> | Sealed(m, |m.keys| + 1) witness RawMap([], map[])

  lemma {:induction false} SealedIsWellFormed<K, V>(m: RawMap<K, V>, depth: nat)
    ensures Sealed(m, depth) <==> WellFormed(m)
    decreases depth
  {
    if depth > 0 {
      SealedIsWellFormed(m, depth - 1);
    }
  }

  /** Every map of type `OMap` is well formed. */
  lemma Unsealed<K, V>(m: OMap<K, V>)
    ensures WellFormed(m)
  {
    SealedIsWellFormed(m, |m.keys| + 1);
  }

  /** A well-formed raw map is an `OMap`. */
  function Sealing<K, V>(m: RawMap<K, V>): (r: OMap<K, V>)
    requires WellFormed(m)
    ensures r == m
  {
    SealedIsWellFormed(m, |m.keys| + 1);
    m
  }

  /** The keys are exactly the domain. */
  lemma KeysAreDomain<K, V>(m: OMap<K, V>)
    ensures forall k :: k in m.values <==> k in m.keys
    ensures forall i :: 0 <= i < |m.keys| ==> m.keys[i] in m.values
  {
    Unsealed(m);
  }

  /** The value of the entry at position `i`. */
  function ValueAt<K, V>(m: OMap<K, V>, i: nat): (v: V)
    requires i < |m.keys|
    ensures m.keys[i] in m.values && v == m.values[m.keys[i]]
  {
    KeysAreDomain(m);
    m.values[m.keys[i]]
  }

  function Empty<K, V>(): (r: OMap<K, V>)
    ensures r.keys == [] && r.values == map[]
  {
    Sealing(RawMap([], map[]))
  }

  /** `Map.prototype.set`: an existing key keeps its position, a new key goes last. */
  function Set<K, V>(m: OMap<K, V>, k: K, v: V): (r: OMap<K, V>)
    ensures r.values == m.values[k := v]
    ensures k in m.values ==> r.keys == m.keys
    ensures k !in m.values ==> r.keys == m.keys + [k]
  {
    Unsealed(m);
    if k in m.values then Sealing(RawMap(m.keys, m.values[k := v]))
    else Sealing(RawMap(m.keys + [k], m.values[k := v]))
  }

  /** `Map.prototype.size`. */
  function Size<K, V>(m: OMap<K, V>): nat {
    |m.keys|
  }

  /** `Map.prototype.values()`, in insertion order. */
  function Values<K, V>(m: OMap<K, V>): (vs: seq<V>)
    ensures |vs| == |m.keys|
    ensures forall i :: 0 <= i < |vs| ==> vs[i] == ValueAt(m, i)
  {
    seq(|m.keys|, i requires 0 <= i < |m.keys| => ValueAt(m, i))
  }

  /** Setting a key grows the map by at most one entry. */
  lemma SetSize<K, V>(m: OMap<K, V>, k: K, v: V)
    ensures Size(m) <= Size(Set(m, k, v)) <= Size(m) + 1
    ensures Size(Set(m, k, v)) == Size(m) <==> k in m.values
  {
  }

  /** Setting a key to the value it has changes nothing. */
  lemma SetSame<K, V>(m: OMap<K, V>, k: K)
    requires k in m.values
    ensures Set(m, k, m.values[k]) == m
  {
  }

  /** Setting a key twice leaves the second value, in the key's first place. */
  lemma SetTwice<K, V>(m: OMap<K, V>, k: K, a: V, b: V)
    ensures Set(Set(m, k, a), k, b) == Set(m, k, b)
  {
  }

  /** The keys of the first `n` entries, in order. */
  function KeysOf<K, V>(es: seq<(K, V)>, n: nat): (ks: seq<K>)
    requires n <= |es|
    ensures |ks| == n && forall i :: 0 <= i < n ==> ks[i] == es[i].0
  {
    seq(n, i requires 0 <= i < n => es[i].0)
  }

  /** The map obtained by calling `set` on each of the first `n` entries in
      turn, starting empty. */
  function FromEntries<K, V>(es: seq<(K, V)>, n: nat): OMap<K, V>
    requires n <= |es|
  {
    if n == 0 then Empty() else Set(FromEntries(es, n - 1), es[n - 1].0, es[n - 1].1)
  }

  /** Setting entries in turn keeps exactly their keys, with at most one key
      per entry. */
  lemma {:induction false} FromEntriesKeys<K, V>(es: seq<(K, V)>, n: nat)
    requires n <= |es|
    ensures forall k :: k in FromEntries(es, n).values <==> k in KeysOf(es, n)
    ensures Size(FromEntries(es, n)) <= n
  {
    if n > 0 {
      FromEntriesKeys(es, n - 1);
      assert KeysOf(es, n) == KeysOf(es, n - 1) + [es[n - 1].0];
    }
  }

  /** Each key holds the value of its last entry. */
  lemma {:induction false} FromEntriesLastWins<K, V>(es: seq<(K, V)>, n: nat, i: nat)
    requires i < n <= |es|
    requires forall j :: i < j < n ==> es[j].0 != es[i].0
    ensures es[i].0 in FromEntries(es, n).values && FromEntries(es, n).values[es[i].0] == es[i].1
  {
    if i < n - 1 {
      FromEntriesLastWins(es, n - 1, i);
    }
  }

  /** Keys given once each come out in the order given. */
  lemma {:induction false} FromEntriesOrder<K, V>(es: seq<(K, V)>, n: nat)
    requires n <= |es|
    requires Distinct(KeysOf(es, n))
    ensures FromEntries(es, n).keys == KeysOf(es, n)
  {
    if n > 0 {
      var ks := KeysOf(es, n);
      var init := KeysOf(es, n - 1);
      assert ks == init + [es[n - 1].0];
      assert Distinct(init) by {
        forall i, j | 0 <= i < j < n - 1 ensures init[i] != init[j] {
          assert ks[i] != ks[j];
        }
      }
      FromEntriesOrder(es, n - 1);
      FromEntriesKeys(es, n - 1);
    }
  }

  /** Setting all entries in turn: exactly their keys, at most one key per
      entry, and, when the keys are distinct, the keys in entry order with each
      entry's value. */
  lemma FromEntriesAll<K, V>(es: seq<(K, V)>)
    ensures forall k :: k in FromEntries(es, |es|).values <==> k in KeysOf(es, |es|)
    ensures Size(FromEntries(es, |es|)) <= |es|
    ensures Distinct(KeysOf(es, |es|)) ==>
      && FromEntries(es, |es|).keys == KeysOf(es, |es|)
      && forall i :: 0 <= i < |es| ==> es[i].0 in FromEntries(es, |es|).values && FromEntries(es, |es|).values[es[i].0] == es[i].1
  {
    FromEntriesKeys(es, |es|);
    if Distinct(KeysOf(es, |es|)) {
      FromEntriesOrder(es, |es|);
      forall i | 0 <= i < |es| ensures es[i].0 in FromEntries(es, |es|).values && FromEntries(es, |es|).values[es[i].0] == es[i].1 {
        FromEntriesLastWins(es, |es|, i);
      }
    }
  }

  /** Every value in the map is the value of one of the entries under its key. */
  lemma {:induction false} FromEntriesValues<K, V>(es: seq<(K, V)>, n: nat)
    requires n <= |es|
    ensures forall k :: k in FromEntries(es, n).values ==>
              exists i :: 0 <= i < n && es[i] == (k, FromEntries(es, n).values[k])
  {
    if n > 0 {
      FromEntriesValues(es, n - 1);
      forall k | k in FromEntries(es, n).values
        ensures exists i :: 0 <= i < n && es[i] == (k, FromEntries(es, n).values[k])
      {
        if k == es[n - 1].0 {
          assert es[n - 1] == (k, FromEntries(es, n).values[k]);
        } else {
          assert k in FromEntries(es, n - 1).values;
          var i :| 0 <= i < n - 1 && es[i] == (k, FromEntries(es, n - 1).values[k]);
          assert es[i] == (k, FromEntries(es, n).values[k]);
        }
      }
    }
  }

  /** `table` has the keys of `index`, in its order, and the value under each
      key is related by `rel` to the item at the position `index` gives. */
  ghost predicate IndexedBy<K, V, W>(table: OMap<K, V>, index: OMap<K, nat>, items: seq<W>, rel: (V, W) -> bool) {
    && table.keys == index.keys
    && forall k :: k in table.values ==>
         && k in index.values && index.values[k] < |items|
         && rel(table.values[k], items[index.values[k]])
  }

  /** Each entry's value is related by `rel` to the item at the same position. */
  ghost predicate Pointwise<K, V, W>(es: seq<(K, V)>, items: seq<W>, rel: (V, W) -> bool) {
    && |es| <= |items|
    && forall j :: 0 <= j < |es| ==> rel(es[j].1, items[j])
  }

  lemma PointwiseSnoc<K, V, W>(es: seq<(K, V)>, items: seq<W>, rel: (V, W) -> bool, k: K, v: V)
    requires Pointwise(es, items, rel) && |es| < |items| && rel(v, items[|es|])
    ensures Pointwise(es + [(k, v)], items, rel)
  {
    assert forall j :: 0 <= j < |es| ==> (es + [(k, v)])[j] == es[j];
  }

  /** Setting entries whose values are related to the items at the same
      positions gives a map related, key by key, to the items at the positions
      the same keys get when each is set to its own position. */
  lemma {:induction false} FromEntriesIndexedBy<K, V, W>(es: seq<(K, V)>, ix: seq<(K, nat)>, items: seq<W>, rel: (V, W) -> bool, n: nat)
    requires n <= |es| && n <= |ix| && Pointwise(es[..n], items, rel)
    requires forall j :: 0 <= j < n ==> ix[j] == (es[j].0, j)
    ensures IndexedBy(FromEntries(es, n), FromEntries(ix, n), items, rel)
  {
    if n > 0 {
      assert Pointwise(es[..n - 1], items, rel) by {
        assert forall j :: 0 <= j < n - 1 ==> es[..n - 1][j] == es[..n][j];
      }
      FromEntriesIndexedBy(es, ix, items, rel, n - 1);
      KeysAreDomain(FromEntries(es, n - 1));
      KeysAreDomain(FromEntries(ix, n - 1));
      assert rel(es[n - 1].1, items[n - 1]) by {
        assert es[..n][n - 1] == es[n - 1];
      }
    }
  }

  /** Extending the entries leaves the map built from a prefix unchanged. */
  lemma {:induction false} FromEntriesAppend<K, V>(es: seq<(K, V)>, more: seq<(K, V)>, n: nat)
    requires n <= |es|
    ensures FromEntries(es + more, n) == FromEntries(es, n)
  {
    if n > 0 {
      FromEntriesAppend(es, more, n - 1);
      assert (es + more)[n - 1] == es[n - 1];
    }
  }
}
