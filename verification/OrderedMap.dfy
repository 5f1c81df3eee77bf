/** A JavaScript Map: keys in insertion order, and setting a present key keeps its place. */
module OrderedMap {
  type Entries<K, V> = seq<(K, V)>

  function Keys<K, V>(m: Entries<K, V>): set<K> {
    set i | 0 <= i < |m| :: m[i].0
  }

  ghost predicate Distinct<K, V>(m: Entries<K, V>) {
    forall i, j | 0 <= i < j < |m| :: m[i].0 != m[j].0
  }

  function Put<K(==), V>(m: Entries<K, V>, key: K, value: V): Entries<K, V> {
    if m == [] then [(key, value)]
    else if m[0].0 == key then [(key, value)] + m[1..]
    else [m[0]] + Put(m[1..], key, value)
  }

  /** The last entry of each key. */
  function ToMap<K, V>(m: Entries<K, V>): map<K, V> {
    if m == [] then map[] else map[m[0].0 := m[0].1] + ToMap(m[1..])
  }

  function PutAll<K(==), V>(m: Entries<K, V>, entries: seq<(K, V)>): Entries<K, V>
    decreases |entries|
  {
    if entries == [] then m else PutAll(Put(m, entries[0].0, entries[0].1), entries[1..])
  }

  lemma {:induction false} ToMapKeys<K, V>(m: Entries<K, V>)
    ensures ToMap(m).Keys == Keys(m)
  {
    if m != [] {
      ToMapKeys(m[1..]);
      KeysCons(m);
    }
  }

  lemma {:induction false} ToMapAppend<K, V>(a: Entries<K, V>, b: Entries<K, V>)
    ensures ToMap(a + b) == ToMap(a) + ToMap(b)
  {
    if a == [] {
      assert a + b == b;
    } else {
      assert (a + b)[1..] == a[1..] + b;
      ToMapAppend(a[1..], b);
      MergeIsAssociative(map[a[0].0 := a[0].1], ToMap(a[1..]), ToMap(b));
    }
  }

  lemma ToMapSnoc<K, V>(m: Entries<K, V>, key: K, value: V)
    ensures ToMap(m + [(key, value)]) == ToMap(m)[key := value]
  {
    ToMapAppend(m, [(key, value)]);
    assert ToMap([(key, value)]) == map[key := value] + ToMap([(key, value)][1..]);
  }

  /** In a Map every stored entry is the value of its key. */
  lemma {:induction false} EntryIsValue<K, V>(m: Entries<K, V>, i: nat)
    requires Distinct(m) && i < |m|
    ensures m[i].0 in ToMap(m) && ToMap(m)[m[i].0] == m[i].1
  {
    ToMapKeys(m[1..]);
    if i > 0 {
      EntryIsValue(m[1..], i - 1);
    }
  }

  lemma {:induction false} PutKeys<K, V>(m: Entries<K, V>, key: K, value: V)
    requires Distinct(m)
    ensures Distinct(Put(m, key, value)) && Keys(Put(m, key, value)) == Keys(m) + {key}
  {
    if m == [] {
      assert Keys([(key, value)]) == {key} by { assert [(key, value)][0].0 == key; }
    } else {
      KeysCons(m);
      if m[0].0 == key {
        KeysCons([(key, value)] + m[1..]);
      } else {
        var tail := Put(m[1..], key, value);
        PutKeys(m[1..], key, value);
        assert m[0].0 !in Keys(m[1..]);
        assert forall j | 0 <= j < |tail| :: tail[j].0 in Keys(tail);
        KeysCons([m[0]] + tail);
      }
    }
  }

  lemma KeysCons<K, V>(m: Entries<K, V>)
    requires m != []
    ensures Keys(m) == {m[0].0} + Keys(m[1..])
  {
    assert forall i | 0 < i < |m| :: m[i] == m[1..][i - 1];
  }

  /** Put is map update, whatever the place it writes to. */
  lemma {:induction false} PutIsUpdate<K, V>(m: Entries<K, V>, key: K, value: V)
    requires Distinct(m)
    ensures Distinct(Put(m, key, value)) && Keys(Put(m, key, value)) == Keys(m) + {key}
    ensures ToMap(Put(m, key, value)) == ToMap(m)[key := value]
  {
    PutKeys(m, key, value);
    if m != [] {
      if m[0].0 == key {
        assert key !in ToMap(m[1..]) by { ToMapKeys(m[1..]); }
        assert ([(key, value)] + m[1..])[1..] == m[1..];
        UpdateFirst(key, m[0].1, value, ToMap(m[1..]));
      } else {
        PutIsUpdate(m[1..], key, value);
        assert ([m[0]] + Put(m[1..], key, value))[1..] == Put(m[1..], key, value);
        UpdateRight(map[m[0].0 := m[0].1], ToMap(m[1..]), key, value);
      }
    }
  }

  /** Putting entries one after another resolves repeated keys last-wins. */
  lemma {:induction false} PutAllIsLastWins<K, V>(m: Entries<K, V>, entries: seq<(K, V)>)
    requires Distinct(m)
    ensures Distinct(PutAll(m, entries))
    ensures ToMap(PutAll(m, entries)) == ToMap(m) + ToMap(entries)
    decreases |entries|
  {
    if entries != [] {
      PutIsUpdate(m, entries[0].0, entries[0].1);
      PutAllIsLastWins(Put(m, entries[0].0, entries[0].1), entries[1..]);
      UpdateThenMerge(ToMap(m), entries[0].0, entries[0].1, ToMap(entries[1..]));
    }
  }

  lemma PutAllFromEmpty<K, V>(entries: seq<(K, V)>)
    ensures Distinct(PutAll([], entries)) && ToMap(PutAll([], entries)) == ToMap(entries)
  {
    PutAllIsLastWins([], entries);
  }

  lemma {:induction false} PutAllAppend<K, V>(m: Entries<K, V>, a: seq<(K, V)>, b: seq<(K, V)>)
    ensures PutAll(m, a + b) == PutAll(PutAll(m, a), b)
    decreases |a|
  {
    if a == [] {
      assert a + b == b;
    } else {
      assert (a + b)[1..] == a[1..] + b;
      PutAllAppend(Put(m, a[0].0, a[0].1), a[1..], b);
    }
  }

  /** Every value of the map was some entry's. */
  lemma {:induction false} ValueIsEntry<K, V>(m: Entries<K, V>, k: K) returns (i: nat)
    requires k in ToMap(m)
    ensures i < |m| && m[i] == (k, ToMap(m)[k])
  {
    if k in ToMap(m[1..]) {
      i := ValueIsEntry(m[1..], k);
      i := i + 1;
    } else {
      i := 0;
    }
  }

  /** Writing entries to a map one after another. */
  function SetAll<K, V>(m: map<K, V>, entries: Entries<K, V>): map<K, V> {
    if entries == [] then m
    else
      var n := |entries| - 1;
      SetAll(m, entries[..n])[entries[n].0 := entries[n].1]
  }

  lemma {:induction false} SetAllIsUpdate<K, V>(m: map<K, V>, entries: Entries<K, V>)
    ensures SetAll(m, entries) == m + ToMap(entries)
  {
    if entries != [] {
      var n := |entries| - 1;
      SetAllIsUpdate(m, entries[..n]);
      ToMapAppend(entries[..n], [entries[n]]);
      assert entries == entries[..n] + [entries[n]];
      assert ToMap([entries[n]]) == map[entries[n].0 := entries[n].1] + map[];
      UpdateRight(m, ToMap(entries[..n]), entries[n].0, entries[n].1);
    }
  }

  /** Drop some keys and map the other values. */
  function Keep<K(==), V>(entries: Entries<K, V>, drop: set<K>, f: V -> V): Entries<K, V> {
    if entries == [] then []
    else if entries[0].0 in drop then Keep(entries[1..], drop, f)
    else [(entries[0].0, f(entries[0].1))] + Keep(entries[1..], drop, f)
  }

  function KeepMap<K, V>(m: map<K, V>, drop: set<K>, f: V -> V): map<K, V> {
    map k | k in m && k !in drop :: f(m[k])
  }

  lemma KeepMapCons<K, V>(k: K, v: V, m: map<K, V>, drop: set<K>, f: V -> V)
    ensures k in drop ==> KeepMap(map[k := v] + m, drop, f) == KeepMap(m, drop, f)
    ensures k !in drop ==> KeepMap(map[k := v] + m, drop, f) == map[k := f(v)] + KeepMap(m, drop, f)
  {
  }

  lemma {:induction false} KeepToMap<K, V>(entries: Entries<K, V>, drop: set<K>, f: V -> V)
    ensures ToMap(Keep(entries, drop, f)) == KeepMap(ToMap(entries), drop, f)
  {
    if entries != [] {
      var e, rest := entries[0], Keep(entries[1..], drop, f);
      KeepToMap(entries[1..], drop, f);
      KeepMapCons(e.0, e.1, ToMap(entries[1..]), drop, f);
      assert ([(e.0, f(e.1))] + rest)[1..] == rest;
    }
  }

  lemma {:induction false} KeepNothing<K, V>(entries: Entries<K, V>, drop: set<K>, f: V -> V)
    ensures Keep(entries, drop, f) == [] <==> Keys(entries) <= drop
  {
    if entries != [] {
      KeepNothing(entries[1..], drop, f);
      KeysCons(entries);
    }
  }

  lemma UpdateThenMerge<K, V>(m: map<K, V>, k: K, v: V, n: map<K, V>)
    ensures m[k := v] + n == m + (map[k := v] + n)
  {
  }

  lemma UpdateRight<K, V>(m: map<K, V>, n: map<K, V>, k: K, v: V)
    ensures (m + n)[k := v] == m + n[k := v]
    ensures n[k := v] == n + (map[k := v] + map[])
  {
  }

  lemma UpdateDropNone<K, V>(m: map<K, V>, k: K, v: V)
    ensures m + map[k := v] - {} == m[k := v]
  {
  }

  lemma UpdateFirst<K, V>(k: K, v: V, w: V, m: map<K, V>)
    requires k !in m
    ensures (map[k := v] + m)[k := w] == map[k := w] + m
  {
  }

  lemma MergeIsAssociative<K, V>(m: map<K, V>, n: map<K, V>, o: map<K, V>)
    ensures m + n + o == m + (n + o)
  {
  }

  lemma DropAfterMerge<K, V>(m: map<K, V>, n: map<K, V>, drop: set<K>)
    ensures m + (n - drop) - drop == m + n - drop
  {
  }

  lemma DropUnderMerge<K, V>(m: map<K, V>, n: map<K, V>, drop: set<K>)
    requires n.Keys !! drop
    ensures m + n - drop == m - drop + n
  {
  }

  lemma MergeTwice<K, V>(m: map<K, V>, n: map<K, V>, o: map<K, V>)
    requires n.Keys <= o.Keys
    ensures m + n + o == m + o
  {
  }
}
