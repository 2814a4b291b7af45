/** Python's insertion-ordered `dict` with string keys: the order in which keys
    were first inserted, and the key-to-value map. */
module Dicts {

  datatype Dict<V> = Dict(keys: seq<string>, entries: map<string, V>)

  /** Each key of `ks` is listed once. */
  ghost predicate Distinct(ks: seq<string>) {
    forall i, j | 0 <= i < j < |ks| :: ks[i] != ks[j]
  }

  /** The representation invariant of a dictionary: keys are listed once
      each, and exactly the mapped keys are listed. */
  ghost predicate IsOrdered<V>(d: Dict<V>) {
    && Distinct(d.keys)
    && (forall k :: k in d.entries <==> k in d.keys)
  }

  function Empty<V>(): (d: Dict<V>)
    ensures IsOrdered(d)
  {
    Dict([], map[])
  }

  /** `d[k] = v`: a new key goes last, an existing key keeps its place. */
  function Put<V>(d: Dict<V>, k: string, v: V): Dict<V> {
    if k in d.entries then Dict(d.keys, d.entries[k := v])
    else Dict(d.keys + [k], d.entries[k := v])
  }

  /** Assignment keeps a dictionary a dictionary. */
  lemma PutKeepsOrdered<V>(d: Dict<V>, k: string, v: V)
    requires IsOrdered(d)
    ensures IsOrdered(Put(d, k, v))
  {
  }

  /** `d.values()`, in insertion order. */
  function Values<V>(d: Dict<V>): (vs: seq<V>)
    requires IsOrdered(d)
    ensures |vs| == |d.keys|
    ensures forall i | 0 <= i < |vs| :: vs[i] == d.entries[d.keys[i]]
  {
    seq(|d.keys|, i requires 0 <= i < |d.keys| => d.entries[d.keys[i]])
  }

  /** `d.update(src)`: put the entries of `src` one by one, in its order. */
  function Update<V>(d: Dict<V>, src: Dict<V>): Dict<V>
    requires IsOrdered(src)
  {
    PutAll(d, src.keys, src.entries)
  }

  function PutAll<V>(d: Dict<V>, ks: seq<string>, m: map<string, V>): Dict<V>
    requires forall k | k in ks :: k in m
    decreases |ks|
  {
    if ks == [] then d else PutAll(Put(d, ks[0], m[ks[0]]), ks[1..], m)
  }

  lemma DistinctTail(ks: seq<string>)
    requires ks != [] && Distinct(ks)
    ensures Distinct(ks[1..]) && ks[0] !in ks[1..]
  {
    assert forall i | 0 <= i < |ks[1..]| :: ks[1..][i] == ks[i + 1];
  }

  /** Putting keys that are all new appends them, in order. */
  lemma {:induction false} PutAllFreshKeys<V>(d: Dict<V>, ks: seq<string>, m: map<string, V>)
    requires forall k | k in ks :: k in m
    requires Distinct(ks)
    requires forall k | k in ks :: k !in d.entries
    ensures PutAll(d, ks, m).keys == d.keys + ks
    decreases |ks|
  {
    if ks != [] {
      DistinctTail(ks);
      PutAllFreshKeys(Put(d, ks[0], m[ks[0]]), ks[1..], m);
      assert d.keys + [ks[0]] + ks[1..] == d.keys + ks;
    }
  }

  /** Putting keys that are all new adds their entries and overwrites
      nothing already in `d`. */
  lemma {:induction false} PutAllFreshEntries<V>(d: Dict<V>, ks: seq<string>, m: map<string, V>)
    requires forall k | k in ks :: k in m
    requires Distinct(ks)
    requires forall k | k in ks :: k !in d.entries
    ensures forall k :: k in PutAll(d, ks, m).entries <==> k in d.entries || k in ks
    ensures forall k | k in PutAll(d, ks, m).entries ::
      PutAll(d, ks, m).entries[k] == if k in ks then m[k] else d.entries[k]
    decreases |ks|
  {
    if ks != [] {
      DistinctTail(ks);
      PutAllFreshEntries(Put(d, ks[0], m[ks[0]]), ks[1..], m);
    }
  }

  /** `d.update(src)` with key-disjoint dictionaries is concatenation: the
      keys of `src` follow those of `d`, and no value is overwritten. */
  lemma UpdateDisjoint<V>(d: Dict<V>, src: Dict<V>)
    requires IsOrdered(src)
    requires d.entries.Keys !! src.entries.Keys
    ensures Update(d, src) == Dict(d.keys + src.keys, d.entries + src.entries)
  {
    PutAllFreshKeys(d, src.keys, src.entries);
    PutAllFreshEntries(d, src.keys, src.entries);
  }
}
