/**
 Presence-tracked fields, the building block of every generated model class:
 each member is stored next to a "has been set" flag that records whether a
 setter was ever called, independently of the value it stored.
 */
module Presence {

  /** A 32-bit signed C++ `int`, as used by scalar and map-valued model fields. */
  newtype int32 = x: int | -0x8000_0000 <= x < 0x8000_0000

  /** An element of a nested model type (Tag, GlueSchema, DistributionSummary,
      ByteBuffer, ...) or an enumeration value whose definition is declared in
      a header that is not part of this model. Only identity matters here. */
  datatype Opaque = Opaque(id: string)

  /** A field value together with its HasBeenSet flag. */
  datatype Tracked<T> = Tracked(value: T, hasBeenSet: bool)

  /** A default-initialised member: the flag starts false. */
  function Unset<T>(v: T): Tracked<T>
  {
    Tracked(v, false)
  }

  /** `Set<Field>(v)`: stores v and raises the flag. */
  function Set<T>(f: Tracked<T>, v: T): Tracked<T>
  {
    Tracked(v, true)
  }

  /** `Add<Field>(x)` on a vector member: `push_back`, and the flag is raised. */
  function Add<T>(f: Tracked<seq<T>>, x: T): Tracked<seq<T>>
  {
    Tracked(f.value + [x], true)
  }

  /** `Add<Field>(k, v)` on a map member: `emplace`, which inserts only when k
      is absent; the flag is raised in both cases. */
  function Emplace<K, V>(f: Tracked<map<K, V>>, k: K, v: V): (r: Tracked<map<K, V>>)
    ensures r.hasBeenSet
    ensures r.value.Keys == f.value.Keys + {k}
    ensures forall j :: j in f.value ==> r.value[j] == f.value[j]
    ensures k !in f.value ==> r.value[k] == v
  {
    Tracked(if k in f.value then f.value else f.value[k := v], true)
  }

  /** Emplace agrees with a union in which the entries already present win:
      an independent characterisation of "never overwrites". */
  lemma EmplaceIsLeftBiasedUnion<K, V>(f: Tracked<map<K, V>>, k: K, v: V)
    ensures Emplace(f, k, v).value == map[k := v] + f.value
  {
    var r := Emplace(f, k, v).value;
    var u := map[k := v] + f.value;
    assert r.Keys == u.Keys;
    forall j | j in r
      ensures r[j] == u[j]
    {
    }
  }

  /** A second emplace of the same key keeps the first value. */
  lemma EmplaceKeepsFirstValue<K, V>(f: Tracked<map<K, V>>, k: K, v1: V, v2: V)
    ensures Emplace(Emplace(f, k, v1), k, v2).value == Emplace(f, k, v1).value
    ensures k !in f.value ==> Emplace(Emplace(f, k, v1), k, v2).value[k] == v1
  {
  }

  /** Applying `Add<Field>` to each element of xs, left to right. */
  function AddAll<T>(f: Tracked<seq<T>>, xs: seq<T>): Tracked<seq<T>>
    decreases |xs|
  {
    if xs == [] then f else AddAll(Add(f, xs[0]), xs[1..])
  }

  /** Repeated adds append the elements in call order, and leave the flag
      untouched only when nothing was added. */
  lemma {:induction false} AddAllAppends<T>(f: Tracked<seq<T>>, xs: seq<T>)
    ensures AddAll(f, xs) == Tracked(f.value + xs, f.hasBeenSet || xs != [])
    decreases |xs|
  {
    if xs != [] {
      AddAllAppends(Add(f, xs[0]), xs[1..]);
      assert f.value + [xs[0]] + xs[1..] == f.value + xs;
    } else {
      assert f.value + xs == f.value;
    }
  }

  /** Applying `Add<Field>(k, v)` to each pair of kvs, left to right. */
  function EmplaceAll<K, V>(f: Tracked<map<K, V>>, kvs: seq<(K, V)>): Tracked<map<K, V>>
    decreases |kvs|
  {
    if kvs == [] then f else EmplaceAll(Emplace(f, kvs[0].0, kvs[0].1), kvs[1..])
  }

  /** Reference map of a pair sequence in which the FIRST occurrence of a key
      determines its value. */
  function FirstWins<K, V>(kvs: seq<(K, V)>): map<K, V>
    decreases |kvs|
  {
    if kvs == [] then map[] else FirstWins(kvs[1..])[kvs[0].0 := kvs[0].1]
  }

  /** Repeated emplaces keep every entry that was already present and, for a
      new key, the value of its first occurrence. */
  lemma {:induction false} EmplaceAllIsFirstWins<K, V>(f: Tracked<map<K, V>>, kvs: seq<(K, V)>)
    ensures EmplaceAll(f, kvs).value == FirstWins(kvs) + f.value
    ensures EmplaceAll(f, kvs).hasBeenSet == (f.hasBeenSet || kvs != [])
    decreases |kvs|
  {
    if kvs != [] {
      var (k, v) := kvs[0];
      var g := Emplace(f, k, v);
      EmplaceAllIsFirstWins(g, kvs[1..]);
      EmplaceIsLeftBiasedUnion(f, k, v);
      var rest := FirstWins(kvs[1..]);
      var lhs := rest + g.value;
      var rhs := rest[k := v] + f.value;
      assert lhs.Keys == rhs.Keys;
      forall j | j in lhs
        ensures lhs[j] == rhs[j]
      {
      }
      assert lhs == rhs;
    }
  }
}
