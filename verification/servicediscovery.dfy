/**
 Cloud Map `NamespaceFilter`: a filter name, a list of values with an
 adder, and a condition. `NamespaceFilterName` and `FilterCondition` are not
 part of this model (`Opaque`).
 */
module ServiceDiscovery {
  import opened Presence

  datatype NamespaceFilter = NamespaceFilter(
    name: Tracked<Opaque>,
    values: Tracked<seq<string>>,
    condition: Tracked<Opaque>)

  /** The HasBeenSet flags, in declaration order. */
  function Flags(p: NamespaceFilter): seq<bool>
  {
    [ p.name.hasBeenSet
    , p.values.hasBeenSet
    , p.condition.hasBeenSet ]
  }

  /** Default construction. The constructor body is not part of this model, so
      the initial values are a parameter; the member initialisers lower every
      flag. */
  function Default(initial: NamespaceFilter): (p: NamespaceFilter)
    ensures true !in Flags(p)
    ensures p.name.value == initial.name.value
         && p.values.value == initial.values.value
         && p.condition.value == initial.condition.value
  {
    NamespaceFilter(
      Unset(initial.name.value),
      Unset(initial.values.value),
      Unset(initial.condition.value))
  }

  /** `SetName` (`WithName` has the same effect and returns the object):
      stores the value and raises only this field's flag. */
  function SetName(p: NamespaceFilter, v: Opaque): (r: NamespaceFilter)
    ensures r.name == Tracked(v, true)
    ensures r.(name := p.name) == p
    ensures Flags(r) == Flags(p)[0 := true]
  {
    p.(name := Set(p.name, v))
  }

  /** `SetValues` (`WithValues` has the same effect and returns the object):
      stores the value and raises only this field's flag. */
  function SetValues(p: NamespaceFilter, v: seq<string>): (r: NamespaceFilter)
    ensures r.values == Tracked(v, true)
    ensures r.(values := p.values) == p
    ensures Flags(r) == Flags(p)[1 := true]
  {
    p.(values := Set(p.values, v))
  }

  /** `AddValues`: `push_back` at the end of the list; the flag is raised. */
  function AddValues(p: NamespaceFilter, x: string): (r: NamespaceFilter)
    ensures r.values.value == p.values.value + [x] && r.values.hasBeenSet
    ensures r.(values := p.values) == p
    ensures Flags(r) == Flags(p)[1 := true]
  {
    p.(values := Add(p.values, x))
  }

  /** `AddValues` applied to each element of xs, in order. */
  function AddValuesEach(p: NamespaceFilter, xs: seq<string>): NamespaceFilter
    decreases |xs|
  {
    if xs == [] then p else AddValuesEach(AddValues(p, xs[0]), xs[1..])
  }

  /** Adding elements one at a time is the same as setting the list
      extended by all of them: order is kept, nothing is dropped or
      deduplicated, and no other field moves. */
  lemma {:induction false} AddValuesEachAppends(p: NamespaceFilter, xs: seq<string>)
    ensures AddValuesEach(p, xs) == p.(values := AddAll(p.values, xs))
    ensures xs != [] ==> AddValuesEach(p, xs) == SetValues(p, p.values.value + xs)
    decreases |xs|
  {
    if xs != [] {
      AddValuesEachAppends(AddValues(p, xs[0]), xs[1..]);
    }
    AddAllAppends(p.values, xs);
  }

  /** `SetCondition` (`WithCondition` has the same effect and returns the object):
      stores the value and raises only this field's flag. */
  function SetCondition(p: NamespaceFilter, v: Opaque): (r: NamespaceFilter)
    ensures r.condition == Tracked(v, true)
    ensures r.(condition := p.condition) == p
    ensures Flags(r) == Flags(p)[2 := true]
  {
    p.(condition := Set(p.condition, v))
  }

  /** Values are appended whatever the condition is: with condition EQ the
      documented single-value rule is not enforced. */
  lemma AddValuesIgnoresCondition(p: NamespaceFilter, a: string, b: string)
    ensures var q := AddValues(AddValues(SetCondition(SetValues(p, []), Opaque("EQ")), a), b);
      q.values == Tracked([a, b], true) && q.condition == Tracked(Opaque("EQ"), true)
  {
    assert [] + [a] + [b] == [a, b];
  }

  /** `SetValues` replaces the whole list. */
  lemma SetValuesDiscardsAdded(p: NamespaceFilter, v: string, vs: seq<string>)
    ensures SetValues(AddValues(p, v), vs) == SetValues(p, vs)
  {
  }
}
