/**
 CloudFront `DistributionList`: two markers, two 32-bit counts, a boolean
 and the list of `DistributionSummary` items (`Opaque` here). The counts
 have no member initialiser, so their initial values are a parameter.
 */
module CloudFront {
  import opened Presence

  datatype DistributionList = DistributionList(
    marker: Tracked<string>,
    nextMarker: Tracked<string>,
    maxItems: Tracked<int32>,
    isTruncated: Tracked<bool>,
    quantity: Tracked<int32>,
    items: Tracked<seq<Opaque>>)

  /** The HasBeenSet flags, in declaration order. */
  function Flags(p: DistributionList): seq<bool>
  {
    [ p.marker.hasBeenSet
    , p.nextMarker.hasBeenSet
    , p.maxItems.hasBeenSet
    , p.isTruncated.hasBeenSet
    , p.quantity.hasBeenSet
    , p.items.hasBeenSet ]
  }

  /** Default construction. The constructor body is not part of this model, so
      the initial values are a parameter; the member initialisers lower every
      flag. */
  function Default(initial: DistributionList): (p: DistributionList)
    ensures true !in Flags(p)
    ensures p.marker.value == initial.marker.value
         && p.nextMarker.value == initial.nextMarker.value
         && p.maxItems.value == initial.maxItems.value
         && p.isTruncated.value == initial.isTruncated.value
         && p.quantity.value == initial.quantity.value
         && p.items.value == initial.items.value
  {
    DistributionList(
      Unset(initial.marker.value),
      Unset(initial.nextMarker.value),
      Unset(initial.maxItems.value),
      Unset(initial.isTruncated.value),
      Unset(initial.quantity.value),
      Unset(initial.items.value))
  }

  /** `SetMarker` (`WithMarker` has the same effect and returns the object):
      stores the value and raises only this field's flag. */
  function SetMarker(p: DistributionList, v: string): (r: DistributionList)
    ensures r.marker == Tracked(v, true)
    ensures r.(marker := p.marker) == p
    ensures Flags(r) == Flags(p)[0 := true]
  {
    p.(marker := Set(p.marker, v))
  }

  /** `SetNextMarker` (`WithNextMarker` has the same effect and returns the object):
      stores the value and raises only this field's flag. */
  function SetNextMarker(p: DistributionList, v: string): (r: DistributionList)
    ensures r.nextMarker == Tracked(v, true)
    ensures r.(nextMarker := p.nextMarker) == p
    ensures Flags(r) == Flags(p)[1 := true]
  {
    p.(nextMarker := Set(p.nextMarker, v))
  }

  /** `SetMaxItems` (`WithMaxItems` has the same effect and returns the object):
      stores the value and raises only this field's flag. */
  function SetMaxItems(p: DistributionList, v: int32): (r: DistributionList)
    ensures r.maxItems == Tracked(v, true)
    ensures r.(maxItems := p.maxItems) == p
    ensures Flags(r) == Flags(p)[2 := true]
  {
    p.(maxItems := Set(p.maxItems, v))
  }

  /** `SetIsTruncated` (`WithIsTruncated` has the same effect and returns the object):
      stores the value and raises only this field's flag. */
  function SetIsTruncated(p: DistributionList, v: bool): (r: DistributionList)
    ensures r.isTruncated == Tracked(v, true)
    ensures r.(isTruncated := p.isTruncated) == p
    ensures Flags(r) == Flags(p)[3 := true]
  {
    p.(isTruncated := Set(p.isTruncated, v))
  }

  /** `SetQuantity` (`WithQuantity` has the same effect and returns the object):
      stores the value and raises only this field's flag. */
  function SetQuantity(p: DistributionList, v: int32): (r: DistributionList)
    ensures r.quantity == Tracked(v, true)
    ensures r.(quantity := p.quantity) == p
    ensures Flags(r) == Flags(p)[4 := true]
  {
    p.(quantity := Set(p.quantity, v))
  }

  /** `SetItems` (`WithItems` has the same effect and returns the object):
      stores the value and raises only this field's flag. */
  function SetItems(p: DistributionList, v: seq<Opaque>): (r: DistributionList)
    ensures r.items == Tracked(v, true)
    ensures r.(items := p.items) == p
    ensures Flags(r) == Flags(p)[5 := true]
  {
    p.(items := Set(p.items, v))
  }

  /** `AddItems`: `push_back` at the end of the list; the flag is raised. */
  function AddItems(p: DistributionList, x: Opaque): (r: DistributionList)
    ensures r.items.value == p.items.value + [x] && r.items.hasBeenSet
    ensures r.(items := p.items) == p
    ensures Flags(r) == Flags(p)[5 := true]
  {
    p.(items := Add(p.items, x))
  }

  /** `AddItems` applied to each element of xs, in order. */
  function AddItemsEach(p: DistributionList, xs: seq<Opaque>): DistributionList
    decreases |xs|
  {
    if xs == [] then p else AddItemsEach(AddItems(p, xs[0]), xs[1..])
  }

  /** Adding elements one at a time is the same as setting the list
      extended by all of them: order is kept, nothing is dropped or
      deduplicated, and no other field moves. */
  lemma {:induction false} AddItemsEachAppends(p: DistributionList, xs: seq<Opaque>)
    ensures AddItemsEach(p, xs) == p.(items := AddAll(p.items, xs))
    ensures xs != [] ==> AddItemsEach(p, xs) == SetItems(p, p.items.value + xs)
    decreases |xs|
  {
    if xs != [] {
      AddItemsEachAppends(AddItems(p, xs[0]), xs[1..]);
    }
    AddAllAppends(p.items, xs);
  }

  /** `Quantity` and the item list are independent: adding an item leaves the
      stored quantity alone. */
  lemma QuantityIsIndependentOfItems(p: DistributionList, n: int32, d: Opaque)
    ensures AddItems(SetQuantity(p, n), d).quantity == Tracked(n, true)
    ensures |AddItems(SetQuantity(p, n), d).items.value| == |p.items.value| + 1
  {
  }

  /** So a list can claim zero items while holding one. */
  lemma QuantityCanDisagreeWithItems(initial: DistributionList, d: Opaque)
    ensures var q := AddItems(SetQuantity(SetItems(Default(initial), []), 0), d);
      q.quantity.value == 0 && |q.items.value| == 1
  {
  }

  /** Setting the flag-like value false still records its presence. */
  lemma FalseIsTruncatedIsPresent(p: DistributionList)
    ensures SetIsTruncated(p, false).isTruncated == Tracked(false, true)
  {
  }
}
