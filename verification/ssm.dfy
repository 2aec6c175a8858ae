/**
 Systems Manager `AssociationOverview`: two strings and a map from status
 to a 32-bit count, with an adder that never overwrites.
 */
module SSM {
  import opened Presence

  datatype AssociationOverview = AssociationOverview(
    status: Tracked<string>,
    detailedStatus: Tracked<string>,
    associationStatusAggregatedCount: Tracked<map<string, int32>>)

  /** The HasBeenSet flags, in declaration order. */
  function Flags(p: AssociationOverview): seq<bool>
  {
    [ p.status.hasBeenSet
    , p.detailedStatus.hasBeenSet
    , p.associationStatusAggregatedCount.hasBeenSet ]
  }

  /** Default construction. The constructor body is not part of this model, so
      the initial values are a parameter; the member initialisers lower every
      flag. */
  function Default(initial: AssociationOverview): (p: AssociationOverview)
    ensures true !in Flags(p)
    ensures p.status.value == initial.status.value
         && p.detailedStatus.value == initial.detailedStatus.value
         && p.associationStatusAggregatedCount.value == initial.associationStatusAggregatedCount.value
  {
    AssociationOverview(
      Unset(initial.status.value),
      Unset(initial.detailedStatus.value),
      Unset(initial.associationStatusAggregatedCount.value))
  }

  /** `SetStatus` (`WithStatus` has the same effect and returns the object):
      stores the value and raises only this field's flag. */
  function SetStatus(p: AssociationOverview, v: string): (r: AssociationOverview)
    ensures r.status == Tracked(v, true)
    ensures r.(status := p.status) == p
    ensures Flags(r) == Flags(p)[0 := true]
  {
    p.(status := Set(p.status, v))
  }

  /** `SetDetailedStatus` (`WithDetailedStatus` has the same effect and returns the object):
      stores the value and raises only this field's flag. */
  function SetDetailedStatus(p: AssociationOverview, v: string): (r: AssociationOverview)
    ensures r.detailedStatus == Tracked(v, true)
    ensures r.(detailedStatus := p.detailedStatus) == p
    ensures Flags(r) == Flags(p)[1 := true]
  {
    p.(detailedStatus := Set(p.detailedStatus, v))
  }

  /** `SetAssociationStatusAggregatedCount` (`WithAssociationStatusAggregatedCount` has the same effect and returns the object):
      stores the value and raises only this field's flag. */
  function SetAssociationStatusAggregatedCount(p: AssociationOverview, v: map<string, int32>): (r: AssociationOverview)
    ensures r.associationStatusAggregatedCount == Tracked(v, true)
    ensures r.(associationStatusAggregatedCount := p.associationStatusAggregatedCount) == p
    ensures Flags(r) == Flags(p)[2 := true]
  {
    p.(associationStatusAggregatedCount := Set(p.associationStatusAggregatedCount, v))
  }

  /** `AddAssociationStatusAggregatedCount`: `emplace`, which inserts only a key that is
      absent and never overwrites; the flag is raised either way. */
  function AddAssociationStatusAggregatedCount(p: AssociationOverview, k: string, v: int32): (r: AssociationOverview)
    ensures k in p.associationStatusAggregatedCount.value ==> r.associationStatusAggregatedCount.value == p.associationStatusAggregatedCount.value
    ensures k !in p.associationStatusAggregatedCount.value ==> r.associationStatusAggregatedCount.value == p.associationStatusAggregatedCount.value[k := v]
    ensures r.associationStatusAggregatedCount.hasBeenSet
    ensures r.(associationStatusAggregatedCount := p.associationStatusAggregatedCount) == p
    ensures Flags(r) == Flags(p)[2 := true]
  {
    p.(associationStatusAggregatedCount := Emplace(p.associationStatusAggregatedCount, k, v))
  }

  /** `AddAssociationStatusAggregatedCount` applied to each pair of kvs, in order. */
  function AddAssociationStatusAggregatedCountEach(p: AssociationOverview, kvs: seq<(string, int32)>): AssociationOverview
    decreases |kvs|
  {
    if kvs == [] then p else AddAssociationStatusAggregatedCountEach(AddAssociationStatusAggregatedCount(p, kvs[0].0, kvs[0].1), kvs[1..])
  }

  /** Adding pairs one at a time keeps every entry already present and,
      for each new key, the value of its first occurrence. */
  lemma {:induction false} AddAssociationStatusAggregatedCountEachIsFirstWins(p: AssociationOverview, kvs: seq<(string, int32)>)
    ensures AddAssociationStatusAggregatedCountEach(p, kvs) == p.(associationStatusAggregatedCount := EmplaceAll(p.associationStatusAggregatedCount, kvs))
    ensures kvs != [] ==> AddAssociationStatusAggregatedCountEach(p, kvs) == SetAssociationStatusAggregatedCount(p, FirstWins(kvs) + p.associationStatusAggregatedCount.value)
    decreases |kvs|
  {
    if kvs != [] {
      AddAssociationStatusAggregatedCountEachIsFirstWins(AddAssociationStatusAggregatedCount(p, kvs[0].0, kvs[0].1), kvs[1..]);
    }
    EmplaceAllIsFirstWins(p.associationStatusAggregatedCount, kvs);
  }

  /** A count already recorded for a status is never overwritten by a later
      add, yet the add still raises the flag. */
  lemma CountIsNeverOverwritten(p: AssociationOverview, k: string, n: int32)
    requires k in p.associationStatusAggregatedCount.value
    ensures AddAssociationStatusAggregatedCount(p, k, n).associationStatusAggregatedCount
         == Tracked(p.associationStatusAggregatedCount.value, true)
  {
  }

  /** `SetAssociationStatusAggregatedCount` replaces the map wholesale. */
  lemma SetCountDiscardsAdded(p: AssociationOverview, k: string, n: int32, m: map<string, int32>)
    ensures SetAssociationStatusAggregatedCount(AddAssociationStatusAggregatedCount(p, k, n), m)
         == SetAssociationStatusAggregatedCount(p, m)
  {
  }
}
