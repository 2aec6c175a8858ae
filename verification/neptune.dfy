/**
 Neptune `CopyDBParameterGroupRequest`: three strings and a list of tags.
 `Tag` is not part of this model (`Opaque`).
 */
module Neptune {
  import opened Presence

  datatype CopyDBParameterGroupRequest = CopyDBParameterGroupRequest(
    sourceDBParameterGroupIdentifier: Tracked<string>,
    targetDBParameterGroupIdentifier: Tracked<string>,
    targetDBParameterGroupDescription: Tracked<string>,
    tags: Tracked<seq<Opaque>>)

  /** The HasBeenSet flags, in declaration order. */
  function Flags(p: CopyDBParameterGroupRequest): seq<bool>
  {
    [ p.sourceDBParameterGroupIdentifier.hasBeenSet
    , p.targetDBParameterGroupIdentifier.hasBeenSet
    , p.targetDBParameterGroupDescription.hasBeenSet
    , p.tags.hasBeenSet ]
  }

  /** `GetServiceRequestName`: the operation name, whatever the request holds. */
  function GetServiceRequestName(p: CopyDBParameterGroupRequest): (n: string)
    ensures n == "CopyDBParameterGroup"
  {
    "CopyDBParameterGroup"
  }

  /** Default construction. The constructor body is not part of this model, so
      the initial values are a parameter; the member initialisers lower every
      flag. */
  function Default(initial: CopyDBParameterGroupRequest): (p: CopyDBParameterGroupRequest)
    ensures true !in Flags(p)
    ensures p.sourceDBParameterGroupIdentifier.value == initial.sourceDBParameterGroupIdentifier.value
         && p.targetDBParameterGroupIdentifier.value == initial.targetDBParameterGroupIdentifier.value
         && p.targetDBParameterGroupDescription.value == initial.targetDBParameterGroupDescription.value
         && p.tags.value == initial.tags.value
  {
    CopyDBParameterGroupRequest(
      Unset(initial.sourceDBParameterGroupIdentifier.value),
      Unset(initial.targetDBParameterGroupIdentifier.value),
      Unset(initial.targetDBParameterGroupDescription.value),
      Unset(initial.tags.value))
  }

  /** `SetSourceDBParameterGroupIdentifier` (`WithSourceDBParameterGroupIdentifier` has the same effect and returns the object):
      stores the value and raises only this field's flag. */
  function SetSourceDBParameterGroupIdentifier(p: CopyDBParameterGroupRequest, v: string): (r: CopyDBParameterGroupRequest)
    ensures r.sourceDBParameterGroupIdentifier == Tracked(v, true)
    ensures r.(sourceDBParameterGroupIdentifier := p.sourceDBParameterGroupIdentifier) == p
    ensures Flags(r) == Flags(p)[0 := true]
  {
    p.(sourceDBParameterGroupIdentifier := Set(p.sourceDBParameterGroupIdentifier, v))
  }

  /** `SetTargetDBParameterGroupIdentifier` (`WithTargetDBParameterGroupIdentifier` has the same effect and returns the object):
      stores the value and raises only this field's flag. */
  function SetTargetDBParameterGroupIdentifier(p: CopyDBParameterGroupRequest, v: string): (r: CopyDBParameterGroupRequest)
    ensures r.targetDBParameterGroupIdentifier == Tracked(v, true)
    ensures r.(targetDBParameterGroupIdentifier := p.targetDBParameterGroupIdentifier) == p
    ensures Flags(r) == Flags(p)[1 := true]
  {
    p.(targetDBParameterGroupIdentifier := Set(p.targetDBParameterGroupIdentifier, v))
  }

  /** `SetTargetDBParameterGroupDescription` (`WithTargetDBParameterGroupDescription` has the same effect and returns the object):
      stores the value and raises only this field's flag. */
  function SetTargetDBParameterGroupDescription(p: CopyDBParameterGroupRequest, v: string): (r: CopyDBParameterGroupRequest)
    ensures r.targetDBParameterGroupDescription == Tracked(v, true)
    ensures r.(targetDBParameterGroupDescription := p.targetDBParameterGroupDescription) == p
    ensures Flags(r) == Flags(p)[2 := true]
  {
    p.(targetDBParameterGroupDescription := Set(p.targetDBParameterGroupDescription, v))
  }

  /** `SetTags` (`WithTags` has the same effect and returns the object):
      stores the value and raises only this field's flag. */
  function SetTags(p: CopyDBParameterGroupRequest, v: seq<Opaque>): (r: CopyDBParameterGroupRequest)
    ensures r.tags == Tracked(v, true)
    ensures r.(tags := p.tags) == p
    ensures Flags(r) == Flags(p)[3 := true]
  {
    p.(tags := Set(p.tags, v))
  }

  /** `AddTags`: `push_back` at the end of the list; the flag is raised. */
  function AddTags(p: CopyDBParameterGroupRequest, x: Opaque): (r: CopyDBParameterGroupRequest)
    ensures r.tags.value == p.tags.value + [x] && r.tags.hasBeenSet
    ensures r.(tags := p.tags) == p
    ensures Flags(r) == Flags(p)[3 := true]
  {
    p.(tags := Add(p.tags, x))
  }

  /** `AddTags` applied to each element of xs, in order. */
  function AddTagsEach(p: CopyDBParameterGroupRequest, xs: seq<Opaque>): CopyDBParameterGroupRequest
    decreases |xs|
  {
    if xs == [] then p else AddTagsEach(AddTags(p, xs[0]), xs[1..])
  }

  /** Adding elements one at a time is the same as setting the list
      extended by all of them: order is kept, nothing is dropped or
      deduplicated, and no other field moves. */
  lemma {:induction false} AddTagsEachAppends(p: CopyDBParameterGroupRequest, xs: seq<Opaque>)
    ensures AddTagsEach(p, xs) == p.(tags := AddAll(p.tags, xs))
    ensures xs != [] ==> AddTagsEach(p, xs) == SetTags(p, p.tags.value + xs)
    decreases |xs|
  {
    if xs != [] {
      AddTagsEachAppends(AddTags(p, xs[0]), xs[1..]);
    }
    AddAllAppends(p.tags, xs);
  }

  /** The identifier constraints in the documentation are not checked: an
      empty identifier and one ending in a hyphen are stored and flagged. */
  lemma TargetIdentifierIsNotValidated(p: CopyDBParameterGroupRequest)
    ensures SetTargetDBParameterGroupIdentifier(p, "").targetDBParameterGroupIdentifier == Tracked("", true)
    ensures SetTargetDBParameterGroupIdentifier(p, "group-").targetDBParameterGroupIdentifier == Tracked("group-", true)
  {
  }

  /** `SetTags` replaces the whole list, discarding tags added before it. */
  lemma SetTagsDiscardsAddedTags(p: CopyDBParameterGroupRequest, t: Opaque, ts: seq<Opaque>)
    ensures SetTags(AddTags(p, t), ts) == SetTags(p, ts)
  {
  }
}
