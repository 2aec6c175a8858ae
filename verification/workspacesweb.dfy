/**
 WorkSpaces Web `CreateTrustStoreRequest`: a list of certificates (byte
 buffers), a client token and a list of tags (`Opaque`). The
 constructor, which the documentation says generates a client token, is not
 part of this model.
 */
module WorkSpacesWeb {
  import opened Presence

  /** `Aws::Utils::ByteBuffer`. */
  type ByteBuffer = seq<bv8>

  datatype CreateTrustStoreRequest = CreateTrustStoreRequest(
    certificateList: Tracked<seq<ByteBuffer>>,
    clientToken: Tracked<string>,
    tags: Tracked<seq<Opaque>>)

  /** The HasBeenSet flags, in declaration order. */
  function Flags(p: CreateTrustStoreRequest): seq<bool>
  {
    [ p.certificateList.hasBeenSet
    , p.clientToken.hasBeenSet
    , p.tags.hasBeenSet ]
  }

  /** `GetServiceRequestName`: the operation name, whatever the request holds. */
  function GetServiceRequestName(p: CreateTrustStoreRequest): (n: string)
    ensures n == "CreateTrustStore"
  {
    "CreateTrustStore"
  }

  /** Default construction. The constructor body is not part of this model, so
      the initial values are a parameter. The member initialisers lower the
      flags of the two lists; the client token, which the documentation says
      the SDK generates when none is given, is taken whole from the parameter,
      flag included. */
  function Default(initial: CreateTrustStoreRequest): (p: CreateTrustStoreRequest)
    ensures !p.certificateList.hasBeenSet && !p.tags.hasBeenSet
    ensures p.clientToken == initial.clientToken
    ensures p.certificateList.value == initial.certificateList.value
         && p.tags.value == initial.tags.value
  {
    CreateTrustStoreRequest(
      Unset(initial.certificateList.value),
      initial.clientToken,
      Unset(initial.tags.value))
  }

  /** `SetCertificateList` (`WithCertificateList` has the same effect and returns the object):
      stores the value and raises only this field's flag. */
  function SetCertificateList(p: CreateTrustStoreRequest, v: seq<ByteBuffer>): (r: CreateTrustStoreRequest)
    ensures r.certificateList == Tracked(v, true)
    ensures r.(certificateList := p.certificateList) == p
    ensures Flags(r) == Flags(p)[0 := true]
  {
    p.(certificateList := Set(p.certificateList, v))
  }

  /** `AddCertificateList`: `push_back` at the end of the list; the flag is raised. */
  function AddCertificateList(p: CreateTrustStoreRequest, x: ByteBuffer): (r: CreateTrustStoreRequest)
    ensures r.certificateList.value == p.certificateList.value + [x] && r.certificateList.hasBeenSet
    ensures r.(certificateList := p.certificateList) == p
    ensures Flags(r) == Flags(p)[0 := true]
  {
    p.(certificateList := Add(p.certificateList, x))
  }

  /** `AddCertificateList` applied to each element of xs, in order. */
  function AddCertificateListEach(p: CreateTrustStoreRequest, xs: seq<ByteBuffer>): CreateTrustStoreRequest
    decreases |xs|
  {
    if xs == [] then p else AddCertificateListEach(AddCertificateList(p, xs[0]), xs[1..])
  }

  /** Adding elements one at a time is the same as setting the list
      extended by all of them: order is kept, nothing is dropped or
      deduplicated, and no other field moves. */
  lemma {:induction false} AddCertificateListEachAppends(p: CreateTrustStoreRequest, xs: seq<ByteBuffer>)
    ensures AddCertificateListEach(p, xs) == p.(certificateList := AddAll(p.certificateList, xs))
    ensures xs != [] ==> AddCertificateListEach(p, xs) == SetCertificateList(p, p.certificateList.value + xs)
    decreases |xs|
  {
    if xs != [] {
      AddCertificateListEachAppends(AddCertificateList(p, xs[0]), xs[1..]);
    }
    AddAllAppends(p.certificateList, xs);
  }

  /** `SetClientToken` (`WithClientToken` has the same effect and returns the object):
      stores the value and raises only this field's flag. */
  function SetClientToken(p: CreateTrustStoreRequest, v: string): (r: CreateTrustStoreRequest)
    ensures r.clientToken == Tracked(v, true)
    ensures r.(clientToken := p.clientToken) == p
    ensures Flags(r) == Flags(p)[1 := true]
  {
    p.(clientToken := Set(p.clientToken, v))
  }

  /** `SetTags` (`WithTags` has the same effect and returns the object):
      stores the value and raises only this field's flag. */
  function SetTags(p: CreateTrustStoreRequest, v: seq<Opaque>): (r: CreateTrustStoreRequest)
    ensures r.tags == Tracked(v, true)
    ensures r.(tags := p.tags) == p
    ensures Flags(r) == Flags(p)[2 := true]
  {
    p.(tags := Set(p.tags, v))
  }

  /** `AddTags`: `push_back` at the end of the list; the flag is raised. */
  function AddTags(p: CreateTrustStoreRequest, x: Opaque): (r: CreateTrustStoreRequest)
    ensures r.tags.value == p.tags.value + [x] && r.tags.hasBeenSet
    ensures r.(tags := p.tags) == p
    ensures Flags(r) == Flags(p)[2 := true]
  {
    p.(tags := Add(p.tags, x))
  }

  /** `AddTags` applied to each element of xs, in order. */
  function AddTagsEach(p: CreateTrustStoreRequest, xs: seq<Opaque>): CreateTrustStoreRequest
    decreases |xs|
  {
    if xs == [] then p else AddTagsEach(AddTags(p, xs[0]), xs[1..])
  }

  /** Adding elements one at a time is the same as setting the list
      extended by all of them: order is kept, nothing is dropped or
      deduplicated, and no other field moves. */
  lemma {:induction false} AddTagsEachAppends(p: CreateTrustStoreRequest, xs: seq<Opaque>)
    ensures AddTagsEach(p, xs) == p.(tags := AddAll(p.tags, xs))
    ensures xs != [] ==> AddTagsEach(p, xs) == SetTags(p, p.tags.value + xs)
    decreases |xs|
  {
    if xs != [] {
      AddTagsEachAppends(AddTags(p, xs[0]), xs[1..]);
    }
    AddAllAppends(p.tags, xs);
  }

  /** `SetTags` replaces the whole list, discarding tags added before it. */
  lemma SetTagsDiscardsAddedTags(p: CreateTrustStoreRequest, t: Opaque, ts: seq<Opaque>)
    ensures SetTags(AddTags(p, t), ts) == SetTags(p, ts)
  {
  }
}
