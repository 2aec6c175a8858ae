/**
 Alexa for Business `NetworkProfile`: ten presence-tracked fields, one of
 them a list with an adder. The security type and EAP method are
 enumerations whose definitions are not part of this model (`Opaque`).
 */
module AlexaForBusiness {
  import opened Presence

  datatype NetworkProfile = NetworkProfile(
    networkProfileArn: Tracked<string>,
    networkProfileName: Tracked<string>,
    description: Tracked<string>,
    ssid: Tracked<string>,
    securityType: Tracked<Opaque>,
    eapMethod: Tracked<Opaque>,
    currentPassword: Tracked<string>,
    nextPassword: Tracked<string>,
    certificateAuthorityArn: Tracked<string>,
    trustAnchors: Tracked<seq<string>>)

  /** The HasBeenSet flags, in declaration order. */
  function Flags(p: NetworkProfile): seq<bool>
  {
    [ p.networkProfileArn.hasBeenSet
    , p.networkProfileName.hasBeenSet
    , p.description.hasBeenSet
    , p.ssid.hasBeenSet
    , p.securityType.hasBeenSet
    , p.eapMethod.hasBeenSet
    , p.currentPassword.hasBeenSet
    , p.nextPassword.hasBeenSet
    , p.certificateAuthorityArn.hasBeenSet
    , p.trustAnchors.hasBeenSet ]
  }

  /** Default construction. The constructor body is not part of this model, so
      the initial values are a parameter; the member initialisers lower every
      flag. */
  function Default(initial: NetworkProfile): (p: NetworkProfile)
    ensures true !in Flags(p)
    ensures p.networkProfileArn.value == initial.networkProfileArn.value
         && p.networkProfileName.value == initial.networkProfileName.value
         && p.description.value == initial.description.value
         && p.ssid.value == initial.ssid.value
         && p.securityType.value == initial.securityType.value
         && p.eapMethod.value == initial.eapMethod.value
         && p.currentPassword.value == initial.currentPassword.value
         && p.nextPassword.value == initial.nextPassword.value
         && p.certificateAuthorityArn.value == initial.certificateAuthorityArn.value
         && p.trustAnchors.value == initial.trustAnchors.value
  {
    NetworkProfile(
      Unset(initial.networkProfileArn.value),
      Unset(initial.networkProfileName.value),
      Unset(initial.description.value),
      Unset(initial.ssid.value),
      Unset(initial.securityType.value),
      Unset(initial.eapMethod.value),
      Unset(initial.currentPassword.value),
      Unset(initial.nextPassword.value),
      Unset(initial.certificateAuthorityArn.value),
      Unset(initial.trustAnchors.value))
  }

  /** `SetNetworkProfileArn` (`WithNetworkProfileArn` has the same effect and returns the object):
      stores the value and raises only this field's flag. */
  function SetNetworkProfileArn(p: NetworkProfile, v: string): (r: NetworkProfile)
    ensures r.networkProfileArn == Tracked(v, true)
    ensures r.(networkProfileArn := p.networkProfileArn) == p
    ensures Flags(r) == Flags(p)[0 := true]
  {
    p.(networkProfileArn := Set(p.networkProfileArn, v))
  }

  /** `WithNetworkProfileArn`: the effect of `SetNetworkProfileArn`, returning the object itself. */
  function WithNetworkProfileArn(p: NetworkProfile, v: string): (r: NetworkProfile)
    ensures r.networkProfileArn == Tracked(v, true)
    ensures r.(networkProfileArn := p.networkProfileArn) == p
    ensures Flags(r) == Flags(p)[0 := true]
  {
    SetNetworkProfileArn(p, v)
  }

  /** `SetNetworkProfileName` (`WithNetworkProfileName` has the same effect and returns the object):
      stores the value and raises only this field's flag. */
  function SetNetworkProfileName(p: NetworkProfile, v: string): (r: NetworkProfile)
    ensures r.networkProfileName == Tracked(v, true)
    ensures r.(networkProfileName := p.networkProfileName) == p
    ensures Flags(r) == Flags(p)[1 := true]
  {
    p.(networkProfileName := Set(p.networkProfileName, v))
  }

  /** `SetDescription` (`WithDescription` has the same effect and returns the object):
      stores the value and raises only this field's flag. */
  function SetDescription(p: NetworkProfile, v: string): (r: NetworkProfile)
    ensures r.description == Tracked(v, true)
    ensures r.(description := p.description) == p
    ensures Flags(r) == Flags(p)[2 := true]
  {
    p.(description := Set(p.description, v))
  }

  /** `SetSsid` (`WithSsid` has the same effect and returns the object):
      stores the value and raises only this field's flag. */
  function SetSsid(p: NetworkProfile, v: string): (r: NetworkProfile)
    ensures r.ssid == Tracked(v, true)
    ensures r.(ssid := p.ssid) == p
    ensures Flags(r) == Flags(p)[3 := true]
  {
    p.(ssid := Set(p.ssid, v))
  }

  /** `SetSecurityType` (`WithSecurityType` has the same effect and returns the object):
      stores the value and raises only this field's flag. */
  function SetSecurityType(p: NetworkProfile, v: Opaque): (r: NetworkProfile)
    ensures r.securityType == Tracked(v, true)
    ensures r.(securityType := p.securityType) == p
    ensures Flags(r) == Flags(p)[4 := true]
  {
    p.(securityType := Set(p.securityType, v))
  }

  /** `SetEapMethod` (`WithEapMethod` has the same effect and returns the object):
      stores the value and raises only this field's flag. */
  function SetEapMethod(p: NetworkProfile, v: Opaque): (r: NetworkProfile)
    ensures r.eapMethod == Tracked(v, true)
    ensures r.(eapMethod := p.eapMethod) == p
    ensures Flags(r) == Flags(p)[5 := true]
  {
    p.(eapMethod := Set(p.eapMethod, v))
  }

  /** `SetCurrentPassword` (`WithCurrentPassword` has the same effect and returns the object):
      stores the value and raises only this field's flag. */
  function SetCurrentPassword(p: NetworkProfile, v: string): (r: NetworkProfile)
    ensures r.currentPassword == Tracked(v, true)
    ensures r.(currentPassword := p.currentPassword) == p
    ensures Flags(r) == Flags(p)[6 := true]
  {
    p.(currentPassword := Set(p.currentPassword, v))
  }

  /** `SetNextPassword` (`WithNextPassword` has the same effect and returns the object):
      stores the value and raises only this field's flag. */
  function SetNextPassword(p: NetworkProfile, v: string): (r: NetworkProfile)
    ensures r.nextPassword == Tracked(v, true)
    ensures r.(nextPassword := p.nextPassword) == p
    ensures Flags(r) == Flags(p)[7 := true]
  {
    p.(nextPassword := Set(p.nextPassword, v))
  }

  /** `SetCertificateAuthorityArn` (`WithCertificateAuthorityArn` has the same effect and returns the object):
      stores the value and raises only this field's flag. */
  function SetCertificateAuthorityArn(p: NetworkProfile, v: string): (r: NetworkProfile)
    ensures r.certificateAuthorityArn == Tracked(v, true)
    ensures r.(certificateAuthorityArn := p.certificateAuthorityArn) == p
    ensures Flags(r) == Flags(p)[8 := true]
  {
    p.(certificateAuthorityArn := Set(p.certificateAuthorityArn, v))
  }

  /** `SetTrustAnchors` (`WithTrustAnchors` has the same effect and returns the object):
      stores the value and raises only this field's flag. */
  function SetTrustAnchors(p: NetworkProfile, v: seq<string>): (r: NetworkProfile)
    ensures r.trustAnchors == Tracked(v, true)
    ensures r.(trustAnchors := p.trustAnchors) == p
    ensures Flags(r) == Flags(p)[9 := true]
  {
    p.(trustAnchors := Set(p.trustAnchors, v))
  }

  /** `AddTrustAnchors`: `push_back` at the end of the list; the flag is raised. */
  function AddTrustAnchors(p: NetworkProfile, x: string): (r: NetworkProfile)
    ensures r.trustAnchors.value == p.trustAnchors.value + [x] && r.trustAnchors.hasBeenSet
    ensures r.(trustAnchors := p.trustAnchors) == p
    ensures Flags(r) == Flags(p)[9 := true]
  {
    p.(trustAnchors := Add(p.trustAnchors, x))
  }

  /** `AddTrustAnchors` applied to each element of xs, in order. */
  function AddTrustAnchorsEach(p: NetworkProfile, xs: seq<string>): NetworkProfile
    decreases |xs|
  {
    if xs == [] then p else AddTrustAnchorsEach(AddTrustAnchors(p, xs[0]), xs[1..])
  }

  /** Adding elements one at a time is the same as setting the list
      extended by all of them: order is kept, nothing is dropped or
      deduplicated, and no other field moves. */
  lemma {:induction false} AddTrustAnchorsEachAppends(p: NetworkProfile, xs: seq<string>)
    ensures AddTrustAnchorsEach(p, xs) == p.(trustAnchors := AddAll(p.trustAnchors, xs))
    ensures xs != [] ==> AddTrustAnchorsEach(p, xs) == SetTrustAnchors(p, p.trustAnchors.value + xs)
    decreases |xs|
  {
    if xs != [] {
      AddTrustAnchorsEachAppends(AddTrustAnchors(p, xs[0]), xs[1..]);
    }
    AddAllAppends(p.trustAnchors, xs);
  }

  /** Presence is recorded by the setter, not inferred from the contents: an
      empty list that was set is present, and the adds that follow append to
      it from the start. */
  lemma EmptyTrustAnchorsArePresent(p: NetworkProfile, xs: seq<string>)
    ensures SetTrustAnchors(p, []).trustAnchors == Tracked([], true)
    ensures AddTrustAnchorsEach(SetTrustAnchors(p, []), xs).trustAnchors == Tracked(xs, true)
  {
    AddTrustAnchorsEachAppends(SetTrustAnchors(p, []), xs);
    assert [] + xs == xs;
  }
}
