/**
 Certificate Manager `DomainValidation`: six presence-tracked fields, one a
 list of e-mail addresses with an adder. `DomainStatus`, `ResourceRecord`
 and `ValidationMethod` are not part of this model (`Opaque`).
 */
module ACM {
  import opened Presence

  datatype DomainValidation = DomainValidation(
    domainName: Tracked<string>,
    validationEmails: Tracked<seq<string>>,
    validationDomain: Tracked<string>,
    validationStatus: Tracked<Opaque>,
    resourceRecord: Tracked<Opaque>,
    validationMethod: Tracked<Opaque>)

  /** The HasBeenSet flags, in declaration order. */
  function Flags(p: DomainValidation): seq<bool>
  {
    [ p.domainName.hasBeenSet
    , p.validationEmails.hasBeenSet
    , p.validationDomain.hasBeenSet
    , p.validationStatus.hasBeenSet
    , p.resourceRecord.hasBeenSet
    , p.validationMethod.hasBeenSet ]
  }

  /** Default construction. The constructor body is not part of this model, so
      the initial values are a parameter; the member initialisers lower every
      flag. */
  function Default(initial: DomainValidation): (p: DomainValidation)
    ensures true !in Flags(p)
    ensures p.domainName.value == initial.domainName.value
         && p.validationEmails.value == initial.validationEmails.value
         && p.validationDomain.value == initial.validationDomain.value
         && p.validationStatus.value == initial.validationStatus.value
         && p.resourceRecord.value == initial.resourceRecord.value
         && p.validationMethod.value == initial.validationMethod.value
  {
    DomainValidation(
      Unset(initial.domainName.value),
      Unset(initial.validationEmails.value),
      Unset(initial.validationDomain.value),
      Unset(initial.validationStatus.value),
      Unset(initial.resourceRecord.value),
      Unset(initial.validationMethod.value))
  }

  /** `SetDomainName` (`WithDomainName` has the same effect and returns the object):
      stores the value and raises only this field's flag. */
  function SetDomainName(p: DomainValidation, v: string): (r: DomainValidation)
    ensures r.domainName == Tracked(v, true)
    ensures r.(domainName := p.domainName) == p
    ensures Flags(r) == Flags(p)[0 := true]
  {
    p.(domainName := Set(p.domainName, v))
  }

  /** `WithDomainName`: the effect of `SetDomainName`, returning the object itself. */
  function WithDomainName(p: DomainValidation, v: string): (r: DomainValidation)
    ensures r.domainName == Tracked(v, true)
    ensures r.(domainName := p.domainName) == p
    ensures Flags(r) == Flags(p)[0 := true]
  {
    SetDomainName(p, v)
  }

  /** `SetValidationEmails` (`WithValidationEmails` has the same effect and returns the object):
      stores the value and raises only this field's flag. */
  function SetValidationEmails(p: DomainValidation, v: seq<string>): (r: DomainValidation)
    ensures r.validationEmails == Tracked(v, true)
    ensures r.(validationEmails := p.validationEmails) == p
    ensures Flags(r) == Flags(p)[1 := true]
  {
    p.(validationEmails := Set(p.validationEmails, v))
  }

  /** `AddValidationEmails`: `push_back` at the end of the list; the flag is raised. */
  function AddValidationEmails(p: DomainValidation, x: string): (r: DomainValidation)
    ensures r.validationEmails.value == p.validationEmails.value + [x] && r.validationEmails.hasBeenSet
    ensures r.(validationEmails := p.validationEmails) == p
    ensures Flags(r) == Flags(p)[1 := true]
  {
    p.(validationEmails := Add(p.validationEmails, x))
  }

  /** `AddValidationEmails` applied to each element of xs, in order. */
  function AddValidationEmailsEach(p: DomainValidation, xs: seq<string>): DomainValidation
    decreases |xs|
  {
    if xs == [] then p else AddValidationEmailsEach(AddValidationEmails(p, xs[0]), xs[1..])
  }

  /** Adding elements one at a time is the same as setting the list
      extended by all of them: order is kept, nothing is dropped or
      deduplicated, and no other field moves. */
  lemma {:induction false} AddValidationEmailsEachAppends(p: DomainValidation, xs: seq<string>)
    ensures AddValidationEmailsEach(p, xs) == p.(validationEmails := AddAll(p.validationEmails, xs))
    ensures xs != [] ==> AddValidationEmailsEach(p, xs) == SetValidationEmails(p, p.validationEmails.value + xs)
    decreases |xs|
  {
    if xs != [] {
      AddValidationEmailsEachAppends(AddValidationEmails(p, xs[0]), xs[1..]);
    }
    AddAllAppends(p.validationEmails, xs);
  }

  /** `SetValidationDomain` (`WithValidationDomain` has the same effect and returns the object):
      stores the value and raises only this field's flag. */
  function SetValidationDomain(p: DomainValidation, v: string): (r: DomainValidation)
    ensures r.validationDomain == Tracked(v, true)
    ensures r.(validationDomain := p.validationDomain) == p
    ensures Flags(r) == Flags(p)[2 := true]
  {
    p.(validationDomain := Set(p.validationDomain, v))
  }

  /** `SetValidationStatus` (`WithValidationStatus` has the same effect and returns the object):
      stores the value and raises only this field's flag. */
  function SetValidationStatus(p: DomainValidation, v: Opaque): (r: DomainValidation)
    ensures r.validationStatus == Tracked(v, true)
    ensures r.(validationStatus := p.validationStatus) == p
    ensures Flags(r) == Flags(p)[3 := true]
  {
    p.(validationStatus := Set(p.validationStatus, v))
  }

  /** `SetResourceRecord` (`WithResourceRecord` has the same effect and returns the object):
      stores the value and raises only this field's flag. */
  function SetResourceRecord(p: DomainValidation, v: Opaque): (r: DomainValidation)
    ensures r.resourceRecord == Tracked(v, true)
    ensures r.(resourceRecord := p.resourceRecord) == p
    ensures Flags(r) == Flags(p)[4 := true]
  {
    p.(resourceRecord := Set(p.resourceRecord, v))
  }

  /** `SetValidationMethod` (`WithValidationMethod` has the same effect and returns the object):
      stores the value and raises only this field's flag. */
  function SetValidationMethod(p: DomainValidation, v: Opaque): (r: DomainValidation)
    ensures r.validationMethod == Tracked(v, true)
    ensures r.(validationMethod := p.validationMethod) == p
    ensures Flags(r) == Flags(p)[5 := true]
  {
    p.(validationMethod := Set(p.validationMethod, v))
  }

  /** `SetValidationEmails` replaces the whole list. */
  lemma SetValidationEmailsDiscardsAdded(p: DomainValidation, e: string, es: seq<string>)
    ensures SetValidationEmails(AddValidationEmails(p, e), es) == SetValidationEmails(p, es)
  {
  }
}
