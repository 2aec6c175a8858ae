/**
 IoT `CreateScheduledAuditRequest`: six presence-tracked fields, two of them
 lists with adders. `AuditFrequency`, `DayOfWeek` and `Tag` are not part of
 this model (`Opaque`).
 */
module IoT {
  import opened Presence

  datatype CreateScheduledAuditRequest = CreateScheduledAuditRequest(
    frequency: Tracked<Opaque>,
    dayOfMonth: Tracked<string>,
    dayOfWeek: Tracked<Opaque>,
    targetCheckNames: Tracked<seq<string>>,
    scheduledAuditName: Tracked<string>,
    tags: Tracked<seq<Opaque>>)

  /** The HasBeenSet flags, in declaration order. */
  function Flags(p: CreateScheduledAuditRequest): seq<bool>
  {
    [ p.frequency.hasBeenSet
    , p.dayOfMonth.hasBeenSet
    , p.dayOfWeek.hasBeenSet
    , p.targetCheckNames.hasBeenSet
    , p.scheduledAuditName.hasBeenSet
    , p.tags.hasBeenSet ]
  }

  /** `GetServiceRequestName`: the operation name, whatever the request holds. */
  function GetServiceRequestName(p: CreateScheduledAuditRequest): (n: string)
    ensures n == "CreateScheduledAudit"
  {
    "CreateScheduledAudit"
  }

  /** Default construction. The constructor body is not part of this model, so
      the initial values are a parameter; the member initialisers lower every
      flag. */
  function Default(initial: CreateScheduledAuditRequest): (p: CreateScheduledAuditRequest)
    ensures true !in Flags(p)
    ensures p.frequency.value == initial.frequency.value
         && p.dayOfMonth.value == initial.dayOfMonth.value
         && p.dayOfWeek.value == initial.dayOfWeek.value
         && p.targetCheckNames.value == initial.targetCheckNames.value
         && p.scheduledAuditName.value == initial.scheduledAuditName.value
         && p.tags.value == initial.tags.value
  {
    CreateScheduledAuditRequest(
      Unset(initial.frequency.value),
      Unset(initial.dayOfMonth.value),
      Unset(initial.dayOfWeek.value),
      Unset(initial.targetCheckNames.value),
      Unset(initial.scheduledAuditName.value),
      Unset(initial.tags.value))
  }

  /** `SetFrequency` (`WithFrequency` has the same effect and returns the object):
      stores the value and raises only this field's flag. */
  function SetFrequency(p: CreateScheduledAuditRequest, v: Opaque): (r: CreateScheduledAuditRequest)
    ensures r.frequency == Tracked(v, true)
    ensures r.(frequency := p.frequency) == p
    ensures Flags(r) == Flags(p)[0 := true]
  {
    p.(frequency := Set(p.frequency, v))
  }

  /** `SetDayOfMonth` (`WithDayOfMonth` has the same effect and returns the object):
      stores the value and raises only this field's flag. */
  function SetDayOfMonth(p: CreateScheduledAuditRequest, v: string): (r: CreateScheduledAuditRequest)
    ensures r.dayOfMonth == Tracked(v, true)
    ensures r.(dayOfMonth := p.dayOfMonth) == p
    ensures Flags(r) == Flags(p)[1 := true]
  {
    p.(dayOfMonth := Set(p.dayOfMonth, v))
  }

  /** `SetDayOfWeek` (`WithDayOfWeek` has the same effect and returns the object):
      stores the value and raises only this field's flag. */
  function SetDayOfWeek(p: CreateScheduledAuditRequest, v: Opaque): (r: CreateScheduledAuditRequest)
    ensures r.dayOfWeek == Tracked(v, true)
    ensures r.(dayOfWeek := p.dayOfWeek) == p
    ensures Flags(r) == Flags(p)[2 := true]
  {
    p.(dayOfWeek := Set(p.dayOfWeek, v))
  }

  /** `SetTargetCheckNames` (`WithTargetCheckNames` has the same effect and returns the object):
      stores the value and raises only this field's flag. */
  function SetTargetCheckNames(p: CreateScheduledAuditRequest, v: seq<string>): (r: CreateScheduledAuditRequest)
    ensures r.targetCheckNames == Tracked(v, true)
    ensures r.(targetCheckNames := p.targetCheckNames) == p
    ensures Flags(r) == Flags(p)[3 := true]
  {
    p.(targetCheckNames := Set(p.targetCheckNames, v))
  }

  /** `AddTargetCheckNames`: `push_back` at the end of the list; the flag is raised. */
  function AddTargetCheckNames(p: CreateScheduledAuditRequest, x: string): (r: CreateScheduledAuditRequest)
    ensures r.targetCheckNames.value == p.targetCheckNames.value + [x] && r.targetCheckNames.hasBeenSet
    ensures r.(targetCheckNames := p.targetCheckNames) == p
    ensures Flags(r) == Flags(p)[3 := true]
  {
    p.(targetCheckNames := Add(p.targetCheckNames, x))
  }

  /** `AddTargetCheckNames` applied to each element of xs, in order. */
  function AddTargetCheckNamesEach(p: CreateScheduledAuditRequest, xs: seq<string>): CreateScheduledAuditRequest
    decreases |xs|
  {
    if xs == [] then p else AddTargetCheckNamesEach(AddTargetCheckNames(p, xs[0]), xs[1..])
  }

  /** Adding elements one at a time is the same as setting the list
      extended by all of them: order is kept, nothing is dropped or
      deduplicated, and no other field moves. */
  lemma {:induction false} AddTargetCheckNamesEachAppends(p: CreateScheduledAuditRequest, xs: seq<string>)
    ensures AddTargetCheckNamesEach(p, xs) == p.(targetCheckNames := AddAll(p.targetCheckNames, xs))
    ensures xs != [] ==> AddTargetCheckNamesEach(p, xs) == SetTargetCheckNames(p, p.targetCheckNames.value + xs)
    decreases |xs|
  {
    if xs != [] {
      AddTargetCheckNamesEachAppends(AddTargetCheckNames(p, xs[0]), xs[1..]);
    }
    AddAllAppends(p.targetCheckNames, xs);
  }

  /** `SetScheduledAuditName` (`WithScheduledAuditName` has the same effect and returns the object):
      stores the value and raises only this field's flag. */
  function SetScheduledAuditName(p: CreateScheduledAuditRequest, v: string): (r: CreateScheduledAuditRequest)
    ensures r.scheduledAuditName == Tracked(v, true)
    ensures r.(scheduledAuditName := p.scheduledAuditName) == p
    ensures Flags(r) == Flags(p)[4 := true]
  {
    p.(scheduledAuditName := Set(p.scheduledAuditName, v))
  }

  /** `SetTags` (`WithTags` has the same effect and returns the object):
      stores the value and raises only this field's flag. */
  function SetTags(p: CreateScheduledAuditRequest, v: seq<Opaque>): (r: CreateScheduledAuditRequest)
    ensures r.tags == Tracked(v, true)
    ensures r.(tags := p.tags) == p
    ensures Flags(r) == Flags(p)[5 := true]
  {
    p.(tags := Set(p.tags, v))
  }

  /** `AddTags`: `push_back` at the end of the list; the flag is raised. */
  function AddTags(p: CreateScheduledAuditRequest, x: Opaque): (r: CreateScheduledAuditRequest)
    ensures r.tags.value == p.tags.value + [x] && r.tags.hasBeenSet
    ensures r.(tags := p.tags) == p
    ensures Flags(r) == Flags(p)[5 := true]
  {
    p.(tags := Add(p.tags, x))
  }

  /** `AddTags` applied to each element of xs, in order. */
  function AddTagsEach(p: CreateScheduledAuditRequest, xs: seq<Opaque>): CreateScheduledAuditRequest
    decreases |xs|
  {
    if xs == [] then p else AddTagsEach(AddTags(p, xs[0]), xs[1..])
  }

  /** Adding elements one at a time is the same as setting the list
      extended by all of them: order is kept, nothing is dropped or
      deduplicated, and no other field moves. */
  lemma {:induction false} AddTagsEachAppends(p: CreateScheduledAuditRequest, xs: seq<Opaque>)
    ensures AddTagsEach(p, xs) == p.(tags := AddAll(p.tags, xs))
    ensures xs != [] ==> AddTagsEach(p, xs) == SetTags(p, p.tags.value + xs)
    decreases |xs|
  {
    if xs != [] {
      AddTagsEachAppends(AddTags(p, xs[0]), xs[1..]);
    }
    AddAllAppends(p.tags, xs);
  }

  /** The day of the month is stored whatever the frequency is: the documented
      dependency on a MONTHLY frequency is not checked by the setter. */
  lemma DayOfMonthIgnoresFrequency(p: CreateScheduledAuditRequest, f: Opaque, d: string)
    ensures SetDayOfMonth(SetFrequency(p, f), d).dayOfMonth == SetDayOfMonth(p, d).dayOfMonth
    ensures SetDayOfMonth(SetFrequency(p, f), d).dayOfMonth == Tracked(d, true)
    ensures SetDayOfMonth(SetFrequency(p, f), d).frequency == Tracked(f, true)
  {
  }

  /** `SetTags` replaces the whole list, discarding tags added before it. */
  lemma SetTagsDiscardsAddedTags(p: CreateScheduledAuditRequest, t: Opaque, ts: seq<Opaque>)
    ensures SetTags(AddTags(p, t), ts) == SetTags(p, ts)
  {
  }
}
