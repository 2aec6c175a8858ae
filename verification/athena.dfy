/**
 Athena's `ResultConfiguration`: three presence-tracked fields, read from a
 JSON object key by key and written back only for the fields whose flag is
 set.
 */
module Athena {
  import opened Presence
  import opened Json

  const OutputLocationKey := "OutputLocation"
  const EncryptionConfigurationKey := "EncryptionConfiguration"
  const ExpectedBucketOwnerKey := "ExpectedBucketOwner"

  /** The nested `EncryptionConfiguration` model, carried as the object its
      own writer would produce. Assigning a JSON view to it merges: members
      present in the view are assigned, the others are kept. */
  datatype EncryptionConfiguration = EncryptionConfiguration(json: Object)

  datatype ResultConfiguration = ResultConfiguration(
    outputLocation: Tracked<string>,
    encryptionConfiguration: Tracked<EncryptionConfiguration>,
    expectedBucketOwner: Tracked<string>)

  /** The default constructor: empty values, every flag false. */
  function Default(): (x: ResultConfiguration)
    ensures !x.outputLocation.hasBeenSet && !x.encryptionConfiguration.hasBeenSet
    ensures !x.expectedBucketOwner.hasBeenSet
  {
    ResultConfiguration(Unset(""), Unset(EncryptionConfiguration(map[])), Unset(""))
  }

  /** Reads one string-valued key: assigned and flagged when it exists,
      otherwise left exactly as it was. */
  function ReadString(f: Tracked<string>, p: Payload, key: string): Tracked<string>
  {
    if ValueExists(p, key) then Set(f, GetString(p, key)) else f
  }

  /** `operator=(JsonView)`. A field is assigned, and its flag raised, exactly
      when its key exists; a missing key neither clears the value nor lowers
      the flag. The nested configuration is assigned through its own
      `operator=(JsonView)`, which merges the incoming members into it. */
  function Assign(x: ResultConfiguration, p: Payload): (y: ResultConfiguration)
    ensures ValueExists(p, OutputLocationKey) ==> y.outputLocation == Tracked(GetString(p, OutputLocationKey), true)
    ensures !ValueExists(p, OutputLocationKey) ==> y.outputLocation == x.outputLocation
    ensures ValueExists(p, EncryptionConfigurationKey) ==>
      y.encryptionConfiguration ==
        Tracked(EncryptionConfiguration(Merge(x.encryptionConfiguration.value.json, GetObject(p, EncryptionConfigurationKey))), true)
    ensures !ValueExists(p, EncryptionConfigurationKey) ==> y.encryptionConfiguration == x.encryptionConfiguration
    ensures ValueExists(p, ExpectedBucketOwnerKey) ==> y.expectedBucketOwner == Tracked(GetString(p, ExpectedBucketOwnerKey), true)
    ensures !ValueExists(p, ExpectedBucketOwnerKey) ==> y.expectedBucketOwner == x.expectedBucketOwner
  {
    var enc := if ValueExists(p, EncryptionConfigurationKey)
      then Set(x.encryptionConfiguration,
               EncryptionConfiguration(Merge(x.encryptionConfiguration.value.json, GetObject(p, EncryptionConfigurationKey))))
      else x.encryptionConfiguration;
    ResultConfiguration(
      ReadString(x.outputLocation, p, OutputLocationKey),
      enc,
      ReadString(x.expectedBucketOwner, p, ExpectedBucketOwnerKey))
  }

  /** The JsonView constructor: all flags false, then `operator=`. Each field
      holds what was read under its key when the key exists, and its default
      value otherwise. */
  function FromJson(p: Payload): (x: ResultConfiguration)
    ensures x.outputLocation.hasBeenSet == ValueExists(p, OutputLocationKey)
    ensures x.encryptionConfiguration.hasBeenSet == ValueExists(p, EncryptionConfigurationKey)
    ensures x.expectedBucketOwner.hasBeenSet == ValueExists(p, ExpectedBucketOwnerKey)
    ensures x.outputLocation.value == (if ValueExists(p, OutputLocationKey) then GetString(p, OutputLocationKey) else "")
    ensures x.encryptionConfiguration.value ==
      (if ValueExists(p, EncryptionConfigurationKey)
       then EncryptionConfiguration(Present(GetObject(p, EncryptionConfigurationKey)))
       else EncryptionConfiguration(map[]))
    ensures x.expectedBucketOwner.value ==
      (if ValueExists(p, ExpectedBucketOwnerKey) then GetString(p, ExpectedBucketOwnerKey) else "")
  {
    MergeIntoEmpty(GetObject(p, EncryptionConfigurationKey));
    Assign(Default(), p)
  }

  /** `Jsonize`: each key is emitted if and only if its flag is set, and no
      other key is emitted. */
  function Jsonize(x: ResultConfiguration): (p: Payload)
    ensures OutputLocationKey in p <==> x.outputLocation.hasBeenSet
    ensures EncryptionConfigurationKey in p <==> x.encryptionConfiguration.hasBeenSet
    ensures ExpectedBucketOwnerKey in p <==> x.expectedBucketOwner.hasBeenSet
    ensures p.Keys <= {OutputLocationKey, EncryptionConfigurationKey, ExpectedBucketOwnerKey}
    ensures forall k :: k in p ==> !p[k].JNull?
  {
    var p0: Payload := map[];
    var p1 := if x.outputLocation.hasBeenSet then p0[OutputLocationKey := JString(x.outputLocation.value)] else p0;
    var p2 := if x.encryptionConfiguration.hasBeenSet
      then p1[EncryptionConfigurationKey := JObject(x.encryptionConfiguration.value.json)] else p1;
    if x.expectedBucketOwner.hasBeenSet then p2[ExpectedBucketOwnerKey := JString(x.expectedBucketOwner.value)] else p2
  }

  /** A default-constructed configuration serialises to the empty object. */
  lemma JsonizeDefaultIsEmpty()
    ensures Jsonize(Default()) == map[]
  {
  }

  /** Reading back what was written reproduces the object exactly: every set
      field is re-assigned its own value, every unset field is left alone. */
  lemma AssignJsonizeIsIdentity(x: ResultConfiguration)
    ensures Assign(x, Jsonize(x)) == x
  {
    var p := Jsonize(x);
    if x.outputLocation.hasBeenSet {
      assert p[OutputLocationKey] == JString(x.outputLocation.value);
    }
    if x.encryptionConfiguration.hasBeenSet {
      assert p[EncryptionConfigurationKey] == JObject(x.encryptionConfiguration.value.json);
      MergeOwnMembers(x.encryptionConfiguration.value.json);
    }
    if x.expectedBucketOwner.hasBeenSet {
      assert p[ExpectedBucketOwnerKey] == JString(x.expectedBucketOwner.value);
    }
  }

  /** Constructing from `Jsonize(x)` reproduces x's flags and the value of
      every set field; unset fields come back default-valued. */
  lemma FromJsonJsonizeRoundTrip(x: ResultConfiguration)
    ensures FromJson(Jsonize(x)).outputLocation ==
      (if x.outputLocation.hasBeenSet then x.outputLocation else Default().outputLocation)
    ensures FromJson(Jsonize(x)).encryptionConfiguration ==
      (if x.encryptionConfiguration.hasBeenSet then x.encryptionConfiguration else Default().encryptionConfiguration)
    ensures FromJson(Jsonize(x)).expectedBucketOwner ==
      (if x.expectedBucketOwner.hasBeenSet then x.expectedBucketOwner else Default().expectedBucketOwner)
  {
    var p := Jsonize(x);
    if x.outputLocation.hasBeenSet {
      assert p[OutputLocationKey] == JString(x.outputLocation.value);
    }
    if x.encryptionConfiguration.hasBeenSet {
      assert p[EncryptionConfigurationKey] == JObject(x.encryptionConfiguration.value.json);
      MergeOwnMembers(x.encryptionConfiguration.value.json);
    }
    if x.expectedBucketOwner.hasBeenSet {
      assert p[ExpectedBucketOwnerKey] == JString(x.expectedBucketOwner.value);
    }
  }

  /** The value under a key is of the kind the reader expects for it. */
  predicate WellKinded(p: Payload)
  {
    (OutputLocationKey in p ==> p[OutputLocationKey].JString?)
    && (EncryptionConfigurationKey in p ==> p[EncryptionConfigurationKey].JObject?)
    && (ExpectedBucketOwnerKey in p ==> p[ExpectedBucketOwnerKey].JString?)
  }

  /** The part of a payload the reader keeps: its three keys, with the null
      members of the nested object dropped. */
  function Known(p: Payload): Payload
  {
    map k | k in p && k in {OutputLocationKey, EncryptionConfigurationKey, ExpectedBucketOwnerKey} ::
      if k == EncryptionConfigurationKey && p[k].JObject? then JObject(Present(p[k].fields)) else p[k]
  }

  /** The other direction: serialising what was read from a well-kinded
      payload gives back exactly its three known keys; anything else in the
      payload, and any null member of the nested object, is dropped. */
  lemma JsonizeFromJsonRoundTrip(p: Payload)
    requires WellKinded(p)
    ensures Jsonize(FromJson(p)) == Known(p)
  {
    var q := Jsonize(FromJson(p));
    var k := Known(p);
    assert q.Keys == k.Keys;
    forall key | key in q
      ensures q[key] == k[key]
    {
    }
  }

  /** Re-applying the same payload changes nothing further. */
  lemma AssignIdempotent(x: ResultConfiguration, p: Payload)
    ensures Assign(Assign(x, p), p) == Assign(x, p)
  {
    MergeIdempotent(x.encryptionConfiguration.value.json, GetObject(p, EncryptionConfigurationKey));
  }

  /** Extra keys in the payload are ignored. */
  lemma AssignReadsOnlyKnownKeys(x: ResultConfiguration, p: Payload, q: Payload)
    requires AgreeOn(p, q, OutputLocationKey) && AgreeOn(p, q, EncryptionConfigurationKey)
    requires AgreeOn(p, q, ExpectedBucketOwnerKey)
    ensures Assign(x, p) == Assign(x, q)
  {
    AccessorsReadOnlyTheirKey(p, q, OutputLocationKey);
    AccessorsReadOnlyTheirKey(p, q, EncryptionConfigurationKey);
    AccessorsReadOnlyTheirKey(p, q, ExpectedBucketOwnerKey);
  }
}
