/**
 The JSON document the model classes read and write, reduced to what the
 (de)serialisers use: an object is a finite map from key to value, and the
 accessors `ValueExists`, `GetString` and `GetObject` of the JSON view.
 */
module Json {

  datatype JsonValue =
    | JNull
    | JBool(b: bool)
    | JNumber(n: int)
    | JString(s: string)
    | JArray(items: seq<JsonValue>)
    | JObject(fields: map<string, JsonValue>)

  /** A JSON object: the payload of a response or a serialised model. */
  type Payload = map<string, JsonValue>

  /** `AmazonWebServiceResult<JsonValue>`: the parsed body of a response with
      its headers and HTTP status code. */
  datatype WebServiceResult = WebServiceResult(payload: Payload, headers: map<string, string>, responseCode: int)

  /** `ValueExists(key)`: the key is present with a non-null value. */
  predicate ValueExists(p: Payload, key: string)
  {
    key in p && !p[key].JNull?
  }

  /** `GetString(key)`: the string stored under the key, or "" when the value
      is missing or not a string. */
  function GetString(p: Payload, key: string): (s: string)
    ensures key in p && p[key].JString? ==> s == p[key].s
    ensures !(key in p && p[key].JString?) ==> s == ""
  {
    if key in p && p[key].JString? then p[key].s else ""
  }

  /** `GetObject(key)`: the object stored under the key, or the empty object
      when the value is missing or not an object. */
  function GetObject(p: Payload, key: string): (o: Payload)
    ensures key in p && p[key].JObject? ==> o == p[key].fields
    ensures !(key in p && p[key].JObject?) ==> o == map[]
  {
    if key in p && p[key].JObject? then p[key].fields else map[]
  }

  /** Two payloads that agree on whether a key exists and on its value are
      indistinguishable to every accessor for that key. */
  predicate AgreeOn(p: Payload, q: Payload, key: string)
  {
    (key in p <==> key in q) && (key in p ==> p[key] == q[key])
  }

  /** The accessors consult nothing but the value under their key. */
  lemma AccessorsReadOnlyTheirKey(p: Payload, q: Payload, key: string)
    requires AgreeOn(p, q, key)
    ensures ValueExists(p, key) == ValueExists(q, key)
    ensures GetString(p, key) == GetString(q, key)
    ensures GetObject(p, key) == GetObject(q, key)
  {
  }
  /** A JSON object with no null member, as a model's writer produces it. */
  predicate NullFree(p: Payload)
  {
    forall k :: k in p ==> !p[k].JNull?
  }

  /** The state of a nested model, carried as the null-free JSON object that
      its own writer would produce. */
  type Object = p: Payload | NullFree(p) witness map[]

  /** The members of an object that `ValueExists` reports: the non-null ones. */
  function Present(p: Payload): (q: Object)
    ensures forall k :: k in q <==> ValueExists(p, k)
    ensures forall k :: k in q ==> k in p && q[k] == p[k]
  {
    map k | k in p && !p[k].JNull? :: p[k]
  }

  /** A nested model's `operator=(JsonView)`: every member that exists in the
      incoming object is assigned, every other member keeps its prior value. */
  function Merge(prior: Object, incoming: Payload): (m: Object)
    ensures forall k :: ValueExists(incoming, k) ==> k in m && m[k] == incoming[k]
    ensures forall k :: !ValueExists(incoming, k) ==> (k in m <==> k in prior)
    ensures forall k :: !ValueExists(incoming, k) && k in prior ==> m[k] == prior[k]
  {
    prior + Present(incoming)
  }

  /** Two objects agree on every member outside the given keys. */
  ghost predicate AgreeOutside(a: Payload, b: Payload, keys: set<string>)
  {
    forall k :: k !in keys ==> (k in a <==> k in b) && (k in a ==> a[k] == b[k])
  }

  /** Merging into the empty object keeps exactly the existing members. */
  lemma MergeIntoEmpty(incoming: Payload)
    ensures Merge(map[], incoming) == Present(incoming)
  {
  }

  /** Merging an object's own members back into it changes nothing. */
  lemma MergeOwnMembers(o: Object)
    ensures Merge(o, o) == o
    ensures Present(o) == o
  {
  }

  /** Re-applying the same incoming object changes nothing further. */
  lemma MergeIdempotent(prior: Object, incoming: Payload)
    ensures Merge(Merge(prior, incoming), incoming) == Merge(prior, incoming)
  {
  }

  /** Two prior states end up equal after a merge if and only if they agreed
      on every member the incoming object does not assign. */
  lemma MergeEqualIff(a: Object, b: Object, incoming: Payload)
    ensures Merge(a, incoming) == Merge(b, incoming) <==> AgreeOutside(a, b, Present(incoming).Keys)
  {
    var keys := Present(incoming).Keys;
    if Merge(a, incoming) == Merge(b, incoming) {
      forall k | k !in keys
        ensures (k in a <==> k in b) && (k in a ==> a[k] == b[k])
      {
        assert !ValueExists(incoming, k);
      }
    }
  }
}
