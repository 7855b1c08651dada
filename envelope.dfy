/**
 * The result envelope the actions return. The previous state is an arbitrary
 * record; each return builds the new envelope as `{...prevState, overrides}`,
 * so every field an action does not name is carried over unchanged.
 */
module Envelopes {
  import opened Validation

  /** A payload as the backend returns it; the model never looks inside. */
  datatype Json =
    | JNull
    | JBool(b: bool)
    | JNumber(n: int)
    | JString(s: string)
    | JArray(items: seq<Json>)
    | JObject(members: map<string, Json>)

  /** A field of the envelope. */
  datatype Value =
    | Null
    | Text(text: string)
    | Errors(fields: FieldErrors)  // validation errors, field by field
    | Remote(json: Json)           // a backend error or flattened backend data

  type Envelope = map<string, Value>

  const STRAPI_ERRORS: string := "strapiErrors"
  const ZOD_ERRORS: string := "zodErrors"
  const DATA: string := "data"
  const MESSAGE: string := "message"

  /** Object spread `{...prev, ...overrides}`: the overrides win, every other
      field of `prev` is kept, and no field is dropped. */
  function Spread(prev: Envelope, overrides: Envelope): (r: Envelope)
    ensures r.Keys == prev.Keys + overrides.Keys
    ensures forall k :: k in overrides ==> r[k] == overrides[k]
    ensures forall k :: k in prev && k !in overrides ==> r[k] == prev[k]
  {
    prev + overrides
  }

  /** `r` keeps field `k` of `prev` as it was (absent stays absent). */
  predicate Keeps(prev: Envelope, r: Envelope, k: string) {
    (k in r <==> k in prev) && (k in prev ==> r[k] == prev[k])
  }

  /** A field the overrides do not name is kept. */
  lemma SpreadKeeps(prev: Envelope, overrides: Envelope, k: string)
    requires k !in overrides
    ensures Keeps(prev, Spread(prev, overrides), k)
  {
  }
}
