/**
  Serialization of durable records: fields of a schema, unknown fields of a newer writer kept
  aside and written back, extension fields omitted while they hold their default. The JSON
  text encoding is a pair of parameters.
*/
module Payloads {
  import opened Wrappers
  import opened Text
  import opened StateBlock

  /** A core field is always written; a field without default must be present on load. */
  datatype Field<V> = Field(core: bool, default: Option<V>)

  type Schema<V> = map<string, Field<V>>

  /** The fields of the schema and everything else found in a payload. */
  datatype Record<V> = Record(values: map<string, V>, extras: map<string, V>)

  predicate Omitted<V(==)>(schema: Schema<V>, name: string, value: V) {
    name in schema && !schema[name].core && schema[name].default == Some(value)
  }

  /** Refused when an extra would override a field. */
  function ToPayload<V(==)>(schema: Schema<V>, r: Record<V>): Option<map<string, V>> {
    if exists k | k in r.extras :: k in schema then None
    else Some((map k | k in r.values && !Omitted(schema, k, r.values[k]) :: r.values[k]) + r.extras)
  }

  function FieldValue<V>(schema: Schema<V>, payload: map<string, V>, name: string): Option<V>
    requires name in schema
  {
    if name in payload then Some(payload[name]) else schema[name].default
  }

  /** Fails when a field without default is missing. */
  function FromPayload<V>(schema: Schema<V>, payload: map<string, V>): Option<Record<V>> {
    if exists k | k in schema :: FieldValue(schema, payload, k).None? then None
    else Some(Record(map k | k in schema :: FieldValue(schema, payload, k).value,
                     map k | k in payload && k !in schema :: payload[k]))
  }

  /** A record of the schema is written unless an extra collides, and reading it back gives it again. */
  lemma RecordRoundTrip<V>(schema: Schema<V>, r: Record<V>)
    requires r.values.Keys == schema.Keys
    ensures ToPayload(schema, r).Some? <==> r.extras.Keys !! schema.Keys
    ensures ToPayload(schema, r).Some? ==> FromPayload(schema, ToPayload(schema, r).value) == Some(r)
  {
    if ToPayload(schema, r).Some? {
      var p := ToPayload(schema, r).value;
      forall k | k in schema
        ensures FieldValue(schema, p, k) == Some(r.values[k])
      {
      }
      var read := FromPayload(schema, p).value;
      assert read.values == r.values;
      assert read.extras == r.extras;
    }
  }

  /** Whatever a newer writer stored is read and written back, up to defaults. */
  lemma PayloadRoundTrip<V>(schema: Schema<V>, payload: map<string, V>)
    requires FromPayload(schema, payload).Some?
    ensures var r := FromPayload(schema, payload).value;
            && ToPayload(schema, r).Some?
            && (forall k | k in payload ::
                  if Omitted(schema, k, payload[k]) then k !in ToPayload(schema, r).value
                  else k in ToPayload(schema, r).value && ToPayload(schema, r).value[k] == payload[k])
            && (forall k | k in ToPayload(schema, r).value && k !in payload ::
                  k in schema && schema[k].core && schema[k].default == Some(ToPayload(schema, r).value[k]))
  {
    var r := FromPayload(schema, payload).value;
    forall k | k in payload && k in schema
      ensures FieldValue(schema, payload, k) == Some(payload[k]) && r.values[k] == payload[k]
    {
    }
  }

  // ----- The record in the comment -----------------------------------------

  /** One-line text without surrounding blanks that decodes to what was encoded. */
  ghost predicate Codec<V(!new)>(dumps: map<string, V> -> string, loads: string -> Option<map<string, V>>) {
    forall p :: '\n' !in dumps(p) && Strip(dumps(p)) == dumps(p) && loads(dumps(p)) == Some(p)
  }

  function Loaded<V>(schema: Schema<V>, loads: string -> Option<map<string, V>>, o: string, c: string, body: string): Option<Record<V>> {
    var text := PayloadOf(o, c, body);
    if text.None? then None
    else
      var p := loads(Strip(text.value));
      if p.None? then None else FromPayload(schema, p.value)
  }

  /** Loading what was saved returns it, whatever text the record or the comment contains. */
  lemma SavedIsLoaded<V(!new)>(
    schema: Schema<V>, dumps: map<string, V> -> string, loads: string -> Option<map<string, V>>,
    o: string, c: string, body: string, r: Record<V>)
    requires Delimiters(o, c) && Codec(dumps, loads) && r.values.Keys == schema.Keys && ToPayload(schema, r).Some?
    ensures Loaded(schema, loads, o, c, Embed(o, c, dumps(ToPayload(schema, r).value))) == Some(r)
    ensures FindBlock(o, c, body).Some? ==>
              Loaded(schema, loads, o, c, Replaced(o, c, body, dumps(ToPayload(schema, r).value))) == Some(r)
  {
    var p := ToPayload(schema, r).value;
    RecordRoundTrip(schema, r);
    CreateRoundTrip(o, c, dumps(p));
    if FindBlock(o, c, body).Some? {
      ReplaceRoundTrip(o, c, body, dumps(p));
    }
  }
}
