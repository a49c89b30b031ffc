/** The record normalisation of `JsonLSerializedBuffer.writeRecord`: one
    input record becomes one JSON object holding a record id, the emission
    time and the record's data, whose object- and array-valued top-level
    fields are replaced by their JSON text. */
module RecordNormalizer {
  import opened JsonValues

  /** Airbyte's reserved column names, shared with the rest of the ingestion
      protocol. */
  const IdKey: string := "_airbyte_ab_id"
  const EmittedAtKey: string := "_airbyte_emitted_at"
  const DataKey: string := "_airbyte_data"

  /** An input record: its data document and its emission time. */
  datatype Record = Record(data: Json, emittedAt: int)

  /** The top-level fields walked by the normaliser. A data node that is not
      an object has no fields to walk, so it contributes none. */
  function DataFields(data: Json): map<string, Json> {
    if data.JObj? then data.fields else map[]
  }

  /** One field's new value: an object or array becomes its JSON text. */
  function TransformValue(v: Json, serialize: Json -> string): Json {
    if IsContainer(v) then JStr(serialize(v)) else v
  }

  /** The transformed data object: same keys, containers stringified,
      scalars kept with their type. */
  function TransformFields(m: map<string, Json>, serialize: Json -> string): (r: map<string, Json>)
    ensures r.Keys == m.Keys
    ensures IsFlat(r)
    ensures forall k :: k in m && !IsContainer(m[k]) ==> r[k] == m[k]
    ensures forall k :: k in m && IsContainer(m[k]) ==> r[k] == JStr(serialize(m[k]))
  {
    map k | k in m :: TransformValue(m[k], serialize)
  }

  /** The field loop of `writeRecord`: walk the data fields one at a time and
      put each one's new value into a fresh object. */
  method TransformData(data: map<string, Json>, serialize: Json -> string)
    returns (updated: map<string, Json>)
    ensures updated == TransformFields(data, serialize)
  {
    updated := map[];
    var remaining := data.Keys;
    while remaining != {}
      invariant remaining <= data.Keys
      invariant updated.Keys == data.Keys - remaining
      invariant forall k :: k in updated ==> updated[k] == TransformValue(data[k], serialize)
      decreases remaining
    {
      var name :| name in remaining;
      var value := data[name];
      if IsContainer(value) {
        updated := updated[name := JStr(serialize(value))];
      } else {
        updated := updated[name := value];
      }
      remaining := remaining - {name};
    }
  }

  /** The object `writeRecord` serializes for `rec`, with `id` standing for
      the freshly generated UUID text. In flattening mode the data fields are
      merged in last, so they win over a reserved column of the same name. */
  function Normalize(rec: Record, id: string, flatten: bool, serialize: Json -> string)
    : (doc: map<string, Json>)
    ensures IdKey in doc && EmittedAtKey in doc
  {
    var header := map[IdKey := JStr(id), EmittedAtKey := JNum(rec.emittedAt)];
    var data := TransformFields(DataFields(rec.data), serialize);
    if flatten then header + data else header[DataKey := JObj(data)]
  }

  /** Applying the transform to its own result changes nothing: it works one
      level deep and leaves no object or array behind. */
  lemma TransformIdempotent(m: map<string, Json>, serialize: Json -> string)
    ensures TransformFields(TransformFields(m, serialize), serialize) == TransformFields(m, serialize)
  {
  }

  /** The objects the transform leaves unchanged are exactly the flat ones. */
  lemma FlatIsFixpoint(m: map<string, Json>, serialize: Json -> string)
    ensures IsFlat(m) <==> TransformFields(m, serialize) == m
  {
  }

  /** Non-flattening mode: exactly the three reserved columns, the data one
      holding the transformed data object. */
  lemma NormalizeNested(rec: Record, id: string, serialize: Json -> string)
    ensures var doc := Normalize(rec, id, false, serialize);
      && doc.Keys == {IdKey, EmittedAtKey, DataKey}
      && doc[IdKey] == JStr(id)
      && doc[EmittedAtKey] == JNum(rec.emittedAt)
      && doc[DataKey] == JObj(TransformFields(DataFields(rec.data), serialize))
  {
  }

  /** Flattening mode: the reserved id and emission-time columns plus every
      data key; a data key takes its transformed value even when it is a
      reserved name, and a reserved column keeps its own value otherwise. */
  lemma NormalizeFlattened(rec: Record, id: string, serialize: Json -> string)
    ensures var doc := Normalize(rec, id, true, serialize);
      var data := DataFields(rec.data);
      && doc.Keys == {IdKey, EmittedAtKey} + data.Keys
      && (forall k :: k in data ==> doc[k] == TransformValue(data[k], serialize))
      && (IdKey !in data ==> doc[IdKey] == JStr(id))
      && (EmittedAtKey !in data ==> doc[EmittedAtKey] == JNum(rec.emittedAt))
  {
  }

  /** Flattening never nests: every top-level value of a flattened document is
      a scalar, and so is every value of the nested data object otherwise. */
  lemma NormalizeIsOneLevel(rec: Record, id: string, flatten: bool, serialize: Json -> string)
    ensures var doc := Normalize(rec, id, flatten, serialize);
      if flatten then IsFlat(doc) else doc[DataKey].JObj? && IsFlat(doc[DataKey].fields)
  {
  }

  /** Both modes carry the same value for every data field: a flattened
      field equals the nested data object's field of the same name, and a
      scalar field is the input's own value in both. */
  lemma FlattenAgreesWithNested(rec: Record, id: string, serialize: Json -> string)
    ensures var flat := Normalize(rec, id, true, serialize);
      var nested := Normalize(rec, id, false, serialize);
      var data := DataFields(rec.data);
      && nested[DataKey].JObj?
      && nested[DataKey].fields.Keys == data.Keys
      && (forall k :: k in data ==> flat[k] == nested[DataKey].fields[k])
      && (forall k :: k in data && !IsContainer(data[k]) ==> flat[k] == data[k])
  {
  }

  /** An illustrative record: data {"a": 1, "b": {"x": 2}} emitted at 1000. */
  lemma NormalizeExample(id: string, serialize: Json -> string)
    ensures var inner := JObj(map["x" := JNum(2)]);
      var rec := Record(JObj(map["a" := JNum(1), "b" := inner]), 1000);
      var data := map["a" := JNum(1), "b" := JStr(serialize(inner))];
      && Normalize(rec, id, false, serialize)
         == map[IdKey := JStr(id), EmittedAtKey := JNum(1000), DataKey := JObj(data)]
      && Normalize(rec, id, true, serialize)
         == map[IdKey := JStr(id), EmittedAtKey := JNum(1000)] + data
  {
    var inner := JObj(map["x" := JNum(2)]);
    var fields := map["a" := JNum(1), "b" := inner];
    var data := map["a" := JNum(1), "b" := JStr(serialize(inner))];
    assert TransformFields(fields, serialize) == data;
  }
}
