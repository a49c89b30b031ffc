# JSON-Lines serialized buffer

A Dafny model of the JSON-Lines record buffer of the Airbyte CDK S3 destination,
`JsonLSerializedBuffer`. The buffer turns each incoming record into one JSON object
and prints that object as one line of text. The object holds:

- a fresh record id (`_airbyte_ab_id`);
- the emission time (`_airbyte_emitted_at`);
- the record's data. Every object- or array-valued top-level data field is replaced
  by its JSON text, as a string.

The data fields are either nested under `_airbyte_data` or, in flattening mode,
merged into the top level. A data field with a reserved name then overwrites that
reserved column. The buffer's factory derives the compression and flattening flags
from an optional format configuration.

Files:

- `json_values.dfy` (module `JsonValues`): the JSON value tree. It also defines what
  it means for a field map to hold no containers, and for a serializer to emit
  single-line text.
- `line_framing.dfy` (module `LineFraming`): the text produced by printing lines,
  and what a line-oriented reader reads back from it.
- `record_normalizer.dfy` (module `RecordNormalizer`): the record normalisation
  done by `writeRecord`, as specification functions, the field loop as a method,
  and the lemmas about both.
- `jsonl_buffer.dfy` (module `JsonLBuffer`): the buffer class with its writer
  lifecycle, the factory and its flag selection.

Inputs taken as parameters:

- The JSON serializer (`Jsons.serialize`) is a function parameter `Json -> string`.
  The buffer requires it to emit no raw line terminator. A compact writer that
  escapes control characters inside strings meets this.
- The random UUID is the `id` parameter of `WriteRecord`.
- The default compression type is a parameter of the flag selection.

## Model

| member | source | states |
|---|---|---|
| `RecordNormalizer.TransformFields` | airbyte-cdk/java/airbyte-cdk/core/src/main/java/io/airbyte/cdk/integrations/destination/s3/jsonl/JsonLSerializedBuffer.java:60-72 | the transformed data object has exactly the input's keys and holds no object or array; a scalar field (null, boolean, number, string) keeps its value; an object or array field becomes the string of its serialized text |
| `RecordNormalizer.TransformData` | airbyte-cdk/java/airbyte-cdk/core/src/main/java/io/airbyte/cdk/integrations/destination/s3/jsonl/JsonLSerializedBuffer.java:57-72 | the field-by-field loop that fills a fresh object builds exactly the transformed data object |
| `RecordNormalizer.Normalize` | airbyte-cdk/java/airbyte-cdk/core/src/main/java/io/airbyte/cdk/integrations/destination/s3/jsonl/JsonLSerializedBuffer.java:52-54 | the output object always has the id and emitted-at columns, in both modes |
| `RecordNormalizer.TransformIdempotent` | airbyte-cdk/java/airbyte-cdk/core/src/main/java/io/airbyte/cdk/integrations/destination/s3/jsonl/JsonLSerializedBuffer.java:60-72 | transforming an already transformed data object returns it unchanged |
| `RecordNormalizer.FlatIsFixpoint` | airbyte-cdk/java/airbyte-cdk/core/src/main/java/io/airbyte/cdk/integrations/destination/s3/jsonl/JsonLSerializedBuffer.java:64-71 | a data object is left unchanged by the transform if and only if none of its fields is an object or array |
| `RecordNormalizer.NormalizeNested` | airbyte-cdk/java/airbyte-cdk/core/src/main/java/io/airbyte/cdk/integrations/destination/s3/jsonl/JsonLSerializedBuffer.java:52-78 | without flattening the output has exactly the id, emitted-at and data columns; they hold the supplied id, the record's emission time and the transformed data object |
| `RecordNormalizer.NormalizeFlattened` | airbyte-cdk/java/airbyte-cdk/core/src/main/java/io/airbyte/cdk/integrations/destination/s3/jsonl/JsonLSerializedBuffer.java:52-76 | with flattening the key set is {id, emitted-at} plus the data keys; every data key holds its transformed value, even a reserved name (the data field wins); a reserved column not shadowed by data keeps the id or emission time |
| `RecordNormalizer.NormalizeIsOneLevel` | airbyte-cdk/java/airbyte-cdk/core/src/main/java/io/airbyte/cdk/integrations/destination/s3/jsonl/JsonLSerializedBuffer.java:64-78 | nothing is promoted recursively: a flattened document holds only scalars, and the nested data object does too |
| `RecordNormalizer.FlattenAgreesWithNested` | airbyte-cdk/java/airbyte-cdk/core/src/main/java/io/airbyte/cdk/integrations/destination/s3/jsonl/JsonLSerializedBuffer.java:74-78 | the flattened and nested outputs of one record agree on every data field, and scalar fields equal the input's values in both |
| `RecordNormalizer.NormalizeExample` | airbyte-cdk/java/airbyte-cdk/core/src/main/java/io/airbyte/cdk/integrations/destination/s3/jsonl/JsonLSerializedBuffer.java:51-79 | for the illustrative record {"a": 1, "b": {"x": 2}} emitted at 1000, the nested output holds the id, 1000 and {"a": 1, "b": <text of {"x": 2}>} under the data column, and the flattened output holds the id, 1000, "a" and "b" at top level |
| `LineFraming.JoinLinesSnoc` | airbyte-cdk/java/airbyte-cdk/core/src/main/java/io/airbyte/cdk/integrations/destination/s3/jsonl/JsonLSerializedBuffer.java:80 | one more `println` appends the line and one terminator to the text written so far |
| `LineFraming.SplitJoinLines` | airbyte-cdk/java/airbyte-cdk/core/src/main/java/io/airbyte/cdk/integrations/destination/s3/jsonl/JsonLSerializedBuffer.java:80 | a line reader recovers exactly the printed lines, in order, when none of them holds a terminator |
| `LineFraming.CountNewlinesJoin` | airbyte-cdk/java/airbyte-cdk/core/src/main/java/io/airbyte/cdk/integrations/destination/s3/jsonl/JsonLSerializedBuffer.java:80 | printing n lines writes exactly n line terminators |
| `JsonLBuffer.SelectFlags` | airbyte-cdk/java/airbyte-cdk/core/src/main/java/io/airbyte/cdk/integrations/destination/s3/jsonl/JsonLSerializedBuffer.java:96-104 | no configuration: no flattening, and compression iff the default type is gzip; otherwise compression iff the configured type is gzip or absent (null), and flattening iff root-level flattening is configured or the setting is absent (null), as the `!=` comparisons give |
| `JsonLBuffer.CreateBuffer` | airbyte-cdk/java/airbyte-cdk/core/src/main/java/io/airbyte/cdk/integrations/destination/s3/jsonl/JsonLSerializedBuffer.java:93-107 | the factory builds a fresh, valid buffer with no writer open yet, carrying the selected flags |
| `JsonLBuffer.JsonLSerializedBuffer.constructor` | airbyte-cdk/java/airbyte-cdk/core/src/main/java/io/airbyte/cdk/integrations/destination/s3/jsonl/JsonLSerializedBuffer.java:38-43 | a new buffer records its compression and flattening flags and has written nothing |
| `JsonLBuffer.JsonLSerializedBuffer.InitWriter` | airbyte-cdk/java/airbyte-cdk/core/src/main/java/io/airbyte/cdk/integrations/destination/s3/jsonl/JsonLSerializedBuffer.java:46-48 | opening the writer changes nothing that was written |
| `JsonLBuffer.JsonLSerializedBuffer.WriteRecord` | airbyte-cdk/java/airbyte-cdk/core/src/main/java/io/airbyte/cdk/integrations/destination/s3/jsonl/JsonLSerializedBuffer.java:51-81 | each record appends exactly one line, the serialized normal form of the record, followed by one terminator; earlier lines are unchanged |
| `JsonLBuffer.JsonLSerializedBuffer.FlushWriter` | airbyte-cdk/java/airbyte-cdk/core/src/main/java/io/airbyte/cdk/integrations/destination/s3/jsonl/JsonLSerializedBuffer.java:84-86 | flushing keeps the buffer valid and changes neither the written text, the written lines nor the writer state (every line was flushed as it was printed) |
| `JsonLBuffer.JsonLSerializedBuffer.CloseWriter` | airbyte-cdk/java/airbyte-cdk/core/src/main/java/io/airbyte/cdk/integrations/destination/s3/jsonl/JsonLSerializedBuffer.java:89-91 | closing leaves the writer closed and the written text unchanged, so closing twice is the same as once |
| `JsonLBuffer.JsonLSerializedBuffer.ReadBack` | airbyte-cdk/java/airbyte-cdk/core/src/main/java/io/airbyte/cdk/integrations/destination/s3/jsonl/JsonLSerializedBuffer.java:80 | after any sequence of writes the output splits into exactly the written record lines, in input order, one terminator per record |

## Left out

- Compression: the gzip wrapping, the output stream, the buffer storage and byte counting all belong to `BaseSerializedBuffer`, which is not part of this model. The gzip flag is only recorded.
- The JSON serializer's own behaviour is not modelled: escaping, number formatting and key order. No parse/serialize round trip is proved for stringified fields. The serializer is a parameter; the only thing assumed of it is that it emits no raw line terminator.
- Converting the transformed data object to a `Map` before merging it (line 75) is taken as the identity on values.
- The UUID generator is not modelled; randomness becomes the `id` parameter.
- JSON numbers are integers; floating-point values are not modelled.
- Objects are maps, so the field order inside an object node is not modelled.
- The real values of the reserved column names and of the default compression type are not part of the model. The names are taken to be Airbyte's reserved column names `_airbyte_ab_id`, `_airbyte_emitted_at` and `_airbyte_data`; the default compression type is a parameter. The two enums are reduced to the values the code compares against: no compression vs gzip, and no flattening vs root-level flattening. An absent (null) setting inside a present configuration is modelled, and switches its flag on.
- A missing (Java `null`) emission time or data node is not modelled. A data node that is not an object has no fields to walk, so it yields an empty data object.
- The platform line separator is taken to be `\n`.
- `JsonLBuffer.JsonLSerializedBuffer.WriteRecord` requires an open writer. The base class opens the writer once before any write; a write on a closed `PrintWriter`, which silently drops its output, is not modelled. Likewise `InitWriter` requires a writer that was never opened.
- `JsonLBuffer.JsonLSerializedBuffer.FlushWriter` and `JsonLBuffer.JsonLSerializedBuffer.CloseWriter` require a writer that was opened. Before `initWriter` runs the print writer is `null`, so flushing or closing then throws a `NullPointerException`, which is not modelled.
- The output is modelled as the characters the print writer delivers, not the UTF-8 bytes it encodes them to.
- Failure of the storage factory call inside the factory (an exception from `createStorageFunction`) is not modelled.
