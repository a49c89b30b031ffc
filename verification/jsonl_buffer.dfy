/** `JsonLSerializedBuffer`: the JSON-Lines record buffer. It writes each
    normalised record as one line of JSON text through a print writer with
    automatic flushing, and its factory picks the compression and flattening
    flags from an optional format configuration. */
module JsonLBuffer {
  import opened JsonValues
  import opened LineFraming
  import opened RecordNormalizer

  datatype Option<T> = None | Some(value: T)

  /** The two compression settings of the format configuration. */
  datatype CompressionType = NoCompression | Gzip

  /** The two flattening settings of the format configuration. */
  datatype Flattening = NoFlattening | RootLevelFlattening

  /** The JSON-Lines format configuration the factory reads. Either setting
      may be absent (a Java `null`), which the factory's `!=` comparisons
      treat as different from "no compression" and "no flattening". */
  datatype FormatConfig = FormatConfig(compressionType: Option<CompressionType>, flatteningType: Option<Flattening>)

  /** The flags a new buffer is built with. */
  datatype BufferFlags = BufferFlags(gzipCompression: bool, flattenData: bool)

  /** Life of the buffer's print writer: none yet, open, closed. */
  datatype WriterState = Unopened | Open | Closed

  /** Flag selection of `createBufferFunction`: a missing configuration means
      the default compression type and no flattening; otherwise the
      configuration's own settings decide, an absent setting switching its
      flag on. */
  function SelectFlags(config: Option<FormatConfig>, defaultCompression: CompressionType)
    : (flags: BufferFlags)
    ensures config.None? ==> !flags.flattenData && (flags.gzipCompression <==> defaultCompression == Gzip)
    ensures config.Some? ==>
      (flags.gzipCompression <==> config.value.compressionType.None? || config.value.compressionType == Some(Gzip))
    ensures config.Some? ==>
      (flags.flattenData <==> config.value.flatteningType.None? || config.value.flatteningType == Some(RootLevelFlattening))
  {
    var compressionType := if config.None? then Some(defaultCompression) else config.value.compressionType;
    var flattening := if config.None? then Some(NoFlattening) else config.value.flatteningType;
    assert compressionType.Some? ==> compressionType.value.NoCompression? || compressionType.value.Gzip?;
    assert flattening.Some? ==> flattening.value.NoFlattening? || flattening.value.RootLevelFlattening?;
    BufferFlags(compressionType != Some(NoCompression), flattening != Some(NoFlattening))
  }

  class JsonLSerializedBuffer {
    const gzipCompression: bool
    const flattenData: bool
    /** The JSON serializer used for nested values and for whole lines. */
    const serialize: Json -> string

    var state: WriterState
    /** The characters the print writer has delivered to the output stream
        (before their UTF-8 encoding). */
    var written: string
    /** The record lines written so far, in order, without terminators. */
    ghost var Lines: seq<string>

    ghost predicate Valid()
      reads this
    {
      && SingleLine(serialize)
      && NoNewlines(Lines)
      && written == JoinLines(Lines)
    }

    constructor (gzipCompression: bool, flattenData: bool, serialize: Json -> string)
      requires SingleLine(serialize)
      ensures Valid()
      ensures this.gzipCompression == gzipCompression && this.flattenData == flattenData
      ensures this.serialize == serialize
      ensures state == Unopened && written == [] && Lines == []
    {
      this.gzipCompression := gzipCompression;
      this.flattenData := flattenData;
      this.serialize := serialize;
      state := Unopened;
      written := [];
      Lines := [];
    }

    /** `initWriter`: open the print writer over the output stream. */
    method InitWriter()
      requires Valid() && state == Unopened
      modifies this`state
      ensures Valid() && state == Open
      ensures written == old(written) && Lines == old(Lines)
    {
      state := Open;
    }

    /** `writeRecord`: normalise `rec` with `id` as its record id and print it
        as one line; the writer flushes it to the stream at once. */
    method WriteRecord(rec: Record, id: string)
      requires Valid() && state == Open
      modifies this`written, this`Lines
      ensures Valid() && state == Open
      ensures Lines == old(Lines) + [serialize(JObj(Normalize(rec, id, flattenData, serialize)))]
      ensures written == old(written) + serialize(JObj(Normalize(rec, id, flattenData, serialize))) + "\n"
    {
      var json: map<string, Json> := map[];
      json := json[IdKey := JStr(id)];
      json := json[EmittedAtKey := JNum(rec.emittedAt)];
      var updatedData := TransformData(DataFields(rec.data), serialize);
      if flattenData {
        json := json + updatedData;
      } else {
        json := json[DataKey := JObj(updatedData)];
      }
      assert json == Normalize(rec, id, flattenData, serialize);
      var line := serialize(JObj(json));
      JoinLinesSnoc(Lines, line);
      written := written + line + "\n";
      Lines := Lines + [line];
    }

    /** `flushWriter`: every line was already flushed when it was printed. */
    method FlushWriter()
      requires Valid() && state != Unopened
      ensures Valid() && state == old(state)
      ensures written == old(written) && Lines == old(Lines)
    {
    }

    /** `closeWriter`: close the print writer; closing again does nothing. */
    method CloseWriter()
      requires Valid() && state != Unopened
      modifies this`state
      ensures Valid() && state == Closed
      ensures written == old(written) && Lines == old(Lines)
    {
      state := Closed;
    }

    /** A line reader gets back exactly the lines written, in order, and
        there is one line terminator per record written. */
    lemma ReadBack()
      requires Valid()
      ensures SplitLines(written) == Lines
      ensures CountNewlines(written) == |Lines|
    {
      SplitJoinLines(Lines);
      CountNewlinesJoin(Lines);
    }
  }

  /** The buffer `createBufferFunction` builds for a stream. */
  method CreateBuffer(config: Option<FormatConfig>, defaultCompression: CompressionType,
                      serialize: Json -> string)
    returns (buffer: JsonLSerializedBuffer)
    requires SingleLine(serialize)
    ensures fresh(buffer) && buffer.Valid() && buffer.state == Unopened && buffer.Lines == []
    ensures BufferFlags(buffer.gzipCompression, buffer.flattenData) == SelectFlags(config, defaultCompression)
    ensures buffer.serialize == serialize
  {
    var flags := SelectFlags(config, defaultCompression);
    buffer := new JsonLSerializedBuffer(flags.gzipCompression, flags.flattenData, serialize);
  }
}
