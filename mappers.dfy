/** A model of the GPT embedding mapper: a stream-processing stage that adds
    embedding fields to a record schema, splits each record's document text
    into segments, and annotates every segment with a vector obtained from a
    remote embedding service.

    The text splitter and the embedding service are foreign code; both are
    parameters here (`Splitter`, `Embedder`). */
module Mappers {
  import opened Wrappers

  // ---------------------------------------------------------------------
  // Values
  // ---------------------------------------------------------------------

  /** A JSON value as it appears in a record. Floating-point numbers are
      modelled as reals; Python distinguishes `int` from `float`, and so do
      `Int` and `Num`. */
  datatype Value =
    | Null
    | Bool(b: bool)
    | Int(i: int)
    | Num(x: real)
    | Str(s: string)
    | Arr(items: seq<Value>)
    | Obj(fields: map<string, Value>)

  /** A record: field name to value. */
  type Record = map<string, Value>

  /** A record message as the framework hands it over: `record` plus any
      other message keys (`type`, `stream`, `time_extracted`, ...). */
  type Message = map<string, Value>

  /** The JSON-schema type descriptors the mapper writes; anything else an
      upstream schema declares is kept as an opaque descriptor. */
  datatype TypeTag = ArrayOfNumber | ObjectType | IntegerType | Declared(descriptor: string)

  const EmbeddingsField: string := "embeddings"
  const SegmentNumberField: string := "segment_number"
  const RecordKey: string := "record"
  const ChunkSizeKey: string := "chunk_size"
  const ChunkOverlapKey: string := "chunk_overlap"
  const DefaultChunkSize: int := 1000
  const DefaultChunkOverlap: int := 200
  const ApiKeyEnvironmentVariable: string := "OPENAI_API_KEY"
  const EmbeddingModel: string := "text-embedding-ada-002"

  /** The settings the mapper reads. `openaiApiKey` is `None` both when the
      setting is missing and when it is null; `splitDocuments` is `None` when
      the setting is missing (which means "split"). The `splitter_config`
      setting is state of the mapper (see `EmbeddingMapper`), because
      splitting writes into it. */
  datatype Config = Config(
    textProperty: string,
    metadataProperty: string,
    openaiApiKey: Option<string>,
    splitDocuments: Option<bool>)

  /** Errors the mapper raises or lets through. */
  datatype Failure =
    | ConfigValidationError
    | KeyError(key: string)
    // a string method applied to a field that does not hold a string
    | AttributeError
    // raised by the text splitter, propagated unchanged
    | SplitterError(message: string)
    // the sync-aborting error that a rate limit is translated into
    | AbortedSyncFailed(cause: string)
    // any other failure of the embedding service, propagated unchanged
    | ApiError(message: string)

  // ---------------------------------------------------------------------
  // Schema rewrite
  // ---------------------------------------------------------------------

  /** The schema part of a schema message, which the mapper edits in place.
      `properties` is `None` when the schema has no `properties` entry, and
      `keyProperties` is `None` when the key properties are null. */
  class SchemaMessage {
    var properties: Option<map<string, TypeTag>>
    var keyProperties: Option<seq<string>>

    constructor (properties: Option<map<string, TypeTag>>, keyProperties: Option<seq<string>>)
      ensures this.properties == properties && this.keyProperties == keyProperties
    {
      this.properties := properties;
      this.keyProperties := keyProperties;
    }
  }

  /** The property map after the schema rewrite: `embeddings` is an array of
      numbers and `segment_number` an integer, whatever was declared before;
      the metadata property becomes an object only when it was not declared;
      nothing else changes. */
  function WithEmbeddingProperties(properties: map<string, TypeTag>, metadataProperty: string): (r: map<string, TypeTag>)
    ensures r.Keys == properties.Keys + {EmbeddingsField, SegmentNumberField, metadataProperty}
    ensures r[EmbeddingsField] == ArrayOfNumber
    ensures r[SegmentNumberField] == IntegerType
    ensures metadataProperty != EmbeddingsField && metadataProperty != SegmentNumberField ==>
              r[metadataProperty] == if metadataProperty in properties then properties[metadataProperty] else ObjectType
    ensures forall k :: k in properties && k != EmbeddingsField && k != SegmentNumberField && k != metadataProperty ==>
              r[k] == properties[k]
  {
    var withEmbeddings := properties[EmbeddingsField := ArrayOfNumber];
    var withMetadata :=
      if metadataProperty !in withEmbeddings then withEmbeddings[metadataProperty := ObjectType] else withEmbeddings;
    withMetadata[SegmentNumberField := IntegerType]
  }

  /** Rewriting the properties a second time changes nothing: only the key
      list grows when the same schema is rewritten twice. */
  lemma WithEmbeddingPropertiesIdempotent(properties: map<string, TypeTag>, metadataProperty: string)
    ensures WithEmbeddingProperties(WithEmbeddingProperties(properties, metadataProperty), metadataProperty)
         == WithEmbeddingProperties(properties, metadataProperty)
  {
  }

  // ---------------------------------------------------------------------
  // Credential check
  // ---------------------------------------------------------------------

  /** An API key can be resolved: from the setting or from the environment. */
  predicate CredentialResolvable(config: Config, environment: set<string>) {
    config.openaiApiKey.Some? || ApiKeyEnvironmentVariable in environment
  }

  /** The mapper's own configuration check, after the framework's. It fails
      only when errors are to be raised and no API key can be resolved. */
  function ValidateConfig(config: Config, environment: set<string>, raiseErrors: bool): (r: Outcome<Failure>)
    ensures r.Fail? ==> r.error == ConfigValidationError
    ensures r.Fail? ==> raiseErrors && !CredentialResolvable(config, environment)
    ensures raiseErrors && !CredentialResolvable(config, environment) ==> r.Fail?
  {
    if raiseErrors && !CredentialResolvable(config, environment) then
      Fail(ConfigValidationError)
    else
      Pass
  }

  // ---------------------------------------------------------------------
  // Record fan-out
  // ---------------------------------------------------------------------

  /** One segment as the text splitter returns it. */
  datatype Segment = Segment(pageContent: string, metadata: map<string, Value>)

  /** The text splitter: the document text and metadata taken from the
      record, and the splitter settings, to the segments in order, or the
      message of the error it raised. */
  type Splitter = (Value, Value, map<string, Value>) -> Result<seq<Segment>, string>

  /** Splitting is on unless `split_documents` is set to false. */
  predicate SplitsDocuments(config: Config) {
    config.splitDocuments != Some(false)
  }

  /** The record's metadata field, or an empty object when it has none. */
  function MetadataOf(config: Config, record: Record): (v: Value)
    ensures config.metadataProperty in record ==> v == record[config.metadataProperty]
    ensures config.metadataProperty !in record ==> v == Obj(map[])
  {
    if config.metadataProperty in record then record[config.metadataProperty] else Obj(map[])
  }

  /** The splitter settings with `chunk_size` and `chunk_overlap` filled in
      where the caller gave none; every caller-supplied entry is kept. */
  function WithSplitterDefaults(settings: map<string, Value>): (r: map<string, Value>)
    ensures r.Keys == settings.Keys + {ChunkSizeKey, ChunkOverlapKey}
    ensures ChunkSizeKey !in settings ==> r[ChunkSizeKey] == Int(DefaultChunkSize)
    ensures ChunkOverlapKey !in settings ==> r[ChunkOverlapKey] == Int(DefaultChunkOverlap)
    ensures forall k :: k in settings ==> r[k] == settings[k]
  {
    var withSize := if ChunkSizeKey !in settings then settings[ChunkSizeKey := Int(DefaultChunkSize)] else settings;
    if ChunkOverlapKey !in withSize then withSize[ChunkOverlapKey := Int(DefaultChunkOverlap)] else withSize
  }

  /** Filling in the defaults a second time changes nothing, so a stored
      splitter configuration that was filled in by one record is seen
      unchanged by the next. */
  lemma WithSplitterDefaultsIdempotent(settings: map<string, Value>)
    ensures WithSplitterDefaults(WithSplitterDefaults(settings)) == WithSplitterDefaults(settings)
  {
  }

  /** The copy of `record` made for segment `i`: the text field holds the
      segment's text, the metadata field its metadata, `segment_number` is
      `i`; the three are written in that order, so a later one wins when two
      of the field names coincide. Every other field is the record's. */
  function SegmentRecord(config: Config, record: Record, segment: Segment, i: nat): (r: Record)
    ensures r.Keys == record.Keys + {config.textProperty, config.metadataProperty, SegmentNumberField}
    ensures r[SegmentNumberField] == Int(i)
    ensures config.metadataProperty != SegmentNumberField ==> r[config.metadataProperty] == Obj(segment.metadata)
    ensures config.textProperty != SegmentNumberField && config.textProperty != config.metadataProperty ==>
              r[config.textProperty] == Str(segment.pageContent)
    ensures forall k :: k in record && k != config.textProperty && k != config.metadataProperty && k != SegmentNumberField ==>
              r[k] == record[k]
  {
    record[config.textProperty := Str(segment.pageContent)]
          [config.metadataProperty := Obj(segment.metadata)]
          [SegmentNumberField := Int(i)]
  }

  /** The loop over the splitter's segments: one record copy per segment,
      in the splitter's order, numbered from zero. */
  method FanOut(config: Config, record: Record, segments: seq<Segment>) returns (records: seq<Record>)
    ensures |records| == |segments|
    ensures forall i :: 0 <= i < |segments| ==> records[i] == SegmentRecord(config, record, segments[i], i)
  {
    records := [];
    for i := 0 to |segments|
      invariant |records| == i
      invariant forall j :: 0 <= j < i ==> records[j] == SegmentRecord(config, record, segments[j], j)
    {
      records := records + [SegmentRecord(config, record, segments[i], i)];
    }
  }

  /** What splitting a record yields, given the stored splitter settings
      (`None` when the setting is absent). Reading the text field comes
      first, so a record without it fails with a key error even when
      splitting is off. Splitting off yields no records at all: the source
      returns from a generator there, which ends it without yielding. */
  function Split(config: Config, stored: Option<map<string, Value>>, splitter: Splitter, record: Record): (r: Result<seq<Record>, Failure>)
    ensures config.textProperty !in record ==> r == Failure(KeyError(config.textProperty))
    ensures config.textProperty in record && !SplitsDocuments(config) ==> r == Success([])
    ensures config.textProperty in record && SplitsDocuments(config) ==>
              var segments := splitter(record[config.textProperty], MetadataOf(config, record), WithSplitterDefaults(stored.GetOr(map[])));
              && (segments.Failure? ==> r == Failure(SplitterError(segments.error)))
              && (segments.Success? ==>
                    && r.Success?
                    && |r.value| == |segments.value|
                    && forall i :: 0 <= i < |segments.value| ==> r.value[i] == SegmentRecord(config, record, segments.value[i], i))
  {
    if config.textProperty !in record then
      Failure(KeyError(config.textProperty))
    else if !SplitsDocuments(config) then
      Success([])
    else
      var text := record[config.textProperty];
      var segments := splitter(text, MetadataOf(config, record), WithSplitterDefaults(stored.GetOr(map[])));
      if segments.Failure? then
        Failure(SplitterError(segments.error))
      else
        Success(seq(|segments.value|, i requires 0 <= i < |segments.value| => SegmentRecord(config, record, segments.value[i], i)))
  }

  /** A splitter that returns no segments yields no records and no error. */
  lemma NoSegmentsNoRecords(config: Config, stored: Option<map<string, Value>>, splitter: Splitter, record: Record)
    requires config.textProperty in record
    requires splitter(record[config.textProperty], MetadataOf(config, record), WithSplitterDefaults(stored.GetOr(map[]))) == Success([])
    ensures Split(config, stored, splitter, record) == Success([])
  {
  }

  /** Splitting writes the defaults into the stored settings, and that write
      is invisible to every later record: it is split exactly as it would
      have been before the write. */
  lemma SplitUnaffectedByStoredDefaults(config: Config, stored: Option<map<string, Value>>, splitter: Splitter, record: Record)
    ensures Split(config, StoredAfterSplit(stored), splitter, record) == Split(config, stored, splitter, record)
  {
  }

  // ---------------------------------------------------------------------
  // Embedding requests
  // ---------------------------------------------------------------------

  /** The text actually sent for embedding: every newline replaced by a
      space, everything else as it was. */
  function ReplaceNewlines(text: string): (r: string)
    ensures |r| == |text|
    ensures forall i :: 0 <= i < |text| && text[i] == '\n' ==> r[i] == ' '
    ensures forall i :: 0 <= i < |text| && text[i] != '\n' ==> r[i] == text[i]
    ensures '\n' !in r
  {
    if text == [] then [] else [if text[0] == '\n' then ' ' else text[0]] + ReplaceNewlines(text[1..])
  }

  /** Replacing newlines in a text without any leaves it as it is; in
      particular, replacing twice is replacing once. */
  lemma ReplaceNewlinesFixesNewlineFree(text: string)
    requires '\n' !in text
    ensures ReplaceNewlines(text) == text
  {
  }

  /** One call of the embedding service: the input text, the model and the
      API key (`None` leaves the choice of key to the client library). */
  datatype Request = Request(input: string, model: string, apiKey: Option<string>)

  /** The embedding service's answer to one call. */
  datatype Response = Vector(values: seq<real>) | RateLimited(message: string) | ServiceFailure(message: string)

  /** The embedding service, asked for the n-th time (counting from zero,
      within one record message) with a request. */
  type Embedder = (nat, Request) -> Response

  /** The request sent for a split record: its text field, with newlines
      replaced. A missing text field is a key error, a field that is not a
      string an attribute error; neither reaches the service. */
  function EmbeddingRequest(config: Config, record: Record): (r: Result<Request, Failure>)
    ensures r.Success? <==> config.textProperty in record && record[config.textProperty].Str?
    ensures config.textProperty !in record ==> r == Failure(KeyError(config.textProperty))
    ensures config.textProperty in record && !record[config.textProperty].Str? ==> r == Failure(AttributeError)
    ensures r.Success? ==> r.value.model == EmbeddingModel && r.value.apiKey == config.openaiApiKey
    ensures r.Success? ==> r.value.input == ReplaceNewlines(record[config.textProperty].s)
    ensures r.Success? ==> |r.value.input| == |record[config.textProperty].s| && '\n' !in r.value.input
  {
    if config.textProperty !in record then Failure(KeyError(config.textProperty))
    else match record[config.textProperty]
      case Str(text) => Success(Request(ReplaceNewlines(text), EmbeddingModel, config.openaiApiKey))
      case _ => Failure(AttributeError)
  }

  /** The error a failed call raises: a rate limit aborts the sync, carrying
      the service's message; any other failure goes through as it is. */
  function Raised(response: Response): (f: Failure)
    requires !response.Vector?
    ensures response.RateLimited? <==> f.AbortedSyncFailed?
    ensures f.AbortedSyncFailed? ==> f.cause == response.message
    ensures response.ServiceFailure? ==> f == ApiError(response.message)
  {
    match response
    case RateLimited(message) => AbortedSyncFailed(message)
    case ServiceFailure(message) => ApiError(message)
  }

  /** An embedding vector as a record value: an array of numbers. */
  function EmbeddingValue(vector: seq<real>): (v: Value)
    ensures v.Arr? && |v.items| == |vector|
    ensures forall i :: 0 <= i < |vector| ==> v.items[i] == Num(vector[i])
  {
    Arr(seq(|vector|, i requires 0 <= i < |vector| => Num(vector[i])))
  }

  /** The output message for a split record: the input message with its
      record replaced by the split record plus `embeddings`. */
  function Annotated(message: Message, record: Record, vector: seq<real>): (m: Message)
    ensures m.Keys == message.Keys + {RecordKey}
    ensures forall k :: k in message && k != RecordKey ==> m[k] == message[k]
    ensures m[RecordKey].Obj? && m[RecordKey].fields.Keys == record.Keys + {EmbeddingsField}
    ensures m[RecordKey].fields[EmbeddingsField] == EmbeddingValue(vector)
    ensures forall k :: k in record && k != EmbeddingsField ==> m[RecordKey].fields[k] == record[k]
  {
    message[RecordKey := Obj(record[EmbeddingsField := EmbeddingValue(vector)])]
  }

  /** The split record `i` was embedded and emitted: its request was the
      i-th call and the service answered it with a vector. */
  ghost predicate EmittedAt(config: Config, message: Message, records: seq<Record>, embed: Embedder,
                            emitted: seq<Message>, requests: seq<Request>, i: nat)
    requires i < |records| && i < |emitted| && i < |requests|
  {
    && EmbeddingRequest(config, records[i]) == Success(requests[i])
    && embed(i, requests[i]).Vector?
    && emitted[i] == Annotated(message, records[i], embed(i, requests[i]).values)
  }

  /** The relation between the split records of one message and what the
      embedding loop produces: the messages emitted, in order, one per
      record; the requests sent, one per record reached; and the error that
      stopped the loop, if any. The loop stops at the first record whose
      request cannot be built or whose call fails; the messages emitted
      before it stay emitted. */
  ghost predicate EmbeddedInOrder(config: Config, message: Message, records: seq<Record>, embed: Embedder,
                                  emitted: seq<Message>, requests: seq<Request>, failure: Option<Failure>)
  {
    && |emitted| <= |requests| <= |emitted| + 1
    && |emitted| <= |records|
    && (forall i :: 0 <= i < |emitted| ==> EmittedAt(config, message, records, embed, emitted, requests, i))
    && (failure.None? ==> |emitted| == |records| && |requests| == |records|)
    && (failure.Some? ==>
          && |emitted| < |records|
          && match EmbeddingRequest(config, records[|emitted|])
             case Failure(e) => |requests| == |emitted| && failure == Some(e)
             case Success(request) =>
               && |requests| == |emitted| + 1
               && requests[|emitted|] == request
               && !embed(|emitted|, request).Vector?
               && failure == Some(Raised(embed(|emitted|, request))))
  }

  /** The loop over the split records of one message: build the request,
      call the service, attach the vector, emit; stop at the first error. */
  method EmbedAll(config: Config, message: Message, records: seq<Record>, embed: Embedder)
    returns (emitted: seq<Message>, requests: seq<Request>, failure: Option<Failure>)
    ensures EmbeddedInOrder(config, message, records, embed, emitted, requests, failure)
  {
    emitted, requests, failure := [], [], None;
    var i := 0;
    while i < |records|
      invariant 0 <= i <= |records|
      invariant |emitted| == i && |requests| == i
      invariant forall j :: 0 <= j < i ==> EmittedAt(config, message, records, embed, emitted, requests, j)
    {
      var request := EmbeddingRequest(config, records[i]);
      if request.Failure? {
        failure := Some(request.error);
        return;
      }
      var response := embed(i, request.value);
      ghost var before := requests;
      requests := requests + [request.value];
      assert forall j :: 0 <= j < i ==> EmittedAt(config, message, records, embed, emitted, requests, j) by {
        forall j | 0 <= j < i ensures EmittedAt(config, message, records, embed, emitted, requests, j) {
          assert EmittedAt(config, message, records, embed, emitted, before, j);
        }
      }
      if !response.Vector? {
        failure := Some(Raised(response));
        return;
      }
      ghost var emittedBefore := emitted;
      emitted := emitted + [Annotated(message, records[i], response.values)];
      forall j | 0 <= j <= i ensures EmittedAt(config, message, records, embed, emitted, requests, j) {
        if j < i {
          assert EmittedAt(config, message, records, embed, emittedBefore, requests, j);
        }
      }
      i := i + 1;
    }
  }

  /** Split record `i` gets its vector: its request can be built and the
      i-th call answers it with a vector. */
  ghost predicate Answered(config: Config, records: seq<Record>, embed: Embedder, i: nat)
    requires i < |records|
  {
    EmbeddingRequest(config, records[i]).Success? && embed(i, EmbeddingRequest(config, records[i]).value).Vector?
  }

  /** The number of messages emitted is the index of the first split record
      that does not get its vector, or all of them. */
  lemma EmittedUpToFirstUnanswered(config: Config, message: Message, records: seq<Record>, embed: Embedder,
                                   emitted: seq<Message>, requests: seq<Request>, failure: Option<Failure>)
    requires EmbeddedInOrder(config, message, records, embed, emitted, requests, failure)
    ensures |emitted| <= |records|
    ensures forall i :: 0 <= i < |emitted| ==> Answered(config, records, embed, i)
    ensures |emitted| < |records| ==> !Answered(config, records, embed, |emitted|)
  {
    forall i | 0 <= i < |emitted| ensures Answered(config, records, embed, i) {
      assert EmittedAt(config, message, records, embed, emitted, requests, i);
    }
  }

  /** The relation is a function: the records and the service's answers
      determine the output completely. */
  lemma EmbeddedInOrderDeterministic(config: Config, message: Message, records: seq<Record>, embed: Embedder,
                                     emitted1: seq<Message>, requests1: seq<Request>, failure1: Option<Failure>,
                                     emitted2: seq<Message>, requests2: seq<Request>, failure2: Option<Failure>)
    requires EmbeddedInOrder(config, message, records, embed, emitted1, requests1, failure1)
    requires EmbeddedInOrder(config, message, records, embed, emitted2, requests2, failure2)
    ensures emitted1 == emitted2 && requests1 == requests2 && failure1 == failure2
  {
    EmittedUpToFirstUnanswered(config, message, records, embed, emitted1, requests1, failure1);
    EmittedUpToFirstUnanswered(config, message, records, embed, emitted2, requests2, failure2);
    assert |emitted1| == |emitted2|;
    forall i | 0 <= i < |emitted1| ensures emitted1[i] == emitted2[i] && requests1[i] == requests2[i] {
      assert EmittedAt(config, message, records, embed, emitted1, requests1, i);
      assert EmittedAt(config, message, records, embed, emitted2, requests2, i);
    }
  }

  /** A rate limit on segment k, after k segments that got their vectors,
      aborts the sync with the service's message, exactly k messages
      emitted and k + 1 calls made. */
  lemma RateLimitAbortsAfterPrefix(config: Config, message: Message, records: seq<Record>, embed: Embedder,
                                   emitted: seq<Message>, requests: seq<Request>, failure: Option<Failure>,
                                   k: nat, limit: string)
    requires EmbeddedInOrder(config, message, records, embed, emitted, requests, failure)
    requires k < |records|
    requires forall i :: 0 <= i < k ==> Answered(config, records, embed, i)
    requires EmbeddingRequest(config, records[k]).Success?
    requires embed(k, EmbeddingRequest(config, records[k]).value) == RateLimited(limit)
    ensures |emitted| == k && |requests| == k + 1
    ensures failure == Some(AbortedSyncFailed(limit))
  {
    EmittedUpToFirstUnanswered(config, message, records, embed, emitted, requests, failure);
    assert !Answered(config, records, embed, k);
  }

  /** When every split record gets its vector, every one is emitted, in
      order, and nothing fails. */
  lemma AllAnsweredEmitsAll(config: Config, message: Message, records: seq<Record>, embed: Embedder,
                            emitted: seq<Message>, requests: seq<Request>, failure: Option<Failure>)
    requires EmbeddedInOrder(config, message, records, embed, emitted, requests, failure)
    requires forall i :: 0 <= i < |records| ==> Answered(config, records, embed, i)
    ensures failure.None? && |emitted| == |records|
    ensures forall i :: 0 <= i < |records| ==>
              Answered(config, records, embed, i) &&
              emitted[i] == Annotated(message, records[i], embed(i, EmbeddingRequest(config, records[i]).value).values)
  {
    EmittedUpToFirstUnanswered(config, message, records, embed, emitted, requests, failure);
    forall i | 0 <= i < |records|
      ensures Answered(config, records, embed, i) && emitted[i] == Annotated(message, records[i], embed(i, EmbeddingRequest(config, records[i]).value).values)
    {
      assert EmittedAt(config, message, records, embed, emitted, requests, i);
    }
  }

  /** Every message emitted for a record carries the segment's number, in
      emission order, and the vector the service returned for it. */
  lemma EmittedMessagesAreNumberedSegments(config: Config, stored: Option<map<string, Value>>, splitter: Splitter,
                                           message: Message, embed: Embedder,
                                           emitted: seq<Message>, requests: seq<Request>, failure: Option<Failure>)
    requires IsRecordMessage(message)
    requires Split(config, stored, splitter, message[RecordKey].fields).Success?
    requires EmbeddedInOrder(config, message, Split(config, stored, splitter, message[RecordKey].fields).value,
                             embed, emitted, requests, failure)
    ensures |emitted| <= |requests|
    ensures forall i :: 0 <= i < |emitted| ==>
              && RecordKey in emitted[i] && emitted[i][RecordKey].Obj?
              && SegmentNumberField in emitted[i][RecordKey].fields
              && emitted[i][RecordKey].fields[SegmentNumberField] == Int(i)
              && embed(i, requests[i]).Vector?
              && EmbeddingsField in emitted[i][RecordKey].fields
              && emitted[i][RecordKey].fields[EmbeddingsField] == EmbeddingValue(embed(i, requests[i]).values)
  {
    var records := Split(config, stored, splitter, message[RecordKey].fields).value;
    forall i | 0 <= i < |emitted|
      ensures && RecordKey in emitted[i] && emitted[i][RecordKey].Obj?
              && SegmentNumberField in emitted[i][RecordKey].fields
              && emitted[i][RecordKey].fields[SegmentNumberField] == Int(i)
              && embed(i, requests[i]).Vector?
              && EmbeddingsField in emitted[i][RecordKey].fields
              && emitted[i][RecordKey].fields[EmbeddingsField] == EmbeddingValue(embed(i, requests[i]).values)
    {
      assert EmittedAt(config, message, records, embed, emitted, requests, i);
    }
  }

  // ---------------------------------------------------------------------
  // The mapper
  // ---------------------------------------------------------------------

  /** The stored splitter settings after a record that reached the splitter:
      a stored dictionary is filled in place; when there was none, the
      filled-in fresh dictionary is dropped. */
  function StoredAfterSplit(stored: Option<map<string, Value>>): (r: Option<map<string, Value>>)
    ensures r.Some? <==> stored.Some?
    ensures stored.Some? ==> r.value == WithSplitterDefaults(stored.value)
  {
    match stored
    case Some(settings) => Some(WithSplitterDefaults(settings))
    case None => None
  }

  /** A record message: one whose `record` entry is an object. */
  predicate IsRecordMessage(message: Message) {
    RecordKey in message && message[RecordKey].Obj?
  }

  class EmbeddingMapper {
    const config: Config
    /** The configuration's `splitter_config` entry, `None` when absent.
        Splitting writes the chunk defaults into it. */
    var splitterConfig: Option<map<string, Value>>

    constructor (config: Config, splitterConfig: Option<map<string, Value>>)
      ensures this.config == config && this.splitterConfig == splitterConfig
    {
      this.config := config;
      this.splitterConfig := splitterConfig;
    }

    /** Adds `embeddings`, the metadata property (when absent) and
        `segment_number` to the schema, and appends `segment_number` to the
        key properties, whether or not it is already there. A schema without
        properties is a key error and nothing changes; null key properties
        are an attribute error raised after the properties were rewritten. */
    method MapSchemaMessage(result: SchemaMessage) returns (failure: Option<Failure>)
      modifies result
      ensures old(result.properties).None? ==>
                failure == Some(KeyError("properties")) &&
                result.properties == old(result.properties) && result.keyProperties == old(result.keyProperties)
      ensures old(result.properties).Some? ==>
                result.properties == Some(WithEmbeddingProperties(old(result.properties).value, config.metadataProperty))
      ensures old(result.properties).Some? && old(result.keyProperties).None? ==>
                failure == Some(AttributeError) && result.keyProperties == None
      ensures old(result.properties).Some? && old(result.keyProperties).Some? ==>
                failure == None && result.keyProperties == Some(old(result.keyProperties).value + [SegmentNumberField])
    {
      if result.properties.None? {
        return Some(KeyError("properties"));
      }
      var properties := result.properties.value;
      properties := properties[EmbeddingsField := ArrayOfNumber];
      if config.metadataProperty !in properties {
        properties := properties[config.metadataProperty := ObjectType];
      }
      properties := properties[SegmentNumberField := IntegerType];
      result.properties := Some(properties);
      if result.keyProperties.None? {
        return Some(AttributeError);
      }
      result.keyProperties := Some(result.keyProperties.value + [SegmentNumberField]);
      failure := None;
    }

    /** The splitter settings with the chunk defaults, written into the
        stored dictionary when there is one. */
    method ApplySplitterDefaults() returns (settings: map<string, Value>)
      modifies this`splitterConfig
      ensures settings == WithSplitterDefaults(old(splitterConfig).GetOr(map[]))
      ensures splitterConfig == StoredAfterSplit(old(splitterConfig))
    {
      settings := splitterConfig.GetOr(map[]);
      if ChunkSizeKey !in settings {
        settings := settings[ChunkSizeKey := Int(DefaultChunkSize)];
      }
      if ChunkOverlapKey !in settings {
        settings := settings[ChunkOverlapKey := Int(DefaultChunkOverlap)];
      }
      if splitterConfig.Some? {
        splitterConfig := Some(settings);
      }
    }

    /** Splits a record into zero or more records, one per segment. */
    method SplitRecord(record: Record, splitter: Splitter) returns (r: Result<seq<Record>, Failure>)
      modifies this`splitterConfig
      ensures r == Split(config, old(splitterConfig), splitter, record)
      ensures splitterConfig ==
                if config.textProperty in record && SplitsDocuments(config) then StoredAfterSplit(old(splitterConfig))
                else old(splitterConfig)
    {
      if config.textProperty !in record {
        return Failure(KeyError(config.textProperty));
      }
      var text := record[config.textProperty];
      var metadata := MetadataOf(config, record);
      if !SplitsDocuments(config) {
        return Success([]);
      }
      var settings := ApplySplitterDefaults();
      var segments := splitter(text, metadata, settings);
      if segments.Failure? {
        return Failure(SplitterError(segments.error));
      }
      var records := FanOut(config, record, segments.value);
      r := Success(records);
      assert r.value == Split(config, old(splitterConfig), splitter, record).value;
    }

    /** Maps one record message to the messages it produces: one per
        segment, each carrying the segment's embedding, until the first
        error, which ends the run. */
    method MapRecordMessage(message: Message, splitter: Splitter, embed: Embedder)
      returns (emitted: seq<Message>, requests: seq<Request>, failure: Option<Failure>)
      requires IsRecordMessage(message)
      modifies this`splitterConfig
      ensures Split(config, old(splitterConfig), splitter, message[RecordKey].fields).Failure? ==>
                emitted == [] && requests == [] &&
                failure == Some(Split(config, old(splitterConfig), splitter, message[RecordKey].fields).error)
      ensures Split(config, old(splitterConfig), splitter, message[RecordKey].fields).Success? ==>
                EmbeddedInOrder(config, message, Split(config, old(splitterConfig), splitter, message[RecordKey].fields).value,
                                embed, emitted, requests, failure)
      ensures splitterConfig ==
                if config.textProperty in message[RecordKey].fields && SplitsDocuments(config) then StoredAfterSplit(old(splitterConfig))
                else old(splitterConfig)
    {
      var split := SplitRecord(message[RecordKey].fields, splitter);
      if split.Failure? {
        return [], [], Some(split.error);
      }
      emitted, requests, failure := EmbedAll(config, message, split.value, embed);
    }
  }
}
