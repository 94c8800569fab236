# GPT embedding mapper, modelled in Dafny

This project models `GPTEmbeddingMapper`, a stream-processing stage of a
data-integration pipeline. It sits between an extractor and a loader and does
three things:

- **Schema rewrite.** It rewrites each schema message. The stage declares
  `embeddings` (array of numbers) and `segment_number` (integer), and it
  declares the configured metadata property as an object when that property
  is missing. It appends `segment_number` to the key properties.
- **Record fan-out.** It splits each record's document text into segments
  with a text splitter. It turns every segment into a copy of the record that
  carries the segment's text, its metadata and its `segment_number`.
- **Embedding.** For each copy, in order, it asks a remote embedding service
  for a vector of the text, with newlines replaced by spaces. It emits the
  copy with an `embeddings` field. A rate limit aborts the whole sync.

It also checks the configuration for an API key.

The model is in two files:

- `wrappers.dfy` holds `Option`, `Result` and `Outcome`.
- `mappers.dfy` holds module `Mappers`, which contains:
  - JSON values, records and messages as values.
  - The schema message as a class whose fields the mapper edits in place.
  - The mapper itself as class `EmbeddingMapper`. Its field `splitterConfig`
    is the configuration's `splitter_config` dictionary, which splitting
    fills in with defaults in place.
  - Pure specification functions for each step.
  - The loops of the source as methods with loop invariants.
  - Lemmas that relate the steps.

Two foreign pieces are parameters:

- The text splitter is `Splitter`. It maps the text value, the metadata value
  and the splitter settings to the segments, or to the error it raised.
- The embedding service is `Embedder`. It answers the n-th call for one
  record message with a vector, a rate-limit error or another failure. The
  requests that reach the service are returned, so the model shows exactly
  what was sent: the text after newline replacement, the model name and the
  API key.

The model follows what the code does where its own comments and messages
say otherwise:

- The docstring of `split_record` (mappers.py:92-98) promises "zero or
  more record dicts". The `return record` at mappers.py:104 sits inside a
  generator, so when `split_documents` is false it yields nothing. The model
  yields nothing (`Mappers.Split`).
- The error message at mappers.py:86-88 names a plugin-specific variable,
  `MAP_OPENAI_EMBEDDINGS_OPEN_API_KEY`. The check at line 83 reads only
  `OPENAI_API_KEY`, and the model does the same.
- The docstring of `_validate_config` (mappers.py:73-74) promises a tuple
  of warnings and errors. The override discards the parent's report and
  returns nothing. The model has only pass or fail.

## Model

| member | source | states |
|---|---|---|
| `Mappers.WithEmbeddingProperties` | map_gpt_embeddings/mappers.py:27-38 | The rewritten properties are exactly the old ones plus `embeddings`, `segment_number` and the metadata property. `embeddings` is array-of-number and `segment_number` is integer, overwriting any earlier declaration. The metadata property keeps an existing declaration and is an object only when it was absent. No other property changes. |
| `Mappers.WithEmbeddingPropertiesIdempotent` | map_gpt_embeddings/mappers.py:27-38 | Rewriting the properties a second time leaves them unchanged, so only the key list grows when a schema is rewritten twice. |
| `Mappers.EmbeddingMapper.MapSchemaMessage` | map_gpt_embeddings/mappers.py:23-41 | A schema without `properties` fails with a key error and is left unchanged. Otherwise the properties become the rewritten properties. Then null key properties fail with an attribute error, and the rewritten properties stay. Otherwise the key list becomes the old list with one `segment_number` appended, even when `segment_number` was already a key. |
| `Mappers.ValidateConfig` | map_gpt_embeddings/mappers.py:79-89 | Validation fails, with a configuration validation error, exactly when errors are to be raised and no API key can be resolved. No key can be resolved when the `openai_api_key` setting is missing or null and `OPENAI_API_KEY` is not in the environment. |
| `Mappers.MetadataOf` | map_gpt_embeddings/mappers.py:101 | The document metadata is the record's metadata field, or an empty object when the record has none. |
| `Mappers.WithSplitterDefaults` | map_gpt_embeddings/mappers.py:106-110 | `chunk_size` defaults to 1000 and `chunk_overlap` to 200. Each is inserted only when absent. Every caller-supplied entry is kept, and the keys are the old keys plus those two. |
| `Mappers.WithSplitterDefaultsIdempotent` | map_gpt_embeddings/mappers.py:106-110 | Filling in the defaults twice is the same as filling them in once. |
| `Mappers.StoredAfterSplit` | map_gpt_embeddings/mappers.py:106-110 | A stored `splitter_config` is replaced by its defaulted version. An absent one stays absent, because the fresh dictionary is dropped. |
| `Mappers.EmbeddingMapper.ApplySplitterDefaults` | map_gpt_embeddings/mappers.py:106-110 | Returns the defaulted settings. It writes them into the stored dictionary when there is one and leaves an absent one absent. |
| `Mappers.SegmentRecord` | map_gpt_embeddings/mappers.py:126-129 | The copy for segment i has `segment_number = i`. Its metadata field holds the segment's metadata and its text field the segment's text, unless a later write of the three overwrote it. It has every other field of the input record unchanged, and no other fields. |
| `Mappers.FanOut` | map_gpt_embeddings/mappers.py:125-130 | Yields exactly one record per segment, in the splitter's order. Record i is the copy for segment i. |
| `Mappers.Split` | map_gpt_embeddings/mappers.py:100-130 | A record without the text field fails with a key error, even when splitting is off. When splitting is off, the result is no records and no error. A splitter error is propagated. Otherwise the result is one copy per segment, in order. The splitter receives the text, the metadata (or an empty object) and the defaulted settings. |
| `Mappers.NoSegmentsNoRecords` | map_gpt_embeddings/mappers.py:115-130 | When the splitter returns no segments, splitting yields no records and no error. |
| `Mappers.SplitUnaffectedByStoredDefaults` | map_gpt_embeddings/mappers.py:106-115 | Splitting writes defaults into the stored settings, and that write does not change how any later record is split. |
| `Mappers.EmbeddingMapper.SplitRecord` | map_gpt_embeddings/mappers.py:91-130 | The result is `Split` of the record under the settings stored before the call. The stored settings are defaulted exactly when the text field is present and splitting is on. |
| `Mappers.ReplaceNewlines` | map_gpt_embeddings/mappers.py:170 | The text sent for embedding has the input's length and contains no newline. It has a space wherever the input has a newline and agrees with the input everywhere else. |
| `Mappers.ReplaceNewlinesFixesNewlineFree` | map_gpt_embeddings/mappers.py:170 | A text without newlines is sent unchanged, so replacing twice is replacing once. |
| `Mappers.EmbeddingRequest` | map_gpt_embeddings/mappers.py:170-183 | A request is built exactly when the text field is present and holds a string. A missing field is a key error and a non-string field is an attribute error. The request's input is the text with newlines replaced by spaces, so it has the text's length and no newline. It also carries the model `text-embedding-ada-002` and the configured API key, which may be absent. |
| `Mappers.Raised` | map_gpt_embeddings/mappers.py:184-188 | A rate limit becomes the sync-aborting error, carrying the service's message. Any other failure of the service becomes the propagated service error with its message. |
| `Mappers.EmbeddingValue` | map_gpt_embeddings/mappers.py:174-179 | The `embeddings` field is an array holding the vector's numbers, in order. |
| `Mappers.Annotated` | map_gpt_embeddings/mappers.py:179-190 | The output message is the input message with `record` replaced by the split record plus `embeddings`. All other message keys and all other record fields are unchanged. |
| `Mappers.EmbedAll` | map_gpt_embeddings/mappers.py:177-192 | Messages are emitted one per split record, in order, until the first record whose text is unusable or whose call fails. That error stops the run, and earlier messages stay emitted. Exactly one request is sent per record reached, with index i for record i. |
| `Mappers.EmittedUpToFirstUnanswered` | map_gpt_embeddings/mappers.py:177-192 | The number of emitted messages is the index of the first split record that gets no vector, or all of them. |
| `Mappers.EmbeddedInOrderDeterministic` | map_gpt_embeddings/mappers.py:177-192 | The split records and the service's answers determine the emitted messages, the requests and the error uniquely. |
| `Mappers.RateLimitAbortsAfterPrefix` | map_gpt_embeddings/mappers.py:177-188 | Suppose segment k hits a rate limit after k segments got their vectors. Then exactly k messages have been emitted and k + 1 calls made, and the run aborts with the sync-aborting error carrying the service's message. |
| `Mappers.AllAnsweredEmitsAll` | map_gpt_embeddings/mappers.py:177-192 | When every split record gets a vector, every one is emitted, in order, with its own vector, and nothing fails. |
| `Mappers.EmittedMessagesAreNumberedSegments` | map_gpt_embeddings/mappers.py:125-190 | Every emitted message's record has `segment_number` equal to its position among the messages emitted for that input. It also has `embeddings` equal to the vector returned for that position. |
| `Mappers.EmbeddingMapper.MapRecordMessage` | map_gpt_embeddings/mappers.py:176-192 | When splitting fails, nothing is emitted or sent and the error ends the run. Otherwise the split records go through the embedding loop above. The stored splitter settings change exactly as in `SplitRecord`. |

## Left out

- The HTTP call to the embedding service and the extraction of
  `data[0].embedding` from its response. These are network I/O. The service
  is the `Embedder` parameter, and floats are modelled as reals.
- The internals of the text splitter, so no chunk-count or overlap formula
  is modelled. The splitter is the `Splitter` parameter.
- The pipeline framework's work: the parent class's schema and validation
  steps, the generator that yields one schema result per message, message
  framing and `RecordMessage.from_dict`. The config JSON schema and its
  default property names are left out too. The configuration is given
  already resolved, as `Config`.
- Logging and the wording of error messages. The rate-limit error keeps the
  service's message as its cause.
- `os.environ` is passed in as a set of variable names. The
  `warnings_as_errors` flag is only forwarded to the parent class, so it is
  not modelled.
- Laziness of the generators. The splitter runs before the first embedding
  call in the source too, and building each record copy has no effects, so
  the model builds all copies before the embedding loop and emits in the
  same order.
- Python truthiness of `split_documents` and a `splitter_config` that is
  present but null. The model takes a boolean and a dictionary, each
  optional.
- A record message whose `record` entry is missing or not an object. The
  framework only delivers record messages that carry a record object, so
  `MapRecordMessage` requires one.
- A schema or record message that is not a dictionary at all. Only the
  missing `properties` entry and null key properties are modelled.
- Repeated calls of `map_schema_message` on the same schema object, beyond
  the idempotence lemma. Each call appends another `segment_number` key.
