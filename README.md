# Full-text search path of a graph database, modelled in Dafny

This project models the three pieces of a graph database's full-text search path:

- **The change-data-capture listener** (`ESListener`). It walks a committed write batch and keeps only the tag and edge records whose type has a full-text index. From each it reads the first indexed field and accumulates an upsert (for a put) or a delete (for a remove) in a bulk accumulator. It submits the bulk request only when something was accumulated. Separately, it keeps its progress in a 24-byte apply-offset file.
- **The bulk accumulator** (`ESBulk`) and the adapter's endpoint list (`ESAdapter`).
- **The query-side rewriter** (`FTIndexUtils`). It sends a text-search predicate's pattern query to the adapter, retrying up to a configured bound. It then rewrites the matches into one equality filter, or into an OR of equality filters.

## Files

- `wrappers.dfy` (module `Wrappers`) defines `Option`, `Result` (C++ `StatusOr`) and `Exit`. `Exit` is the outcome of a call that may stop the process through `LOG(FATAL)` or a failed `CHECK_EQ`.
- `es_adapter.dfy` (module `Adapter`) defines the query-result items, the endpoint descriptors, the bulk actions, the class `ESBulk` and the class `ESAdapter`.
  - `ESBulk.documents` is the per-index map of action sequences.
  - The ghost field `ESBulk.log` records every `put`/`delete_` call in order.
  - `Valid()` ties the two together: `documents == Group(log)`.
- `es_listener.dfy` (module `Listener`) covers the listener:
  - the little-endian int64 codec and the offset record;
  - `pickTagAndEdgeData`, as the pure function `PickTagAndEdgeData`;
  - the batch specification `BatchLog`;
  - the class `ESListener`. Its field `offsetFile` is the file's content, `None` when the file does not exist. Its ghost field `requests` records the bulk requests it has submitted.
- `ft_index_utils.dfy` (module `FTIndexUtils`) covers the query side: the expression datatype, `NeedTextSearch`, the retry loop `TextSearch`, `RewriteTSFilter` and `GetESAdapter`.

## Collaborators and I/O

These become parameters:

- **Key layout decoder** (`NebulaKeyUtils`): `Schema.classify` maps a raw key to tag data, edge data or neither, with the accessors each offers.
- **Full-text index catalog** (`getFTIndex`): `Schema.getFTIndex`.
- **Row readers**: `Schema.tagReader` and `Schema.edgeReader`. Each returns `None` where the C++ code gets a null reader.
- **Document ids**: `genDocID` is a function value that `ESBulk` and `ESListener` hold. Its body is not part of this model.
- **Bulk submission**: `Apply` takes `submit`, which gives the outcome of the adapter's bulk call for the accumulated documents.
- **Pattern searches**: `TextSearch` takes a `SearchOracle`, which gives the adapter's answer to attempt number `n` of a query.
- **Offset-file writes**: `WriteAppliedId` and `Persist` take a `FileWrite`. It says whether `open` failed or, if it succeeded, how many bytes `write` stored.
- **Service-client list**: `GetESAdapter` takes the result of reading the list from the meta-service cache.

## Where the model follows the code's behaviour in corner cases

- A non-string indexed value is only logged (`ESListener.cpp:97-99`, `121-123`). The record still reaches the callback with whatever reading it as a string yields (`Value.str`), so the record is not dropped.
- Take an offset file that exists but is shorter than a read needs. The positioned read returns fewer bytes and the `CHECK_EQ` stops the process (`ESListener.cpp:152-158`, `176-177`), so the file is not treated as zero. A write that truncates the file and then stores fewer than 24 bytes leaves exactly such a file. `TornRecordAborts` states what reading it does.
- `delete_` receives the identity fields (`vid`, `src`, `dst`, `rank`). The model's delete action keeps them beside the document id and carries no text.
- The offset record is written by truncate-then-write, not by an atomic replace. `WriteAppliedId` models the partial file that a short write leaves.

## Model

| member | source | states |
|---|---|---|
| `Adapter.GroupAppend` | src/common/plugin/fulltext/elasticsearch/ESAdapter.h:42 | one more recorded call appends its action at the end of its own index's sequence, and every other index's sequence stays unchanged |
| `Adapter.GroupEmpty` | src/common/plugin/fulltext/elasticsearch/ESAdapter.h:39 | the per-index map is empty exactly when no call was recorded |
| `Adapter.ESBulk.constructor` | src/common/plugin/fulltext/elasticsearch/ESAdapter.h:25-44 | a new accumulator holds no documents and has recorded no call |
| `Adapter.ESBulk.Put` | src/common/plugin/fulltext/elasticsearch/ESAdapter.h:27-32 | appends one upsert that carries the text, the identity fields and `genDocID` of them, under `indexName` only; other indices are unchanged and the map stays the grouping of the call history |
| `Adapter.ESBulk.Delete` | src/common/plugin/fulltext/elasticsearch/ESAdapter.h:33-37 | appends one delete with the identity fields, their document id and no text, under `indexName` only; other indices are unchanged |
| `Adapter.ESBulk.Empty` | src/common/plugin/fulltext/elasticsearch/ESAdapter.h:39 | true exactly when no `put` or `delete_` has been recorded |
| `Adapter.ESAdapter.constructor` | src/common/plugin/fulltext/elasticsearch/ESAdapter.h:48 | the adapter holds exactly the given client list |
| `Adapter.ESAdapter.SetClients` | src/common/plugin/fulltext/elasticsearch/ESAdapter.h:50 | the whole client list is replaced by the new one |
| `Listener.DecodeEncodeLE` | src/kvstore/plugins/elasticsearch/ESListener.cpp:201-210 | decoding the `n` little-endian bytes of any number below 256^n gives that number back |
| `Listener.EncodeDecodeLE` | src/kvstore/plugins/elasticsearch/ESListener.cpp:151-158 | re-encoding what any byte string decodes to gives the same bytes |
| `Listener.Int64RoundTrip` | src/kvstore/plugins/elasticsearch/ESListener.cpp:201-210 | every int64, negative ones included, reads back from its eight bytes unchanged |
| `Listener.Int64BytesRoundTrip` | src/kvstore/plugins/elasticsearch/ESListener.cpp:151-158 | any eight bytes are the encoding of the int64 they read as |
| `Listener.EncodeAppliedId` | src/kvstore/plugins/elasticsearch/ESListener.cpp:201-210 | the record is 24 bytes; lastId reads back from bytes 0-7, lastTerm from bytes 8-15 and lastApplyLogId from bytes 16-23 |
| `Listener.RecordIsCanonical` | src/kvstore/plugins/elasticsearch/ESListener.cpp:140-180 | every 24-byte file is the encoding of the three values read from offsets 0, 8 and 16 |
| `Listener.PRead64ReadsEncoded` | src/kvstore/plugins/elasticsearch/ESListener.cpp:152-158 | an int64 encoded anywhere in the file, with any bytes before and after it, is what the eight-byte positioned read at its offset returns |
| `Listener.PickTagAndEdgeData` | src/kvstore/plugins/elasticsearch/ESListener.cpp:76-131 | a key that is neither tag nor edge, a type without a full-text index, or a null reader gives no callback; a tag gives (index, vid, "", "", 0, text) and an edge gives (index, "", src, dst, rank, text); the text is the first listed field's value, whether or not that value is a string |
| `Listener.NoPickNoEntries` | src/kvstore/plugins/elasticsearch/ESListener.cpp:63-73 | a batch with no indexed record records no bulk call and has no record that aborts |
| `Listener.BatchLogConcat` | src/kvstore/plugins/elasticsearch/ESListener.cpp:63-65 | records are handled in batch order: when one batch is split into two parts, its bulk calls are those of the first part followed by those of the second |
| `Listener.NonStringValueStillPicked` | src/kvstore/plugins/elasticsearch/ESListener.cpp:95-103 | a tag whose indexed value is not a string is still picked, with the text that reading the value as a string yields |
| `Listener.PutAndRemoveShareDocument` | src/kvstore/plugins/elasticsearch/ESListener.cpp:55-58 | a put and a remove of the same key give one upsert and one delete with the same index, identity fields and document id; only the upsert carries the text |
| `Listener.ESListener.Callback` | src/kvstore/plugins/elasticsearch/ESListener.cpp:48-62 | a put appends an upsert and a remove appends a delete; any other op appends nothing and stops the process |
| `Listener.ESListener.Apply` | src/kvstore/plugins/elasticsearch/ESListener.cpp:46-74 | stops the process exactly when an indexed record has an op other than put or remove. Otherwise, with nothing accumulated it issues no request and returns true; with something accumulated it submits the grouping of the batch's calls once and returns the submission's outcome. The offset file is untouched |
| `Listener.ESListener.WriteAppliedId` | src/kvstore/plugins/elasticsearch/ESListener.cpp:182-199 | succeeds exactly when all 24 bytes were written. A failed open leaves the file as it was; otherwise the file becomes the first bytes written of the encoded record |
| `Listener.ESListener.Persist` | src/kvstore/plugins/elasticsearch/ESListener.cpp:133-138 | a failed write stops the process; after a successful one, the file is exactly the 24-byte record and the reads return (lastId, lastTerm) and lastApplyLogId. Before the process stops, a failed open has left the file unchanged and a short write has left the first bytes of the record |
| `Listener.ESListener.LastCommittedLogId` | src/kvstore/plugins/elasticsearch/ESListener.cpp:140-161 | without an offset file the pair is (0, 0); with one, the read succeeds exactly when the file holds at least 16 bytes, and then those bytes are the encodings of the returned logId and termId |
| `Listener.ESListener.LastApplyLogId` | src/kvstore/plugins/elasticsearch/ESListener.cpp:163-180 | without an offset file the id is 0; with one, the read succeeds exactly when the file holds at least 24 bytes, and then bytes 16-23 are the encoding of the returned id |
| `Listener.ColdStartReadsZero` | src/kvstore/plugins/elasticsearch/ESListener.cpp:140-180 | without an offset file, the committed pair reads as (0, 0) and the applied id as 0 |
| `Listener.RecordReadsBack` | src/kvstore/plugins/elasticsearch/ESListener.cpp:140-180 | a complete record reads back as the three values written |
| `Listener.TornRecordAborts` | src/kvstore/plugins/elasticsearch/ESListener.cpp:150-177 | from a record cut short at n < 24 bytes, reading the applied id stops the process; reading the committed pair stops it exactly when n < 16 |
| `FTIndexUtils.NeedTextSearchDecidesOutcome` | src/graph/util/FTIndexUtils.cpp:15-26 | with an adapter that always answers, the search succeeds exactly for the expressions `needTextSearch` accepts (the four text-search kinds); every other expression gets the semantic error "text search expression error" |
| `FTIndexUtils.OperationForInjective` | src/graph/util/FTIndexUtils.cpp:83-99 | each of the four text-search kinds goes to its own adapter operation |
| `FTIndexUtils.TextSearchQuery` | src/graph/util/FTIndexUtils.cpp:80-103 | there is an adapter call exactly for the expressions `NeedTextSearch` accepts (fuzzy, prefix, regexp, wildcard); it uses the kind's operation, the given index and the expression's pattern |
| `FTIndexUtils.RetryBudget` | src/graph/util/FTIndexUtils.cpp:105 | at least one attempt, and exactly the configured retry count when that is positive |
| `FTIndexUtils.TextSearchOutcome` | src/graph/util/FTIndexUtils.cpp:78-115 | only a text-search expression can yield a successful search |
| `FTIndexUtils.RetriedFirstSuccess` | src/graph/util/FTIndexUtils.cpp:107-113 | when attempt k is the first to succeed within the bound, its result is returned |
| `FTIndexUtils.RetriedAllFail` | src/graph/util/FTIndexUtils.cpp:105-114 | when every attempt within the bound fails, the last attempt's failure is returned |
| `FTIndexUtils.TextSearchRejectsOtherKinds` | src/graph/util/FTIndexUtils.cpp:100-102 | any other expression kind yields the semantic error "text search expression error"; a text-search expression yields one of the adapter's answers within the bound |
| `FTIndexUtils.TextSearch` | src/graph/util/FTIndexUtils.cpp:78-115 | another expression kind makes no adapter call. A text-search expression makes between 1 and max(retry, 1) calls of the same query. Every call before the last failed, the last call's answer is returned, and stopping early means that answer succeeded, so an always-failing adapter is called exactly max(retry, 1) times |
| `FTIndexUtils.EqualityFilterAcceptsMatches` | src/graph/util/FTIndexUtils.cpp:57-75 | with no match there is no filter; otherwise the filter keeps a row exactly when its property value is one of the matched texts |
| `FTIndexUtils.RewriteTSFilter` | src/graph/util/FTIndexUtils.cpp:47-76 | a search failure is passed on unchanged. Zero matches give no filter and one match gives `prop == text`. n > 1 matches give the OR of n equalities in match order. The property is an edge property when `isEdge` holds and a tag property otherwise, with the same `from` and `prop` |
| `FTIndexUtils.BuildClients` | src/graph/util/FTIndexUtils.cpp:36-43 | one client per service entry, in order, with protocol defaulting to "http" and user and password to "" |
| `FTIndexUtils.GetESAdapter` | src/graph/util/FTIndexUtils.cpp:28-45 | a failed lookup is passed on; an empty list fails with "No text search client found"; otherwise a new adapter holds one client per entry with the defaults above |

## Left out

- `ESListener::init` is not modelled. It consists of schema and catalog lookups that end in `LOG(FATAL)`.
- `ESClient.cpp` is not part of this model: URL formatting, HTTP calls, curl error mapping and JSON parsing. Bulk and search calls are parameters whose outcomes are given.
- The `ESAdapter` operation bodies are not part of this model: `createIndex`, `dropIndex`, `clearIndex`, `isIndexExist`, `bulk`, `prefix`, `fuzzy`, `regexp`, `wildcard`, `query` and `randomClient`. Random endpoint selection is folded into the search oracle, whose answer may differ per attempt.
- `genDocID`'s hash is not part of this model. Because it is a Dafny function value, equal inputs give equal ids by construction. The claim that vertex ids and edge ids never collide cannot be stated without its body.
- The wire format of the bulk body (newline-delimited JSON) is not modelled. The accumulator keeps actions as values.
- `ExpressionUtils::pushOrs` is not part of this model. Its result is taken to be one logical OR whose operands are the equalities in match order.
- Row decoding, key layout and the full-text index catalog are parameters. An index definition is assumed to list at least one field: the C++ code calls `front()` on the list without a check.
- `textSearch` reads the predicate's pattern before it checks the expression's kind. The model reads the pattern only for text-search kinds.
- File-system errors other than a failed `open` or a short `write` are not modelled: a failed `open` for reading, `close`, and errno values. The host's byte order is taken to be little-endian.
- Logging is not modelled. Concurrency is out of scope: one caller applies batches in order.
- The retry flag is a `retryTimes` parameter.
- The external search engine's document state is not modelled. Replay idempotence of re-applied batches is therefore not stated.
