# Ingestion into a vector index, modelled in Dafny

`index.js` is a one-shot script. Its `main` does three things, in order:

- Provisioning: it brings the serverless vector index `developer-quickstart-js` into a known configuration. It lists the indexes and deletes the target index if it is there. Then it always creates the index again: dimension 384, metric cosine, cloud `aws`, region `us-east-1`, and it waits until the index is ready.
- Record preparation: it reads a JSON document whose `design` array holds the elements to index. Elements without a truthy `id` are skipped. Each kept element becomes one record: the element's `id`, the embedding of the element's JSON serialisation, and that serialisation as metadata.
- Batch upsert: it upserts the records in slices of 100 and prints the number of each batch once its upsert has succeeded.

Every error thrown anywhere in `main` ends in its one `catch`, which only reports the error.

The model keeps the source's form:

- `Data` (data.dfy): the values the script handles. These are parsed JSON, JavaScript truthiness and the property read `v.key` (which throws on `null`), and the record it upserts.
- `Records` (records.dfy): the `design` check; `Prepare`, a function that specifies record preparation; and `PrepareRecords`, the `for…of` loop with its `continue`, proved equal to `Prepare`.
- `Batching` (batching.dfy): `Batches`, the consecutive slices of at most a given size, and what the upsert loop relies on about them.
- `Pinecone` (pinecone.dfy): the vector database as the script sees it. `Service` is its state: the indexes with their configuration and vectors, the log of every call received, and the positions in that log of the calls it fails. `Perform` is one call's effect on that state. `Client` is a class holding the state. Each of its methods (listIndexes, deleteIndex, createIndex, upsert) updates its fields exactly as `Perform` says.
- `Ingest` (ingest.dfy): the body of `main`.
  - `Run` is a function that specifies one whole run from a service state. It returns the outcome, the resulting service, and the batch numbers printed.
  - `RunIngestion` is `main` written as a method against a `Client`. `UpsertInBatches` is the batch loop. Both are proved to do exactly what `Run` and `SendBatches` say.
  - The lemmas about `Run` state what a run does to the remote index and its call log.

The embedding pipeline and `JSON.stringify` are parameters: `embed` and `stringify`. `embed` returns `None` where the pipeline would throw. Whether the service answers a given call or fails it is also an input: the service's set of rejected call positions.

Four behaviours of the code are worth knowing, and the model keeps each of them:

- An embedding failure is not skipped per record. The loop has no `try`, so the throw ends the whole run (`Rejected(EmbeddingFailed)`).
- No embedding's length is checked against the index dimension 384. A mismatch reaches the service unchecked.
- An invalid input document is detected only after the index has been deleted and created again. A run that rejects its input therefore still leaves the target index recreated and empty.
- A failed run ends in the `catch`, which only logs the error. There is no summary of counts and no failing exit status. The outcome `Aborted(...)` names the step that threw.

## Model

| member | source | states |
|---|---|---|
| Data.Get | index.js:54 | The property read throws exactly on `null`. It yields a value exactly when the receiver is an object with that own field, and that value is the field. |
| Records.DesignArray | index.js:46-49 | The result is the `design` array's elements exactly when `data` is an object whose `design` is an array. `null` data throws a TypeError. Anything else is the script's own "no design array" error. |
| Records.KeptPositionsExact | index.js:53-57 | The positions of the kept elements are in range and strictly increasing. A position is among them exactly when its element's `id` is truthy. |
| Records.PrepareBuildsKept | index.js:53-65 | Successful preparation yields exactly one record per kept element, in input order. Record `j` has the `id` of the `j`-th kept element, metadata equal to that element's serialisation, and values equal to the embedding of that serialisation. |
| Records.PreparedIdsTruthy | index.js:54-57 | Every prepared record has a truthy id. |
| Records.PrepareSucceeds | index.js:53-59 | Preparation succeeds exactly when no element is `null` and every kept element can be embedded. |
| Records.PrepareAppend | index.js:52-66 | Preparing two consecutive runs of elements prepares each in turn and concatenates the records. The first failure wins. |
| Records.MissingIdSkipped | index.js:54-57 | From `[{"id":"a"}, {"x":"no-id"}, {"id":"b"}]` exactly two records come out: `a` then `b`. |
| Records.PrepareRecords | index.js:52-66 | The loop returns exactly what `Prepare` specifies: the records, or the first throw. |
| Ingest.TwoBannerRecords | index.js:46-66 | The two-element `design` document prepares to the two records built from its elements, in order. |
| Batching.ConcatBatches | index.js:77-78 | The slices, joined in order, are exactly the records. Nothing is lost, duplicated or reordered. |
| Batching.BatchSizes | index.js:76-78 | The number of batches is the least count whose multiple of the batch size covers the records, that is ceil(N/size). Each batch holds 1 to `size` records. Every batch but the last holds exactly `size`. |
| Batching.BatchAt | index.js:77-78 | Batch `k` starts at `k*size` and is the slice from there to `size` further or to the end. This is the source's `slice(i, i + size)` with its clamped end. |
| Batching.BatchCountBound | index.js:77 | Batch `k` exists exactly when `k*size` is below the record count. The loop runs once per batch. |
| Pinecone.UpsertedAppend | index.js:77-79 | Upserting two batches in turn is upserting their concatenation. |
| Pinecone.UpsertedContents | index.js:79 | After an upsert the index holds its old ids plus the batch's ids. An id of the batch maps to the last record with that id. Every other id keeps its vector. |
| Pinecone.LatestIsLast | index.js:79 | The record an id maps to after an upsert is a record of the batch with that id, and no later record in the batch has that id. |
| Pinecone.Client.constructor | index.js:10 | Stands for the service state a run starts from, not for building the client: a new client sees the given indexes and failing call positions, and has an empty call log. |
| Pinecone.Client.ListIndexes | index.js:16-17 | Logs the call. On success it returns the names of the existing indexes and changes nothing else. |
| Pinecone.Client.DeleteIndex | index.js:21 | Logs the call. It succeeds exactly when the call is not rejected and the index exists. Then the index is gone. |
| Pinecone.Client.CreateIndex | index.js:25-36 | Logs the call. It succeeds exactly when the call is not rejected and the name is free. Then the index exists, empty, with the given configuration. |
| Pinecone.Client.Upsert | index.js:79 | Logs the call. It succeeds exactly when the call is not rejected and the index exists. Then the index's vectors are the batch upserted into the old ones. |
| Ingest.SendBatchesCalls | index.js:77-81 | Sending batches makes one upsert call per batch, in order. Every call whose batch number was printed was answered, and a failed send ends right after the rejected call, so nothing follows a failed upsert. It ends normally exactly when the service answers every call. |
| Ingest.SendBatchesProgress | index.js:80 | The printed batch numbers run consecutively from the first batch's number. |
| Ingest.SendBatchesStore | index.js:77-80 | The target index ends holding the batches whose upsert succeeded, upserted in order. No other index changes. |
| Ingest.ProvisionSpec | index.js:16-36 | Provisioning makes the planned calls in order up to the first failure: list, then delete only when the target is listed, then create. It succeeds exactly when the service answers them all. On success the target index exists, empty, with dimension 384, cosine, aws and us-east-1. No other index changes. |
| Ingest.ProvisionStops | index.js:16-36 | Provisioning stops at the first failed call: every call before the last was answered, and a failure ends right after the rejected call. listIndexes failing, deleteIndex failing and createIndex failing are each exactly the rejection of that call after the earlier ones were answered. On success the log holds the whole plan. A failed listIndexes or deleteIndex leaves every index as it was. A failed createIndex leaves the target index deleted with nothing in its place, and every other index as it was. |
| Ingest.RunCalls | index.js:16-79 | A run's calls agree with the provisioning plan as far as both go. After the plan come only upserts into the target index. deleteIndex is called exactly when listIndexes answered and named the target index, so every upsert comes after delete and create. |
| Ingest.RunStops | index.js:46-71 | A provisioning failure happens exactly when the service fails a provisioning call. A missing or invalid `design`, or a throw while preparing, aborts the run exactly when provisioning succeeded and preparation fails. No records means a normal early end. In all these cases nothing is upserted and no batch number is printed. After a failed listIndexes or deleteIndex every index is as it was. After a failed createIndex the target index is gone, deleted without a replacement, and every other index is as it was. |
| Ingest.RunUpserts | index.js:76-87 | With records to send, the run ends normally exactly when the service answers every upsert. Otherwise it ends with an upsert failure. A normal end prints one number per batch. |
| Ingest.RunSends | index.js:77-79 | The batches sent, in call order, are the leading batches of the records: all of them on a normal end, or else the printed ones plus the one that failed. Nothing is sent after a failed upsert. |
| Ingest.RunHalts | index.js:77-87 | Counted from the start of the run, every upsert whose number was printed was answered, and a run that ends in an upsert failure was stopped by the rejection of the very next call: no batch is sent after a failed upsert. |
| Ingest.RunStores | index.js:77-80 | The printed numbers run 1, 2, …. The target index holds exactly the batches that were printed, upserted in order. |
| Ingest.RunDone | index.js:68-83 | A normal end needs at least one record. The batches sent, joined in order, are exactly the records. There are ceil(N/100) batches, each of 1 to 100 records, and one printed number per batch. The target index holds exactly the records, by id. |
| Ingest.RunOnlyTarget | index.js:12-39 | A run changes no index other than `developer-quickstart-js`. |
| Ingest.RunRepeatable | index.js:19-36 | When a run and a second run on the same input from its result both end normally, the second leaves the indexes exactly as the first did. |
| Ingest.TwoBannerRun | index.js:46-81 | From an empty service, the document with elements `e1` and `e2` ends normally and prints batch 1. The calls are list, create and one upsert carrying both records, each holding its element's serialisation and embedding. |
| Ingest.UpsertInBatches | index.js:76-81 | The batch loop leaves the client, the outcome and the printed numbers exactly as `SendBatches` specifies for the slices of 100. |
| Ingest.RunIngestion | index.js:5-88 | `main` leaves the client, the outcome and the printed numbers exactly as `Run` specifies for the starting service state. |

## Left out

- Loading `dotenv` and the `require` calls (index.js:1-4) run outside `main`; a failure there ends the process before `main` runs. Importing the transformers library, building the embedding pipeline and constructing the Pinecone client (index.js:7-10) are inside the `try`, so a failure there ends in the `catch`. None of this is modelled: it is configuration and I/O. The client's starting state is the argument of `Pinecone.Client.constructor`.
- Reading the file and `JSON.parse` (index.js:42-44). The model starts from the parsed value; a missing file or malformed JSON would end in the same `catch`. A numeric literal out of double range, which `JSON.parse` turns into `Infinity` or `-Infinity`, has no `Data.Json` value; it would be truthy like any other non-zero number.
- The embedding numerics (mean pooling, normalisation, the model weights). `embed` is an uninterpreted function whose `None` stands for a throw.
- The text that `JSON.stringify` produces, including key order. `stringify` is an uninterpreted function, and a JSON object is a map from keys to values.
- Console output other than the batch numbers, and the error the `catch` prints.
- `await` and concurrency. Calls are modelled as sequential steps, and nothing else acts on the service during a run.
- Client.ListIndexes: a response whose `indexes` field is missing (index.js:17 then treats the index as absent) is not modelled. A successful call always returns the list of names.
- Pinecone.Client.CreateIndex: a failed call is taken to change nothing. A failure after the service has already made the index, such as `waitUntilReady` (index.js:35) timing out, is not modelled: the model then has no target index, where the service may have one.
- Pinecone.Client.DeleteIndex: a failed call is taken to change nothing. A delete that the service carried out but reported as failed is not modelled.
- Pinecone.Upserted: within one batch, a repeated id ends holding the last record with that id. Nothing in this repository shows how the service treats duplicate ids inside one upsert. `Pinecone.UpsertedContents` and the "holds exactly the records, by id" clause of `Ingest.RunDone` rest on this assumption.
- Pinecone.Client.Upsert: the client library's own checks on records (for example that an id is a string) are not visible in this repository, so any record is accepted. A failed call is taken to change nothing: a partially applied batch is not modelled.
- The index handle `pinecone.index(indexName)` (index.js:39) is the target name passed to each upsert.
- Property reads of names defined on built-in prototypes. `Data.Get` models own fields only, which is all the script reads (`design`, `id`).
