# Nexus: constrained task executor and remote index updater

This project models two parts of Nexus in Dafny and proves properties about them.

**`ConstrainedExecutorImpl`** runs at most one background task per key (a repository id).
- `mayExecute` ("run if idle") submits a task only when no task is registered for its key.
- `mustExecute` ("cancel and replace") cancels the registered task, then always registers and submits the new one.
- Each task is wrapped. The wrapper takes its key's single permit, runs the task body and then, in a `finally` step (`cancelableStopping`):
  - removes its registry entry, unless the wrapper was cancelled;
  - releases the permit in every case.

**`DefaultIndexUpdater.fetchAndUpdateIndex`** brings a local Maven repository index up to date with a remote one. It reads the remote `nexus-maven-repository-index.properties` and then does one of three things:
- merges the incremental chunks that the incremental handler names;
- reports that the index is already up to date (returns no timestamp);
- replaces the index with the full remote one, `.gz` first, then the legacy `.zip` when the `.gz` load throws a FileNotFoundException. That exception may come from the retrieve or from any later step of the load.

Each load (`loadIndexDirectory`) runs these steps in a fixed order:
1. retrieve;
2. unpack;
3. optionally filter the documents;
4. merge or replace;
5. run the side-effect hooks;
6. clean up.

**`DefaultIndexUpdater.fetchIndexProperties(context, fetcher)`** only connects, downloads the remote properties and disconnects.

## Files

- `constrained_executor.dfy`, module `ConstrainedExecutor`. Classes `Executor`, `Wrapper`, `Semaphore` and `Runnable` whose methods update their fields in place.
  - The executor's invariant is `Executor.Valid()`:
    - every registry entry is a submitted wrapper of that key that is neither cancelled nor finished;
    - every such wrapper is registered;
    - a key has at most one permit;
    - at most one wrapper of a key is running, and while it runs the permit is taken.
  - Each method keeps the invariant.
  - The background thread is modelled by two things:
    - the list `submitted`;
    - each wrapper's `phase` (Queued, Running, Finished, Interrupted).
  - The steps `CancelableStarting` and `CancelableStopping`, or `Run` for both, advance the phase. A blocked `acquire` is the outcome `Blocked`.
- `index_directory.dfy`, module `IndexDirectory`. Lucene directories are sequences of slots (a document plus a deleted flag). It holds the loops `filterDirectory`, `copyUpdatedDocuments` and `unpackDirectory`, each as a method proved equal to a specification function, with lemmas about those functions.
- `index_updater.dfy`, module `IndexUpdater`. The update protocol.
  - Every collaborator is a function-valued input that gives the outcome of each call. A call that can throw gives either its value or the exception it throws (FileNotFound or another IOException), so a FileNotFoundException can come from any step of a load. The collaborators are:
    - the resource fetcher (`connect`, `retrieve`, `disconnect`);
    - the Lucene calls of `filterDirectory`;
    - `Properties.load`;
    - date parsing;
    - the index data reader;
    - the zip reader;
    - the writes of the unzipped files into the raw index (`unpackDirectory`);
    - Lucene's reader;
    - the writer of `copyUpdatedDocuments`;
    - `IndexUtils.getTimestamp` and `IndexUtils.updateTimestamp`;
    - the document updater;
    - `merge`/`replace`;
    - the side effects;
    - the incremental handler.
  - What the updater does is recorded as a trace of actions: connect, create the temporary files, retrieve(name), unpack, filter, merge/replace(documents), side effect(i, merge), delete the archive, delete the directory, disconnect.
  - The specification functions `Load` and `Fetch` give the result and the trace. The methods `LoadIndexDirectory` and `FetchAndUpdateIndex` compute them step by step and are proved equal to them.
- `wrappers.dfy`: `Option`.


## Model

| member | source | states |
|---|---|---|
| `ConstrainedExecutor.Executor.constructor` | nexus-core/src/main/java/org/sonatype/nexus/util/task/executor/ConstrainedExecutorImpl.java:60-65 | The executor starts with no registered task, no semaphore and nothing submitted; the invariant holds. |
| `ConstrainedExecutor.Executor.GetStatistics` | nexus-core/src/main/java/org/sonatype/nexus/util/task/executor/ConstrainedExecutorImpl.java:67-71 | Returns exactly the registry's key set. Under the invariant, these are exactly the keys of submitted wrappers that are neither cancelled nor finished. |
| `ConstrainedExecutor.Executor.MayExecute` | nexus-core/src/main/java/org/sonatype/nexus/util/task/executor/ConstrainedExecutorImpl.java:73-87 | Returns true iff the key had no entry. If it had one, the registry and submissions are unchanged. Otherwise exactly one fresh, uncancelled, queued wrapper for the key and command is registered and submitted, and other keys' entries are untouched. The invariant is kept. |
| `ConstrainedExecutor.Executor.MustExecute` | nexus-core/src/main/java/org/sonatype/nexus/util/task/executor/ConstrainedExecutorImpl.java:89-103 | Returns whether a wrapper was registered for the key. If one was, it and its runnable are cancelled and its phase is unchanged. A fresh wrapper then replaces the entry and is appended to the submissions, and other keys' entries are untouched. The invariant is kept. |
| `ConstrainedExecutor.Executor.Register` | nexus-core/src/main/java/org/sonatype/nexus/util/task/executor/ConstrainedExecutorImpl.java:99-101 | Wrapping, `put` and `execute`. It needs a key with no live wrapper; afterwards the registry maps the key to the fresh wrapper, the submissions end with it, and the invariant is restored. |
| `ConstrainedExecutor.Executor.GetSemaphore` | nexus-core/src/main/java/org/sonatype/nexus/util/task/executor/ConstrainedExecutorImpl.java:107-120 | A key's first call creates and stores a fresh semaphore with one permit. Every later call returns that same object, with the semaphore map unchanged. |
| `ConstrainedExecutor.Executor.CancelableStarting` | nexus-core/src/main/java/org/sonatype/nexus/util/task/executor/ConstrainedExecutorImpl.java:122-127 | Gets the key's semaphore, then acquires. An interrupted thread gets InterruptedWaiting. A free permit is taken and the wrapper is Running. A taken permit leaves the wrapper Queued (Blocked). The registry is unchanged. |
| `ConstrainedExecutor.Executor.Acquire` | nexus-core/src/main/java/org/sonatype/nexus/util/task/executor/ConstrainedExecutorImpl.java:126 | `Semaphore.acquire` on a permit of at most one. The outcome is Acquired exactly when not interrupted and the permit is free, and then the permit becomes 0. |
| `ConstrainedExecutor.Executor.CancelableStopping` | nexus-core/src/main/java/org/sonatype/nexus/util/task/executor/ConstrainedExecutorImpl.java:129-137 | An uncancelled wrapper removes its key's entry, which is its own. A cancelled (superseded) wrapper leaves the registry, and so its successor, unchanged. Either way the permit returns to 1 and the wrapper is Finished. |
| `ConstrainedExecutor.Executor.Run` | nexus-core/src/main/java/org/sonatype/nexus/util/task/executor/ConstrainedExecutorImpl.java:171-190 | If interrupted while acquiring, neither the body nor stopping runs, the registry is unchanged and the key's permit is as it was. If the permit is taken, the thread waits, the registry is unchanged and the permit is still taken. Otherwise stopping runs after the body whether or not the body throws, and the permit is free again. In every case the key has a semaphore afterwards, and no other key's semaphore is added, removed or replaced. |
| `ConstrainedExecutor.Wrapper.constructor` | nexus-core/src/main/java/org/sonatype/nexus/util/task/executor/ConstrainedExecutorImpl.java:152-159 | A new wrapper holds its key and runnable, is not cancelled, and is Queued. |
| `ConstrainedExecutor.Wrapper.IsCanceled` | nexus-core/src/main/java/org/sonatype/nexus/util/task/executor/ConstrainedExecutorImpl.java:192-196 | Reports the wrapper's own cancel flag. |
| `ConstrainedExecutor.Wrapper.Cancel` | nexus-core/src/main/java/org/sonatype/nexus/util/task/executor/ConstrainedExecutorImpl.java:198-203 | Cancels the inner runnable and sets the wrapper's flag; the phase is unchanged. |
| `ConstrainedExecutor.PreemptRunning` | nexus-core/src/main/java/org/sonatype/nexus/util/task/executor/ConstrainedExecutorImpl.java:73-103 | A task for key k is running. A second `mayExecute(k)` is refused. `mustExecute(k)` cancels the running wrapper and registers the successor, which is queued while the permit is taken. |
| `ConstrainedExecutor.Preemption` | nexus-core/src/main/java/org/sonatype/nexus/util/task/executor/ConstrainedExecutorImpl.java:122-137 | Continuing that run: the successor blocks, and the displaced wrapper's stopping leaves the successor registered. The successor then acquires and runs, its stopping clears k, and both wrappers end Finished. |
| `IndexDirectory.LiveDocsMembers` | nexus-indexer/src/main/java/org/sonatype/nexus/index/updater/DefaultIndexUpdater.java:367-373 | A document is among a reader's live documents exactly when some non-deleted slot holds it. |
| `IndexDirectory.SelectAccepts` | nexus-indexer/src/main/java/org/sonatype/nexus/index/updater/DefaultIndexUpdater.java:402-405 | Every document the filter selects is accepted by it. |
| `IndexDirectory.FreshLiveDocs` | nexus-indexer/src/main/java/org/sonatype/nexus/index/updater/DefaultIndexUpdater.java:370-373 | A freshly written index enumerates exactly the documents written, in order. |
| `IndexDirectory.NumDocsWithoutDeletions` | nexus-indexer/src/main/java/org/sonatype/nexus/index/updater/DefaultIndexUpdater.java:393 | Without deletions, numDocs equals maxDoc. |
| `IndexDirectory.FilteredLiveDocs` | nexus-indexer/src/main/java/org/sonatype/nexus/index/updater/DefaultIndexUpdater.java:385-409 | After filtering (all slots examined), the live documents are exactly the previously live ones the filter accepts, in order. |
| `IndexDirectory.FilterRemovesRejected` | nexus-indexer/src/main/java/org/sonatype/nexus/index/updater/DefaultIndexUpdater.java:402-405 | After filtering, no live document is rejected by the filter. |
| `IndexDirectory.FilterAsWrittenKeepsRejected` | nexus-indexer/src/main/java/org/sonatype/nexus/index/updater/DefaultIndexUpdater.java:393-395 | Counterexample: a deleted slot followed by a live document the filter rejects. The loop bounded by numDocs leaves that document live; the loop over every slot deletes it. |
| `IndexDirectory.FilterAsWrittenAgreesWithoutDeletions` | nexus-indexer/src/main/java/org/sonatype/nexus/index/updater/DefaultIndexUpdater.java:393-408 | On an index without deleted slots, the loop as written and the corrected loop give the same result. |
| `IndexDirectory.FilterDirectory` | nexus-indexer/src/main/java/org/sonatype/nexus/index/updater/DefaultIndexUpdater.java:385-409 | In place on the array: deleted slots are skipped, and exactly the examined live documents the filter rejects become deleted. Every slot is examined (corrected bound). |
| `IndexDirectory.FilterDirectoryAsWritten` | nexus-indexer/src/main/java/org/sonatype/nexus/index/updater/DefaultIndexUpdater.java:393-408 | The same loop with the bound as written: only slots below numDocs are examined, and the rest are unchanged. |
| `IndexDirectory.CopyUpdatedDocuments` | nexus-indexer/src/main/java/org/sonatype/nexus/index/updater/DefaultIndexUpdater.java:357-383 | Writes the updated version of every non-deleted source document, in index order, and nothing else. |
| `IndexDirectory.ExtractedFiles` | nexus-indexer/src/main/java/org/sonatype/nexus/index/updater/DefaultIndexUpdater.java:328-348 | A name is unpacked iff some entry with that name is neither a directory nor contains '/'. Its content is the full data of the last such entry. |
| `IndexDirectory.UnpackDirectory` | nexus-indexer/src/main/java/org/sonatype/nexus/index/updater/DefaultIndexUpdater.java:315-355 | The entry loop, with the inner 4096-byte chunk loop, produces exactly the extracted file map. |
| `IndexUpdater.GetTimestamp` | nexus-indexer/src/main/java/org/sonatype/nexus/index/updater/DefaultIndexUpdater.java:488-505 | The result is present iff the key is present and its value parses, and is then the parsed value. A missing key or an unparsable value gives no timestamp, never an error. |
| `IndexUpdater.LoadLocallyStoredRemoteProperties` | nexus-indexer/src/main/java/org/sonatype/nexus/index/updater/DefaultIndexUpdater.java:431-459 | An unreadable stored file gives no properties instead of an error; a readable one gives its loaded properties. |
| `IndexUpdater.LegacyTimestampIgnored` | nexus-indexer/src/main/java/org/sonatype/nexus/index/updater/DefaultIndexUpdater.java:97-119 | When the canonical timestamp is present, the legacy key's value, whatever it is, does not change the timestamp used. |
| `IndexUpdater.FirstFailure` | nexus-indexer/src/main/java/org/sonatype/nexus/index/updater/DefaultIndexUpdater.java:248-254 | Every side effect before the returned position returns normally. The one at that position throws, unless every side effect returns normally. |
| `IndexUpdater.RunSideEffects` | nexus-indexer/src/main/java/org/sonatype/nexus/index/updater/DefaultIndexUpdater.java:248-254 | Calls the side effects in list order, with one merge flag, up to and including the first that throws. It reports an exception exactly when one is thrown, and that exception is the one the first throwing side effect threw. |
| `IndexUpdater.UnpackIndexArchive` | nexus-indexer/src/main/java/org/sonatype/nexus/index/updater/DefaultIndexUpdater.java:287-313 | Steps, in order: unzip; write the flat entries into the raw index; open it; copy its live documents, updated, into the new index; read the raw index's timestamp; stamp it onto the new index. The first exception from unzipping, writing, opening, copying or stamping is passed on unchanged. Equal to `ArchiveContents`. |
| `IndexUpdater.ApplyUnpacked` | nexus-indexer/src/main/java/org/sonatype/nexus/index/updater/DefaultIndexUpdater.java:234-256 | Filter the new index in place if asked (the loop as written), then merge or replace, then the side effects. Equal to `Apply`. |
| `IndexUpdater.FilterNewIndex` | nexus-indexer/src/main/java/org/sonatype/nexus/index/updater/DefaultIndexUpdater.java:234-237 | `filterDirectory` run with its loop as written on the freshly written index leaves live exactly the documents the filter accepts, in order. |
| `IndexUpdater.MergeAndNotify` | nexus-indexer/src/main/java/org/sonatype/nexus/index/updater/DefaultIndexUpdater.java:239-254 | Merge or replace, then the side effects in order. Its result is the first exception thrown by merge/replace or a side effect, else the timestamp. Equal to `Notified`. |
| `IndexUpdater.ApplicableAccepted` | nexus-indexer/src/main/java/org/sonatype/nexus/index/updater/DefaultIndexUpdater.java:234-246 | With a filter, merge/replace receives exactly the unpacked documents the filter accepts, in order. The loop as written, bounded by numDocs, gives the same documents, because the new index has no deleted slots. Without a filter, merge/replace receives all the unpacked documents. |
| `IndexUpdater.ApplyAppliesOnce` | nexus-indexer/src/main/java/org/sonatype/nexus/index/updater/DefaultIndexUpdater.java:234-246 | Applying unpacked data performs exactly one merge or replace, chosen by the flag, of the accepted documents. If the filter step throws, it performs none. |
| `IndexUpdater.ApplyRunsHooks` | nexus-indexer/src/main/java/org/sonatype/nexus/index/updater/DefaultIndexUpdater.java:248-254 | The side-effect calls form a prefix of all side effects in list order, with the load's flag. On success they are all of them. |
| `IndexUpdater.ApplySucceeds` | nexus-indexer/src/main/java/org/sonatype/nexus/index/updater/DefaultIndexUpdater.java:234-256 | Applying succeeds, with the unpacked timestamp, iff the filter step, merge/replace and every side effect return normally. Otherwise its failure is what the first of them to throw threw, of whatever kind, FileNotFound included. |
| `IndexUpdater.Load` | nexus-indexer/src/main/java/org/sonatype/nexus/index/updater/DefaultIndexUpdater.java:196-278 | Every load starts by creating the temporary files and retrieving its name, and ends by deleting the archive and then the directory, whatever happened. A file that is not found fails the load with FileNotFound, and a transport error fails it with an IOException. An empty archive that loads gives no timestamp. |
| `IndexUpdater.LoadIndexDirectory` | nexus-indexer/src/main/java/org/sonatype/nexus/index/updater/DefaultIndexUpdater.java:196-278 | The step-by-step load computes exactly `Load`'s result and trace. |
| `IndexUpdater.LoadOrdered` | nexus-indexer/src/main/java/org/sonatype/nexus/index/updater/DefaultIndexUpdater.java:211-272 | A load's steps come in the fixed order create, retrieve, unpack, filter, merge/replace, side effects, delete archive, delete directory. |
| `IndexUpdater.LoadRetrievesOnce` | nexus-indexer/src/main/java/org/sonatype/nexus/index/updater/DefaultIndexUpdater.java:211 | A load retrieves its own file exactly once and nothing else. |
| `IndexUpdater.LoadKeepsConnection` | nexus-indexer/src/main/java/org/sonatype/nexus/index/updater/DefaultIndexUpdater.java:196-278 | A load neither connects nor disconnects. |
| `IndexUpdater.LoadAppliesOnce` | nexus-indexer/src/main/java/org/sonatype/nexus/index/updater/DefaultIndexUpdater.java:234-246 | Once the archive is unpacked and the filter step has returned normally, a load performs exactly one merge or replace, of the accepted documents; otherwise it performs none. A successful load always gets that far. It is a merge iff the flag says so. With a filter and an unpacked archive, the filter step is in the trace. |
| `IndexUpdater.LoadRunsHooks` | nexus-indexer/src/main/java/org/sonatype/nexus/index/updater/DefaultIndexUpdater.java:248-254 | A load's side-effect calls are a prefix of all side effects in list order, each with the load's merge flag. A successful load calls all of them. |
| `IndexUpdater.FirstFailing` | nexus-indexer/src/main/java/org/sonatype/nexus/index/updater/DefaultIndexUpdater.java:106-113 | Every load before the returned position succeeds, and the one at that position fails, unless every load succeeds. |
| `IndexUpdater.LoadAllRetrieves` | nexus-indexer/src/main/java/org/sonatype/nexus/index/updater/DefaultIndexUpdater.java:106-113 | For any chunk load that retrieves exactly its own name, the loop retrieves all names in order when it succeeds. When it fails, it retrieves the names up to and including the first whose load fails (`FirstFailing`). |
| `IndexUpdater.LoadAllSucceeds` | nexus-indexer/src/main/java/org/sonatype/nexus/index/updater/DefaultIndexUpdater.java:108-111 | For any chunk load, the loop succeeds iff no load fails (`FirstFailing` is past the end). Otherwise its failure is that of the first failing load. |
| `IndexUpdater.LoadAllMerges` | nexus-indexer/src/main/java/org/sonatype/nexus/index/updater/DefaultIndexUpdater.java:108-111 | For any chunk load that only merges and does not touch the connection, the loop does neither. |
| `IndexUpdater.FirstFailedLoad` | nexus-indexer/src/main/java/org/sonatype/nexus/index/updater/DefaultIndexUpdater.java:106-113 | Every chunk load before the returned position succeeds, and the one at that position fails, unless every chunk load succeeds. |
| `IndexUpdater.LoadEachRetrieves` | nexus-indexer/src/main/java/org/sonatype/nexus/index/updater/DefaultIndexUpdater.java:106-113 | The incremental loop retrieves the named files in list order, up to and including the first whose load fails (`FirstFailedLoad`), and all of them when it succeeds. |
| `IndexUpdater.LoadEachSucceeds` | nexus-indexer/src/main/java/org/sonatype/nexus/index/updater/DefaultIndexUpdater.java:108-111 | The incremental loop succeeds iff every chunk load does. Otherwise it fails with exactly the failure of the first failing chunk load (`FirstFailedLoad`), and every earlier load succeeded. |
| `IndexUpdater.LoadEachMerges` | nexus-indexer/src/main/java/org/sonatype/nexus/index/updater/DefaultIndexUpdater.java:108-111 | The incremental loop only merges, never replaces, and does not touch the connection. |
| `IndexUpdater.MergeIncrementally` | nexus-indexer/src/main/java/org/sonatype/nexus/index/updater/DefaultIndexUpdater.java:108-111 | The loop over the file names computes exactly `LoadEach`. |
| `IndexUpdater.FullLoadFallback` | nexus-indexer/src/main/java/org/sonatype/nexus/index/updater/DefaultIndexUpdater.java:129-137 | The full update retrieves the ".gz", then the ".zip" exactly when the ".gz" load throws FileNotFound, from its retrieve or from any later step; a ".gz" that is not found is one such case. Any other outcome of the ".gz" load is the result; otherwise the ".zip" load's result is. It only replaces. |
| `IndexUpdater.SideEffectNotFoundFallsBack` | nexus-indexer/src/main/java/org/sonatype/nexus/index/updater/DefaultIndexUpdater.java:129-137 | When the ".gz" is retrieved and unpacked and merge/replace returns normally, but the first side effect throws FileNotFound, the full update still retrieves the ".zip", and its result is the ".zip" load's result. |
| `IndexUpdater.FullUpdate` | nexus-indexer/src/main/java/org/sonatype/nexus/index/updater/DefaultIndexUpdater.java:129-137 | The try/catch computes exactly `FullLoad`. |
| `IndexUpdater.Fetch` | nexus-indexer/src/main/java/org/sonatype/nexus/index/updater/DefaultIndexUpdater.java:83-142 | Every path begins with connect. Once connected, every path ends with disconnect. |
| `IndexUpdater.FetchDisconnects` | nexus-indexer/src/main/java/org/sonatype/nexus/index/updater/DefaultIndexUpdater.java:83-142 | When connect throws, the update ends with that exception, with nothing retrieved and no disconnect. Otherwise the connection actions are exactly one connect and then one disconnect, on every path. A disconnect that throws replaces the body's result with its exception; otherwise the body's result stands. |
| `IndexUpdater.FetchIndexPropertiesShape` | nexus-indexer/src/main/java/org/sonatype/nexus/index/updater/DefaultIndexUpdater.java:170-183 | `fetchIndexProperties`: a failed connect ends it with that exception and nothing else. Otherwise it retrieves only the properties file and then disconnects. It yields the remote properties exactly when the retrieve and disconnect return normally. When only the retrieve fails, it fails with the retrieve's exception. An unforced update starts with the same connect and retrieve. |
| `IndexUpdater.FetchAndUpdateIndex` | nexus-indexer/src/main/java/org/sonatype/nexus/index/updater/DefaultIndexUpdater.java:64-143 | The step-by-step update computes exactly `Fetch`'s result and trace. |
| `IndexUpdater.IncrementalPath` | nexus-indexer/src/main/java/org/sonatype/nexus/index/updater/DefaultIndexUpdater.java:100-114 | Once connected, taken when the canonical timestamp is present and the handler gives a list, even an empty one. The chunks are retrieved in list order after the properties, up to and including the first whose load fails. No full index is retrieved, and only merges happen. The update succeeds iff every chunk load does and disconnect returns normally, and then returns the canonical timestamp. When disconnect returns normally and the update fails, it fails with the first failing chunk load's exception. |
| `IndexUpdater.UpToDateShortCircuit` | nexus-indexer/src/main/java/org/sonatype/nexus/index/updater/DefaultIndexUpdater.java:121-126 | Once connected, with no incremental list, when both timestamps are known and the remote one is not after the context's: the trace is connect, retrieve properties, disconnect. The result is no timestamp, unless disconnect throws. |
| `IndexUpdater.SecondFetchIsNoOp` | nexus-indexer/src/main/java/org/sonatype/nexus/index/updater/DefaultIndexUpdater.java:87-126 | After a successful incremental update, a second update with the context stamped at the timestamp it returned loads nothing and returns no timestamp, provided the handler now gives no list. (If it gave a list, even an empty one, the second update would take the incremental branch again.) |
| `IndexUpdater.StaleFullUpdate` | nexus-indexer/src/main/java/org/sonatype/nexus/index/updater/DefaultIndexUpdater.java:121-137 | Otherwise (either timestamp unknown, or the remote one is newer), once connected, the properties retrieve is followed by the full update, replacing only. It retrieves the ".gz", then the ".zip" only when the ".gz" load throws FileNotFound from any of its steps. Its result is the update's result, unless disconnect throws. |
| `IndexUpdater.ForcedFullUpdate` | nexus-indexer/src/main/java/org/sonatype/nexus/index/updater/DefaultIndexUpdater.java:89-137 | Once connected, a forced update retrieves no properties. Its retrieves are the ".gz", then the ".zip" only when the ".gz" load throws FileNotFound from any of its steps. It only replaces, and its result is the full update's, unless disconnect throws. |
| `IndexUpdater.ForcedIgnoresProperties` | nexus-indexer/src/main/java/org/sonatype/nexus/index/updater/DefaultIndexUpdater.java:87-91 | A forced update's result and trace do not depend on the stored or remote properties, date parsing, the context timestamp or the incremental handler. |
| `IndexUpdater.PropertiesRequired` | nexus-indexer/src/main/java/org/sonatype/nexus/index/updater/DefaultIndexUpdater.java:461-486 | Once connected, when the remote properties cannot be retrieved, the update fails with that error after one retrieve, and then disconnects. No full update is tried. Unless disconnect throws, it fails with FileNotFound iff the properties file was not found. |

## Left out

- **Threads, scheduling and blocking.**
  - `executor.execute` is appending to `submitted`.
  - A blocked `Semaphore.acquire` is the `Blocked` outcome of one step.
  - Monitors (`synchronized`) are not modelled: each method is one atomic step.
- **`Run` and the task body.** The body's own effects are not modelled; only whether it throws is an input.
- **Interrupted wrappers.** A wrapper interrupted while waiting for its permit keeps its registry entry, as in the source (nothing removes it). The model keeps that entry.
- **`Executor.Valid`** is kept by every method. There is no lemma beyond it about arbitrary interleavings of many wrappers.
- **`getStatistics`.** The `Statistics` wrapper object is left out; the model returns the key set itself.
- **Foreign calls in the updater.** Each is a function-valued input, so the model says nothing about what it computes, only what it returns or which exception it throws:
  - the resource fetcher and its transport, including `connect` and `disconnect`;
  - `IndexDataReader`;
  - `IndexUtils.updateDocument` and `getTimestamp`, which cannot fail in the model, and `updateTimestamp`, which may throw;
  - Lucene's reader and writers, including the writes of `unpackDirectory`;
  - `Properties.load`;
  - `SimpleDateFormat`.
- **Timestamps.** A `Date` is an integer, and `after` is strict `>`.
- **The JettyResourceFetcher.** It is not part of this model. It reports a missing file as a plain `IOException`, so with it the `.zip` fallback never fires. The model's fetcher may answer `NotFound`.
- **Lucene `optimize`/`flush`** only matter here through the exception they may throw. A directory is a sequence of slots. `filterDirectory`'s own Lucene calls (`IndexReader.open`, `deleteDocument`, the writer's `optimize` and `flush`) are one input, `filterIo`, which says whether and what they throw.
- **Failing document updates.** Exceptions thrown by `updateDocument` or by `DocumentFilter.accept` are not modelled. An exception from `copyUpdatedDocuments`'s reader is part of opening the raw index (`openIndex`), and one from its writer is `copyIo`.
- **Where in the legacy archive an exception arises.** The zip stream is read in full (`readZip`) before any entry is written (`storeFiles`). In the source, reads and writes interleave. So when both a read and a write would throw, the model reports the read's exception, whichever comes first in the stream.
- **Exceptions from `directory.close` and from closing streams** in the `finally` blocks are not modelled. Such an exception would replace the load's outcome.
- **`unpackIndexArchive` internals.** Its temporary store is not traced; only the result is.
- **Temporary files.** Failure to create a temporary file or directory is not modelled. A failure to delete the directory is ignored by the source and does not appear in the trace.
- **Exceptions from `Properties.load`** on the downloaded properties are not modelled; the loader is a total function. An unreadable stored properties file is modelled.
- **The deprecated overloads** of `fetchAndUpdateIndex` (lines 145-168) and of `fetchIndexProperties` (lines 185-194). They only build a request or a fetcher and then call the methods that are modelled. The non-deprecated `fetchIndexProperties(context, fetcher)` (lines 170-183) is modelled as `FetchIndexProperties`.
- **The `IndexingContext` constants.** The file name and the two property key strings are taken as `nexus-maven-repository-index`, `nexus.index.timestamp` and `nexus.index.time`. The behaviour only depends on the two keys being different.
- **The index created for an empty archive.** When the retrieved archive is empty, the model applies an empty directory. Lucene's own behaviour on such a directory is not modelled.

## Findings

| source | as written | input that shows it | evidently intended | confidence | as-written member | corrected member |
|---|---|---|---|---|---|---|
| nexus-indexer/src/main/java/org/sonatype/nexus/index/updater/DefaultIndexUpdater.java:393-395 | `filterDirectory` visits document numbers `0 .. numDocs-1`. `numDocs` counts only live documents, but document numbers run to `maxDoc`. | Two slots: slot 0 deleted, slot 1 live with a document the filter rejects. numDocs is 1, so slot 1 is never examined and the rejected document stays in the index. | Examine every document number below `maxDoc`, so that every rejected document is deleted. | medium, not executed | `IndexDirectory.FilterAsWrittenKeepsRejected` | `IndexDirectory.FilterDirectory` |

On the paths shown, the directory being filtered has just been written (`unpackIndexData` opens its writer with create=true, line 517) and has no deleted slots. There the two bounds agree (`IndexDirectory.FilterAsWrittenAgreesWithoutDeletions`), so the defect is latent on these paths, which is why the confidence is only medium. In the model, `ApplyUnpacked` runs the loop as written (`FilterNewIndex`). The specification function `Apply` uses the corrected filter (`Filtered`, proved by `FilteredLiveDocs`). `ApplicableAccepted` proves that both give the same documents.
