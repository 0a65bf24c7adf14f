# keel-logger-ext in Dafny

A Dafny model of the sequential core of the Keel logging extension. The model covers:

- **Topic-partitioned queues and their drain cycle.**
  - `QueuedLogWriter` and `QueuedTopicRecordConsumer` keep one FIFO per topic.
  - One cycle drains a batch of at most `bufferSize()` records from every topic and hands each non-empty batch on.
  - The cycle then decides to stop, to sleep 100 ms or to go on.
- **Variants of that loop.**
  - `AbstractMetricRecorder`: one FIFO and a 1000-record batch; it re-arms its timer only while open.
  - `AsyncStdoutAdapter`: drains everything on every pass.
  - `SyncStdoutAdapter`: output is gated by a `closed` flag.
  - `QueuedLogRecorder`: appends to its own topic of a writer.
- **The SLF4J and Log4j2 bridges, both the `ext` ones and the older ones.**
  - The two level translations.
  - The threshold checks.
  - The entry a logging call builds and hands to the adapter.
  - Marker flattening.
  - The name-keyed logger caches of the factories and contexts.
- **Issue records and recorders.**
  - `AbstractIssueRecord` with its reserved attribute names and its lazily created context object.
  - The two abstract recorders with a settable visible level.
  - The two silent recorders.
  - The key-presence rules of `JsonifiableIssueRecord.toJsonObject`.

Objects whose fields the Java code updates are Dafny classes. Their methods state the whole new state. Values the code only builds or inspects (levels, entries, markers, JSON output) are datatypes and functions. Facts that relate several calls are lemmas.

The cycle is one method whose loop visits the topics in the order the key set enumerates them; the method returns that order. Its contract ties the new queues, the counter and the processed batches to specification functions over that order. The lemmas in `TopicBatching` prove the source's promises about those functions:

- batches are bounded FIFO prefixes;
- each non-empty batch is processed exactly once;
- the counter counts what was processed;
- no record is lost or duplicated;
- a cycle that starts with a backlog never stops;
- a batch whose handler future fails ends the cycle there: the topics after it keep their queues, and the repeated task ends.

Assumptions about code this model cannot see:

- `LogLevel` (from keel-logger-api) is the eight constants the exhaustive `switch` of the `ext` Log4j2 logger enumerates.
  - `isEnoughSeriousAs` is taken to be a comparison of ranks in the order TRACE, DEBUG, INFO, NOTICE, WARNING, ERROR, FATAL, SILENT.
  - `KeelLogLevel` is modelled by the same datatype.
- A fresh `Log` / `EventRecord` is taken to carry level INFO and nothing else.
- The attribute keys "level", "exception", "classification" and "message" are declared outside this model, and so are the JSON keys of `EventRecord`. Their values are assumed to be those names.
- `LogWriterAdapter` and `TopicRecordConsumer` are one recording class, `Records.RecordSink`.
- The adapter supplier's result is a parameter of each logging call and may be null.
- Keel's `asyncCallIteratively` visits the topics one after another and fails at the first failed future, without visiting the rest. A handler that throws is taken as a failed future. `eventually` runs its step and then passes the failure on, `asyncCallRepeatedly` ends with it, and `onComplete` undeploys. A parameter `succeeds` says which batches the handler's futures complete for.

Where the code and its surrounding documentation disagree, the model follows the code:

- The per-topic queues are `SynchronousQueue`s (see Findings).
- The `ext` Log4j2 context calls a four-argument logger constructor (`ext/log4j2/KeelLog4j2LoggerContext.java:55`). The `ext` logger declares only a five-argument one, with `verbose` (`ext/log4j2/KeelLog4j2Logger.java:29-42`). The model's context builds loggers with `verbose = false`.
- A `bufferSize()` below 1 still lets one record through per batch, because the poll loop checks the size only after adding. `TopicBatching.EffectiveCap` captures this.

## Model

All source paths are under `src/main/java/io/github/sinri/keel/logger/` unless written out.

| member | source | states |
|---|---|---|
| LogLevels.Rank | src/main/java/io/github/sinri/keel/logger/ext/log4j2/KeelLog4j2Logger.java:64-75 | the assumed severity order of the eight Keel levels: TRACE is exactly rank 0, SILENT exactly rank 7 |
| LogLevels.RankIsInjective | src/main/java/io/github/sinri/keel/logger/ext/log4j2/KeelLog4j2Logger.java:64-75 | distinct levels have distinct ranks, so the threshold test is a total order |
| LogLevels.SilentThresholdAdmitsOnlySilent | src/main/java/io/github/sinri/keel/logger/ext/log4j2/KeelLog4j2Logger.java:88-91 | at threshold SILENT only SILENT passes |
| LogLevels.StricterThresholdAdmitsLess | src/main/java/io/github/sinri/keel/logger/ext/log4j2/KeelLog4j2Logger.java:88-91 | a level that passes a higher threshold passes every lower one |
| TopicBatching.EffectiveCap | src/main/java/io/github/sinri/keel/logger/adapter/writer/QueuedLogWriter.java:50-58 | the batch cap is `bufferSize()` when it is at least 1, and 1 otherwise, because the size is checked after adding |
| TopicBatching.Batch | src/main/java/io/github/sinri/keel/logger/adapter/writer/QueuedLogWriter.java:48-59 | a batch is the FIFO prefix of length min(|queue|, cap) |
| TopicBatching.Rest | src/main/java/io/github/sinri/keel/logger/adapter/writer/QueuedLogWriter.java:48-59 | what stays queued is the suffix after the batch; batch + rest is the old queue |
| TopicBatching.BatchSplit | src/main/java/io/github/sinri/keel/logger/adapter/writer/QueuedLogWriter.java:48-59 | any split of a queue into a prefix of that length and a suffix is exactly (Batch, Rest) |
| TopicBatching.ElementsAreMembers | src/main/java/io/github/sinri/keel/logger/adapter/writer/QueuedLogWriter.java:45 | the topics an enumeration covers are exactly the elements of its sequence |
| TopicBatching.DistinctHasNoRepeats | src/main/java/io/github/sinri/keel/logger/adapter/writer/QueuedLogWriter.java:45-47 | the key set's enumeration visits no topic twice, in both directions of the definition |
| TopicBatching.EnumerationSnoc | src/main/java/io/github/sinri/keel/logger/adapter/writer/QueuedLogWriter.java:45-47 | appending a topic not yet covered extends an enumeration of a set to the set plus that topic |
| TopicBatching.EnumerateTopics | src/main/java/io/github/sinri/keel/logger/adapter/writer/QueuedLogWriter.java:45-47 | iterating a key set yields each key exactly once, in some order |
| TopicBatching.EnumerationPrefix | src/main/java/io/github/sinri/keel/logger/adapter/writer/QueuedLogWriter.java:47 | the i-th topic of an enumeration is new to its prefix, and the prefix grows by exactly it |
| TopicBatching.DrainAlongAt | src/main/java/io/github/sinri/keel/logger/adapter/writer/QueuedLogWriter.java:47-59 | draining along an order keeps the topics, and shortens exactly the visited queues to their rest |
| TopicBatching.DrainAlongEnumeration | src/main/java/io/github/sinri/keel/logger/adapter/writer/QueuedLogWriter.java:45-59 | draining along any enumeration of the key set gives the same map: every queue cut to its rest |
| TopicBatching.DrainedSnoc | src/main/java/io/github/sinri/keel/logger/adapter/writer/QueuedLogWriter.java:54 | visiting one more topic adds its batch length to the counter |
| TopicBatching.DispatchesSnoc | src/main/java/io/github/sinri/keel/logger/adapter/writer/QueuedLogWriter.java:60-62 | visiting one more topic appends at most its one processed batch |
| TopicBatching.CycleStep | src/main/java/io/github/sinri/keel/logger/adapter/writer/QueuedLogWriter.java:47-62 | the i-th visit finds its topic's queue untouched and extends queues, counter and processed calls by that topic's step |
| TopicBatching.EndOfCycleTable | src/main/java/io/github/sinri/keel/logger/adapter/writer/QueuedLogWriter.java:64-74 | Stop iff nothing was drained and close was requested; Sleep(100) iff nothing was drained and no close; Continue iff something was drained |
| TopicBatching.QueueOfDrain | src/main/java/io/github/sinri/keel/logger/adapter/writer/QueuedLogWriter.java:48-59 | after a cycle each topic's queue is the rest of its old queue, and a topic never seen stays empty |
| TopicBatching.DispatchesAreBoundedBatches | src/main/java/io/github/sinri/keel/logger/adapter/writer/QueuedLogWriter.java:23-62 | every processed batch is non-empty, at most the cap long, and the FIFO prefix of its topic's queue |
| TopicBatching.VisitedBacklogIsDispatched | src/main/java/io/github/sinri/keel/logger/adapter/writer/QueuedLogWriter.java:60-62 | a visited topic with a non-empty queue has its batch processed, under its own topic |
| TopicBatching.WrittenRecordIsDispatched | src/main/java/io/github/sinri/keel/logger/adapter/writer/QueuedLogWriter.java:31-62 | with FIFO queues, a record written behind a queue shorter than the cap is processed in the next cycle |
| TopicBatching.NonEmptyBatchDispatchedOnce | src/main/java/io/github/sinri/keel/logger/consumer/QueuedTopicRecordConsumer.java:52-54 | a topic with records gets exactly one processing call per cycle |
| TopicBatching.CounterCountsDispatched | src/main/java/io/github/sinri/keel/logger/adapter/writer/QueuedLogWriter.java:46-54 | the counter equals the total number of records in the processed batches |
| TopicBatching.CycleConservesRecords | src/main/java/io/github/sinri/keel/logger/consumer/QueuedTopicRecordConsumer.java:40-54 | records queued before equal records queued after plus records drained: none lost, none duplicated |
| TopicBatching.BacklogIsDrained | src/main/java/io/github/sinri/keel/logger/adapter/writer/QueuedLogWriter.java:46-54 | a visited non-empty queue makes the counter positive |
| TopicBatching.CycleWithBacklogNeverStops | src/main/java/io/github/sinri/keel/logger/adapter/writer/QueuedLogWriter.java:47-74 | a cycle that starts with any non-empty queue never stops or sleeps, whether or not close was requested: it continues iff no batch is rejected, and fails otherwise |
| TopicBatching.FirstRejected | src/main/java/io/github/sinri/keel/logger/adapter/writer/QueuedLogWriter.java:47-62 | the position of the first topic whose non-empty batch the handler fails, or the length of the order: every earlier batch succeeded |
| TopicBatching.CycleFailsIffSomeBatchRejected | src/main/java/io/github/sinri/keel/logger/adapter/writer/QueuedLogWriter.java:47-78 | a cycle fails exactly when some topic's non-empty batch is rejected |
| TopicBatching.AcceptedCycleVisitsEveryTopic | src/main/java/io/github/sinri/keel/logger/adapter/writer/QueuedLogWriter.java:47-62 | when every batch succeeds, the cycle visits every topic |
| TopicBatching.FailedCycleLeavesLaterTopics | src/main/java/io/github/sinri/keel/logger/adapter/writer/QueuedLogWriter.java:47-62 | a failed cycle's last processing call is the rejected batch, and every topic after it keeps its whole queue |
| TopicBatching.FailedCycleCountsRecords | src/main/java/io/github/sinri/keel/logger/adapter/writer/QueuedLogWriter.java:54-74 | a failed cycle has counted the rejected batch, so the `eventually` step neither stops the task nor sleeps |
| TopicBatching.DrainToEmptyPreservesOrder | src/main/java/io/github/sinri/keel/logger/adapter/writer/QueuedLogWriter.java:48-59 | repeated cycles with no writes deliver a queue in order: the batches concatenate to the queue, all full but the last |
| TopicBatching.ThreeHundredRecordsInBatchesOf128 | src/main/java/io/github/sinri/keel/logger/adapter/writer/QueuedLogWriter.java:23-25 | 300 queued records leave in batches of 128, 128 and 44 |
| QueuedLogWriters.QueuedLogWriter.constructor | src/main/java/io/github/sinri/keel/logger/adapter/writer/QueuedLogWriter.java:20-25 | no queues, flag clear, batch size 128 |
| QueuedLogWriters.QueuedLogWriter.WithBufferSize | src/main/java/io/github/sinri/keel/logger/adapter/writer/QueuedLogWriter.java:23-25 | a subclass overriding `bufferSize()` |
| QueuedLogWriters.QueuedLogWriter.Write | src/main/java/io/github/sinri/keel/logger/adapter/writer/QueuedLogWriter.java:31-34 | appends the record to its topic's queue, creating it if absent; every other queue unchanged |
| QueuedLogWriters.QueuedLogWriter.WriteBatch | src/main/java/io/github/sinri/keel/logger/adapter/writer/QueuedLogWriter.java:37-40 | the topic's queue becomes old ++ records; every other queue unchanged |
| QueuedLogWriters.QueuedLogWriter.Poll | src/main/java/io/github/sinri/keel/logger/adapter/writer/QueuedLogWriter.java:51 | takes the head of the queue, or nothing from an empty queue |
| QueuedLogWriters.QueuedLogWriter.ProcessLogRecords | src/main/java/io/github/sinri/keel/logger/adapter/writer/QueuedLogWriter.java:28-62 | records one call of the abstract batch handler; its future succeeds iff `succeeds` accepts the batch |
| QueuedLogWriters.QueuedLogWriter.DrainTopic | src/main/java/io/github/sinri/keel/logger/adapter/writer/QueuedLogWriter.java:48-59 | the poll loop takes exactly Batch(queue) and leaves Rest(queue), counting each record |
| QueuedLogWriters.QueuedLogWriter.VisitTopic | src/main/java/io/github/sinri/keel/logger/adapter/writer/QueuedLogWriter.java:48-62 | one topic's step: drain, then process the batch only if it is non-empty; the step fails iff that batch is rejected |
| QueuedLogWriters.QueuedLogWriter.Cycle | src/main/java/io/github/sinri/keel/logger/adapter/writer/QueuedLogWriter.java:44-78 | visits the topics in key-set order up to and including the first rejected batch; queues, processed calls and counter are the specification functions of the topics reached; the outcome is Failed after a rejection and the end-of-cycle decision otherwise, when every queue has become Drain(old) |
| QueuedLogWriters.QueuedLogWriter.Close | src/main/java/io/github/sinri/keel/logger/adapter/writer/QueuedLogWriter.java:82-85 | sets the flag and touches nothing else, so a second close changes nothing |
| QueuedTopicRecordConsumers.QueuedTopicRecordConsumer.constructor | src/main/java/io/github/sinri/keel/logger/consumer/QueuedTopicRecordConsumer.java:23-29 | no queues, flag clear, batch size 128 |
| QueuedTopicRecordConsumers.QueuedTopicRecordConsumer.WithBufferSize | src/main/java/io/github/sinri/keel/logger/consumer/QueuedTopicRecordConsumer.java:27-29 | a subclass overriding `bufferSize()` |
| QueuedTopicRecordConsumers.QueuedTopicRecordConsumer.Accept | src/main/java/io/github/sinri/keel/logger/consumer/QueuedTopicRecordConsumer.java:74-78 | appends the record to its topic's queue, creating it if absent; other topics unchanged |
| QueuedTopicRecordConsumers.QueuedTopicRecordConsumer.Poll | src/main/java/io/github/sinri/keel/logger/consumer/QueuedTopicRecordConsumer.java:43 | takes the head of the queue, or nothing |
| QueuedTopicRecordConsumers.QueuedTopicRecordConsumer.ProcessLogRecords | src/main/java/io/github/sinri/keel/logger/consumer/QueuedTopicRecordConsumer.java:32-54 | records one call of the abstract batch handler; its future succeeds iff `succeeds` accepts the batch |
| QueuedTopicRecordConsumers.QueuedTopicRecordConsumer.DrainTopic | src/main/java/io/github/sinri/keel/logger/consumer/QueuedTopicRecordConsumer.java:40-51 | the poll loop takes exactly Batch(queue) and leaves Rest(queue) |
| QueuedTopicRecordConsumers.QueuedTopicRecordConsumer.VisitTopic | src/main/java/io/github/sinri/keel/logger/consumer/QueuedTopicRecordConsumer.java:40-54 | drain one topic, process the batch only if it is non-empty; the step fails iff that batch is rejected |
| QueuedTopicRecordConsumers.QueuedTopicRecordConsumer.Cycle | src/main/java/io/github/sinri/keel/logger/consumer/QueuedTopicRecordConsumer.java:36-70 | the same cycle contract as the writer's, failure path included |
| QueuedTopicRecordConsumers.QueuedTopicRecordConsumer.Close | src/main/java/io/github/sinri/keel/logger/consumer/QueuedTopicRecordConsumer.java:80-83 | sets the flag only |
| MetricRecorders.NextPass | src/main/java/io/github/sinri/keel/logger/metric/AbstractMetricRecorder.java:62-66 | another pass, after 1000 ms, iff the end switch is off, whatever was drained or remains |
| MetricRecorders.PassCalls | src/main/java/io/github/sinri/keel/logger/metric/AbstractMetricRecorder.java:56-58 | a pass calls the handler once, with the topic and the batch, iff the queue was non-empty |
| MetricRecorders.PassesToDrainBacklog | src/main/java/io/github/sinri/keel/logger/metric/AbstractMetricRecorder.java:46-54 | with no new records, a backlog of n records takes exactly ceil(n / cap) passes |
| MetricRecorders.ClosedPassStrandsBacklog | src/main/java/io/github/sinri/keel/logger/metric/AbstractMetricRecorder.java:62-85 | a pass after close does not re-arm, and a backlog longer than a batch leaves records queued |
| MetricRecorders.AbstractMetricRecorder.constructor | src/main/java/io/github/sinri/keel/logger/metric/AbstractMetricRecorder.java:22-40 | empty queue, switch off, batch size 1000, topic "metric" |
| MetricRecorders.AbstractMetricRecorder.WithOverrides | src/main/java/io/github/sinri/keel/logger/metric/AbstractMetricRecorder.java:29-40 | a subclass overriding `bufferSize()` and `topic()` |
| MetricRecorders.AbstractMetricRecorder.RecordMetric | src/main/java/io/github/sinri/keel/logger/metric/AbstractMetricRecorder.java:25-27 | appends the record to the queue |
| MetricRecorders.AbstractMetricRecorder.Poll | src/main/java/io/github/sinri/keel/logger/metric/AbstractMetricRecorder.java:49 | takes the head of the queue, or nothing |
| MetricRecorders.AbstractMetricRecorder.HandleForTopic | src/main/java/io/github/sinri/keel/logger/metric/AbstractMetricRecorder.java:87 | records one call of the abstract handler |
| MetricRecorders.AbstractMetricRecorder.Pass | src/main/java/io/github/sinri/keel/logger/metric/AbstractMetricRecorder.java:43-68 | the queue loses exactly one batch; the handler gets it if it is non-empty; the next pass is NextPass(endSwitch) |
| MetricRecorders.AbstractMetricRecorder.Close | src/main/java/io/github/sinri/keel/logger/metric/AbstractMetricRecorder.java:83-85 | raises the end switch only; the queue is left as it was |
| StdoutAdapters.RenderAll | src/main/java/io/github/sinri/keel/logger/issue/recorder/adapter/AsyncStdoutAdapter.java:29-52 | one rendered line per entry, in order, each with its own topic |
| StdoutAdapters.AsyncStdoutAdapter.constructor | src/main/java/io/github/sinri/keel/logger/issue/recorder/adapter/AsyncStdoutAdapter.java:23-27 | empty queue, open, nothing printed |
| StdoutAdapters.AsyncStdoutAdapter.Record | src/main/java/io/github/sinri/keel/logger/issue/recorder/adapter/AsyncStdoutAdapter.java:40-44 | a null record is ignored; any other is queued with its topic, open or closed |
| StdoutAdapters.AsyncStdoutAdapter.Poll | src/main/java/io/github/sinri/keel/logger/issue/recorder/adapter/AsyncStdoutAdapter.java:49 | takes the head of the queue, or nothing |
| StdoutAdapters.AsyncStdoutAdapter.WriteOneIssueRecord | src/main/java/io/github/sinri/keel/logger/issue/recorder/adapter/AsyncStdoutAdapter.java:29-32 | prints exactly the rendered line |
| StdoutAdapters.AsyncStdoutAdapter.Pass | src/main/java/io/github/sinri/keel/logger/issue/recorder/adapter/AsyncStdoutAdapter.java:46-56 | empties the queue, prints every entry in FIFO order, and always re-arms after 100 ms |
| StdoutAdapters.AsyncStdoutAdapter.GracefullyClose | src/main/java/io/github/sinri/keel/logger/issue/recorder/adapter/AsyncStdoutAdapter.java:58-67 | `isClosed()` becomes true; the queue is untouched |
| StdoutAdapters.SyncStdoutAdapter.constructor | src/main/java/io/github/sinri/keel/logger/issue/recorder/adapter/SyncStdoutAdapter.java:16-20 | open, nothing printed |
| StdoutAdapters.SyncStdoutAdapter.Record | src/main/java/io/github/sinri/keel/logger/issue/recorder/adapter/SyncStdoutAdapter.java:32-37 | prints exactly one rendered line iff the record is non-null and the adapter is open; otherwise prints nothing |
| StdoutAdapters.SyncStdoutAdapter.GracefullyClose | src/main/java/io/github/sinri/keel/logger/issue/recorder/adapter/SyncStdoutAdapter.java:40-48 | `isClosed()` becomes true and stays true |
| QueuedLogRecorders.QueuedLogRecorder.constructor | src/main/java/io/github/sinri/keel/logger/record/QueuedLogRecorder.java:14-25 | the topic is the constructor argument and is constant |
| QueuedLogRecorders.QueuedLogRecorder.RecordLog | src/main/java/io/github/sinri/keel/logger/record/QueuedLogRecorder.java:27-30 | appends the record to the writer's queue for the recorder's topic; other topics unchanged |
| QueuedLogRecorders.SuccessiveRecordsKeepOrder | src/main/java/io/github/sinri/keel/logger/record/QueuedLogRecorder.java:27-30 | successive calls append in call order and touch no other topic |
| SynchronousQueueFinding.Add | src/main/java/io/github/sinri/keel/logger/adapter/writer/QueuedLogWriter.java:32-33 | `SynchronousQueue.add` succeeds iff a taker is waiting, and otherwise changes nothing |
| SynchronousQueueFinding.WriteAsWritten | src/main/java/io/github/sinri/keel/logger/adapter/writer/QueuedLogWriter.java:31-34 | `write` as written: the queue is created, then `add` is attempted |
| SynchronousQueueFinding.WriteBatchAsWritten | src/main/java/io/github/sinri/keel/logger/adapter/writer/QueuedLogWriter.java:37-40 | `writeBatch` as written: `addAll` adds one element at a time |
| SynchronousQueueFinding.WriteAlwaysThrows | src/main/java/io/github/sinri/keel/logger/adapter/writer/QueuedLogWriter.java:31-34 | with only the drain loop consuming, every `write` throws IllegalStateException |
| SynchronousQueueFinding.WriteBatchThrowsUnlessEmpty | src/main/java/io/github/sinri/keel/logger/adapter/writer/QueuedLogWriter.java:37-40 | `writeBatch` succeeds iff the list is empty |
| SynchronousQueueFinding.DrainNeverYields | src/main/java/io/github/sinri/keel/logger/adapter/writer/QueuedLogWriter.java:51 | `poll` never returns a record, so no batch is ever processed |
| SynchronousQueueFinding.FirstWriteThrows | src/main/java/io/github/sinri/keel/logger/consumer/QueuedTopicRecordConsumer.java:75-77 | the very first write to a fresh writer throws, and leaves an empty hand-off queue behind |
| Records.Names | src/main/java/io/github/sinri/keel/logger/ext/slf4j/KeelSlf4jLogger.java:318-320 | the names of the references, one per reference, in order |
| Records.ClassificationOf | src/main/java/io/github/sinri/keel/logger/ext/slf4j/KeelSlf4jLogger.java:313-324 | a null marker gives []; otherwise the marker's name, then each reference's name in iterator order |
| Records.RecordSink.constructor | src/main/java/io/github/sinri/keel/logger/ext/log4j2/KeelLog4j2Logger.java:178 | an adapter that has accepted nothing |
| Records.RecordSink.Accept | src/main/java/io/github/sinri/keel/logger/ext/log4j2/KeelLog4j2Logger.java:178 | `accept(topic, entry)` records the pair |
| Log4j2Levels.IntLevel | src/main/java/io/github/sinri/keel/logger/ext/log4j2/KeelLog4j2Logger.java:44-62 | Log4j's numbers: a custom level keeps its own number, standard ones lie in 0..Integer.MAX_VALUE, and only OFF is 0 |
| Log4j2Levels.ToKeel | src/main/java/io/github/sinri/keel/logger/ext/log4j2/KeelLog4j2Logger.java:44-62 | never NOTICE; TRACE iff TRACE or ALL; WARNING iff WARN; SILENT iff OFF or a custom level |
| Log4j2Levels.ToKeelIsMonotone | src/main/java/io/github/sinri/keel/logger/ext/log4j2/KeelLog4j2Logger.java:44-62 | among standard levels other than ALL, a more severe Log4j level never maps lower |
| Log4j2Levels.CustomLevelsAlwaysPass | src/main/java/io/github/sinri/keel/logger/ext/log4j2/KeelLog4j2Logger.java:44-91 | a custom level maps to SILENT, which passes every threshold |
| Log4j2Loggers.FromKeel | src/main/java/io/github/sinri/keel/logger/ext/log4j2/KeelLog4j2Logger.java:64-75 | OFF iff null or SILENT; INFO iff INFO or NOTICE; never ALL or a custom level |
| Log4j2Loggers.KeelRoundTrip | src/main/java/io/github/sinri/keel/logger/ext/log4j2/KeelLog4j2Logger.java:44-75 | Keel to Log4j and back is the identity except NOTICE, which comes back INFO |
| Log4j2Loggers.Log4jRoundTrip | src/main/java/io/github/sinri/keel/logger/ext/log4j2/KeelLog4j2Logger.java:44-75 | Log4j to Keel and back is the identity except ALL, which comes back TRACE, and custom levels, which come back OFF |
| Log4j2Loggers.EnabledAgreesWithReportedLevel | src/main/java/io/github/sinri/keel/logger/ext/log4j2/KeelLog4j2Logger.java:77-208 | for a base level other than NOTICE, `isEnabled` agrees with Log4j's own test against `getLevel()` on standard levels other than ALL |
| Log4j2Loggers.NoticeBaseRejectsReportedLevel | src/main/java/io/github/sinri/keel/logger/ext/log4j2/KeelLog4j2Logger.java:88-208 | at base NOTICE, `getLevel()` reports INFO, yet INFO events are not enabled |
| Log4j2Loggers.EventOf | src/main/java/io/github/sinri/keel/logger/ext/log4j2/KeelLog4j2Logger.java:164-203 | the built entry carries the translated level and the message; the throwable only when non-null; the template's classification; the template's context overridden by the thread context |
| Log4j2Loggers.KeelLog4j2Logger.constructor | src/main/java/io/github/sinri/keel/logger/ext/log4j2/KeelLog4j2Logger.java:29-42 | stores level, topic, initializer, verbose |
| Log4j2Loggers.KeelLog4j2Logger.IsEnabled | src/main/java/io/github/sinri/keel/logger/ext/log4j2/KeelLog4j2Logger.java:77-132 | every `isEnabled` overload: a custom level always passes, ALL passes iff the base is TRACE, and for a base other than NOTICE a standard level passes iff Log4j's own test against `getLevel()` passes |
| Log4j2Loggers.KeelLog4j2Logger.GetLevel | src/main/java/io/github/sinri/keel/logger/ext/log4j2/KeelLog4j2Logger.java:205-208 | `transLevel(visibleBaseLevel)`, never ALL or custom |
| Log4j2Loggers.KeelLog4j2Logger.LogMessage | src/main/java/io/github/sinri/keel/logger/ext/log4j2/KeelLog4j2Logger.java:160-179 | no adapter: nothing happens; otherwise exactly one entry, EventOf, under the logger's topic; no threshold re-check |
| Log4j2Loggers.KeelLog4j2LoggerContext.constructor | src/main/java/io/github/sinri/keel/logger/ext/log4j2/KeelLog4j2LoggerContext.java:31-40 | an empty cache |
| Log4j2Loggers.KeelLog4j2LoggerContext.GetLogger | src/main/java/io/github/sinri/keel/logger/ext/log4j2/KeelLog4j2LoggerContext.java:47-74 | a cached name returns the same logger and nothing changes; a new name gets a fresh logger with that topic and the context's level, cached and announced once; `hasLogger` is then true |
| Log4j2Loggers.KeelLog4j2LoggerContext.GetLoggerWithMessageFactory | src/main/java/io/github/sinri/keel/logger/ext/log4j2/KeelLog4j2LoggerContext.java:66-69 | the same as `getLogger(name)` |
| LegacyLog4j2.LegacyFromKeel | src/main/java/io/github/sinri/keel/logger/log4j2/KeelLog4j2Logger.java:56-75 | the older `switch` agrees with the `ext` translation on every level |
| LegacyLog4j2.KeelLog4j2Logger.constructor | src/main/java/io/github/sinri/keel/logger/log4j2/KeelLog4j2Logger.java:24-34 | stores level, topic, initializer |
| LegacyLog4j2.KeelLog4j2Logger.IsEnabled | src/main/java/io/github/sinri/keel/logger/log4j2/KeelLog4j2Logger.java:88-91 | the same characterisation as the `ext` bridge's `isEnabled` |
| LegacyLog4j2.KeelLog4j2Logger.GetLevel | src/main/java/io/github/sinri/keel/logger/log4j2/KeelLog4j2Logger.java:201-204 | reports the same level as the `ext` bridge |
| LegacyLog4j2.KeelLog4j2Logger.LogMessage | src/main/java/io/github/sinri/keel/logger/log4j2/KeelLog4j2Logger.java:160-199 | no consumer: nothing; otherwise exactly one entry, the same as the `ext` bridge builds |
| LegacyLog4j2.KeelLog4j2LoggerContext.constructor | src/main/java/io/github/sinri/keel/logger/log4j2/KeelLog4j2LoggerContext.java:28-37 | an empty cache |
| LegacyLog4j2.KeelLog4j2LoggerContext.GetLogger | src/main/java/io/github/sinri/keel/logger/log4j2/KeelLog4j2LoggerContext.java:44-72 | get-or-create as in the `ext` context; `hasLogger` is then true |
| LegacyLog4j2.KeelLog4j2LoggerContext.GetLoggerWithMessageFactory | src/main/java/io/github/sinri/keel/logger/log4j2/KeelLog4j2LoggerContext.java:64-67 | the same as `getLogger(name)` |
| Slf4jLoggers.KeelLevelOf | src/main/java/io/github/sinri/keel/logger/ext/slf4j/KeelSlf4jLogger.java:116-434 | each call family writes its own level, `warn` writing WARNING; never NOTICE, FATAL or SILENT |
| Slf4jLoggers.EnabledIsUpwardClosed | src/main/java/io/github/sinri/keel/logger/ext/slf4j/KeelSlf4jLogger.java:111-523 | a family enabled at some base level enables every more severe family |
| Slf4jLoggers.DefaultBaseEnablesInfoAndAbove | src/main/java/io/github/sinri/keel/logger/ext/slf4j/KeelSlf4jLoggerFactory.java:92 | at the factories' base level INFO exactly info, warn and error are enabled |
| Slf4jLoggers.TransformMarkerToClassification | src/main/java/io/github/sinri/keel/logger/ext/slf4j/KeelSlf4jLogger.java:313-324 | the loop builds exactly ClassificationOf(marker) |
| Slf4jLoggers.CallEntry | src/main/java/io/github/sinri/keel/logger/ext/slf4j/KeelSlf4jLogger.java:84-206 | the call's level and the message; the marker's classification and the throwable (even a null one) only for overloads that take them; the rest from the template |
| Slf4jLoggers.GateDependsOnlyOnCall | src/main/java/io/github/sinri/keel/logger/ext/slf4j/KeelSlf4jLogger.java:99-109 | the template's level never matters: an entry passes iff its call family is enabled |
| Slf4jLoggers.KeelSlf4jLogger.constructor | src/main/java/io/github/sinri/keel/logger/ext/slf4j/KeelSlf4jLogger.java:54-73 | stores level, topic (the name) and initializer |
| Slf4jLoggers.KeelSlf4jLogger.IsEnabled | src/main/java/io/github/sinri/keel/logger/ext/slf4j/KeelSlf4jLogger.java:111-523 | each `is...Enabled()` holds iff the call's severity reaches the first severity the base level admits (TRACE 0 up to ERROR 4; NOTICE and WARNING admit from warn; FATAL and SILENT admit none) |
| Slf4jLoggers.KeelSlf4jLogger.Record | src/main/java/io/github/sinri/keel/logger/ext/slf4j/KeelSlf4jLogger.java:99-109 | the entry reaches the adapter, once, under the name, iff its level passes and there is an adapter |
| Slf4jLoggers.KeelSlf4jLogger.Log | src/main/java/io/github/sinri/keel/logger/ext/slf4j/KeelSlf4jLogger.java:116-616 | a call reaches the adapter exactly once, with CallEntry, iff its family is enabled and there is an adapter; otherwise never |
| Slf4jLoggers.KeelSlf4jLoggerFactory.constructor | src/main/java/io/github/sinri/keel/logger/ext/slf4j/KeelSlf4jLoggerFactory.java:59-65 | an empty cache |
| Slf4jLoggers.KeelSlf4jLoggerFactory.GetLogger | src/main/java/io/github/sinri/keel/logger/ext/slf4j/KeelSlf4jLoggerFactory.java:86-101 | a cached name returns the same logger; a new one gets a fresh logger named after it at INFO, announced only when verbose; no entry is ever removed |
| LegacySlf4j.LegacyAgreesExceptTrace | src/main/java/io/github/sinri/keel/logger/slf4j/KeelSlf4jLogger.java:116-806 | the older bridge never enables TRACE, even at base TRACE, and agrees with the `ext` one on every other family |
| LegacySlf4j.KeelSlf4jLogger.constructor | src/main/java/io/github/sinri/keel/logger/slf4j/KeelSlf4jLogger.java:52-62 | stores level, topic and initializer |
| LegacySlf4j.KeelSlf4jLogger.IsEnabled | src/main/java/io/github/sinri/keel/logger/slf4j/KeelSlf4jLogger.java:116-806 | `isTraceEnabled()` is always false; every other family as in the `ext` bridge |
| LegacySlf4j.KeelSlf4jLogger.Record | src/main/java/io/github/sinri/keel/logger/slf4j/KeelSlf4jLogger.java:98-108 | the entry reaches the consumer iff its level passes and there is a consumer |
| LegacySlf4j.KeelSlf4jLogger.Log | src/main/java/io/github/sinri/keel/logger/slf4j/KeelSlf4jLogger.java:128-290 | no `trace` overload reaches the consumer; any other call does, once, iff enabled and there is a consumer |
| LegacySlf4j.KeelLoggerFactory.constructor | src/main/java/io/github/sinri/keel/logger/slf4j/KeelLoggerFactory.java:77-83 | an empty cache |
| LegacySlf4j.KeelLoggerFactory.GetLogger | src/main/java/io/github/sinri/keel/logger/slf4j/KeelLoggerFactory.java:104-116 | get-or-create at INFO; every new logger is announced |
| IssueRecords.ReservedIgnoresCase | src/main/java/io/github/sinri/keel/logger/issue/record/AbstractIssueRecord.java:79-83 | whether a name is reserved does not depend on its case |
| IssueRecords.MessageAndContextAreFree | src/main/java/io/github/sinri/keel/logger/issue/record/AbstractIssueRecord.java:114-131 | the message and context keys are not reserved, so `message(m)` and the context creation never throw |
| IssueRecords.ReservedExamples | src/main/java/io/github/sinri/keel/logger/issue/record/AbstractIssueRecord.java:79-83 | "LEVEL", "Exception" and "ClassiFication" are refused |
| IssueRecords.StringAt | src/main/java/io/github/sinri/keel/logger/issue/record/AbstractIssueRecord.java:109-111 | Vert.x `getString`: null iff absent or JSON null; the string itself when it is one; the value's `toString()` rendering otherwise; it never fails |
| IssueRecords.StringPutThenGet | src/main/java/io/github/sinri/keel/logger/issue/record/AbstractIssueRecord.java:107-111 | a string stored under a key is read back unchanged |
| IssueRecords.JsonObjectAt | src/main/java/io/github/sinri/keel/logger/issue/record/AbstractIssueRecord.java:121-122 | null when absent or null, the object when it is one, a cast failure otherwise |
| IssueRecords.AbstractIssueRecord.constructor | src/main/java/io/github/sinri/keel/logger/issue/record/AbstractIssueRecord.java:20-28 | a new record: level INFO, no attributes, empty classification, no exception, the current time |
| IssueRecords.AbstractIssueRecord.FromBase | src/main/java/io/github/sinri/keel/logger/issue/record/AbstractIssueRecord.java:33-40 | copies timestamp, level and exception, and shares the attribute and classification containers |
| IssueRecords.AbstractIssueRecord.SetTimestamp | src/main/java/io/github/sinri/keel/logger/issue/record/AbstractIssueRecord.java:43-51 | the getter then returns the value set |
| IssueRecords.AbstractIssueRecord.SetLevel | src/main/java/io/github/sinri/keel/logger/issue/record/AbstractIssueRecord.java:53-63 | the getter then returns the level set |
| IssueRecords.AbstractIssueRecord.SetException | src/main/java/io/github/sinri/keel/logger/issue/record/AbstractIssueRecord.java:95-105 | the getter then returns the throwable set |
| IssueRecords.AbstractIssueRecord.SetClassification | src/main/java/io/github/sinri/keel/logger/issue/record/AbstractIssueRecord.java:65-70 | the list becomes exactly the argument's contents, in order, or empty when the argument is the record's own list |
| IssueRecords.AbstractIssueRecord.Attribute | src/main/java/io/github/sinri/keel/logger/issue/record/AbstractIssueRecord.java:78-87 | a reserved name throws IllegalArgumentException and changes nothing; any other name sets that key only |
| IssueRecords.AbstractIssueRecord.SetMessage | src/main/java/io/github/sinri/keel/logger/issue/record/AbstractIssueRecord.java:107-117 | `message()` then returns the message set, however non-string values would render |
| IssueRecords.AbstractIssueRecord.EnsureContextAttribute | src/main/java/io/github/sinri/keel/logger/issue/record/AbstractIssueRecord.java:119-134 | an existing context value is returned with nothing changed; otherwise one new empty object is stored and returned |
| IssueRecords.AbstractIssueRecord.Context | src/main/java/io/github/sinri/keel/logger/issue/record/AbstractIssueRecord.java:119-140 | the handler updates the existing context object, or a new one created once, and when the context is not the attribute object itself the other attributes are left as they were; a null or mistyped context value fails |
| JsonifiableIssueRecords.ToJsonObject | src/main/java/io/github/sinri/keel/logger/issue/jsonifiable/JsonifiableIssueRecord.java:21-42 | timestamp and level always; message iff non-null; context iff non-empty; exception iff non-null; each with its value |
| JsonifiableIssueRecords.OnlyTheFiveKeys | src/main/java/io/github/sinri/keel/logger/issue/jsonifiable/JsonifiableIssueRecord.java:22-41 | no key other than the five is produced, and between two and five are |
| JsonifiableIssueRecords.BareRecordHasTwoKeys | src/main/java/io/github/sinri/keel/logger/issue/jsonifiable/JsonifiableIssueRecord.java:24-26 | a record with nothing set renders to exactly timestamp and level |
| Recorders.AbstractIssueRecorder.constructor | src/main/java/io/github/sinri/keel/logger/issue/AbstractIssueRecorder.java:15-18 | visible level INFO, the topic given |
| Recorders.AbstractIssueRecorder.SetVisibleLevel | src/main/java/io/github/sinri/keel/logger/issue/AbstractIssueRecorder.java:22-31 | the getter then returns the level set; returns the recorder itself; the topic is constant |
| Recorders.AbstractEventRecorder.constructor | src/main/java/io/github/sinri/keel/logger/event/AbstractEventRecorder.java:13-16 | visible level INFO, the topic given |
| Recorders.AbstractEventRecorder.SetVisibleLevel | src/main/java/io/github/sinri/keel/logger/event/AbstractEventRecorder.java:20-29 | the getter then returns the level set; returns the recorder itself |
| Recorders.SilentEventRecorder.SetVisibleLevel | src/main/java/io/github/sinri/keel/logger/event/SilentEventRecorder.java:20-23 | returns the recorder itself, which changes nothing and still reports SILENT |
| Recorders.SilentEventRecorder.Adapter | src/main/java/io/github/sinri/keel/logger/event/SilentEventRecorder.java:33-35 | always throws UnsupportedOperationException |
| Recorders.SilentIssueRecorder.constructor | src/main/java/io/github/sinri/keel/logger/issue/recorder/SilentIssueRecorder.java:19 | no bypass recorders |
| Recorders.SilentIssueRecorder.SetVisibleLevel | src/main/java/io/github/sinri/keel/logger/issue/recorder/SilentIssueRecorder.java:22-30 | changes nothing; the level stays SILENT |
| Recorders.SilentIssueRecorder.IssueRecordBuilder | src/main/java/io/github/sinri/keel/logger/issue/recorder/SilentIssueRecorder.java:40-42 | the supplier yields null |
| Recorders.SilentIssueRecorder.AddBypassIssueRecorder | src/main/java/io/github/sinri/keel/logger/issue/recorder/SilentIssueRecorder.java:45-53 | appends to the bypass list, which the getter returns |
| Recorders.SilentIssueRecorder.SetRecordFormatter | src/main/java/io/github/sinri/keel/logger/issue/recorder/SilentIssueRecorder.java:63-70 | changes nothing; the formatter stays null |
| Recorders.SilentIssueRecorder.Record | src/main/java/io/github/sinri/keel/logger/issue/recorder/SilentIssueRecorder.java:73-75 | does nothing; nothing is forwarded to the bypass recorders |

## Left out

- Vert.x scheduling and concurrency are not modelled. This covers `asyncCallRepeatedly`, `asyncCallIteratively`, `asyncSleep`, `setTimer`, `executeBlocking`, `undeployMe`, `synchronized` and the atomicity of the concurrent maps. One cycle or one pass is a sequential method that returns its decision or its delay; a failed iteration is the `Failed` decision, after which the model runs no further cycle.
- For the same reason, the recheck inside `synchronized` in the Log4j2 contexts and in `ensureContextAttribute` is not modelled. Run sequentially, it always sees what the first check saw.
- The race in the SLF4J factories' `getLogger`, which does not recheck under the lock, is left out for the same reason.
- `SynchronousQueue` hand-off is modelled only in `SynchronousQueueFinding`. The writer and the consumer model the FIFO their drain loops are written for (see Findings).
- Renderers are parameters, not models: the stdout adapters' `render`, `TimeUtils.getDateExpression` and `renderThrowable`. They depend on the clock, date formatting, stack traces and Vert.x JSON encoding.
- Standard output is an appended sequence of lines.
- The `verbose` report of a thread-context failure on standard error is not modelled.
- SLF4J's `MessageFormatter` and Log4j's `Message.getFormattedMessage` are left out. Every logging call takes its message already formatted, so all overloads of one call family are one method.
- `ThreadContext.getContext()` is a parameter. A context that is null or empty, or a `getContext()` call that itself throws, gives the same entry. A `Log.context` call that throws partway through copying, which would leave a partly copied context, is not modelled.
- `getExternalContext()` always returns null. No member models it, since there is no external context.
- The `hasLogger` overloads that take a message factory ignore it. They are the one `HasLogger` predicate.
- `SilentIssueRecorder.issueRecordCenter()` returns an external silent centre and is not modelled.
- `SilentEventRecorder.Topic`, `SilentEventRecorder.VisibleLevel`, `SilentIssueRecorder.Topic`, `GetVisibleLevel` and `GetRecordFormatter` return constants ("", SILENT, "silent", SILENT, null). `HasLogger` of both Log4j2 contexts (`name in loggerMap`) and `IsClosed` of both stdout adapters read one field. `AbstractIssueRecord.Message` is `StringAt` of the message key. `SilentEventRecorder.RecordEvent` has an empty body and may modify nothing. Their bodies are the whole statement, so they carry no contract.
- IssueRecords.EqualsIgnoreCase: folds ASCII letters only, while Java's `equalsIgnoreCase` folds all of Unicode. The reserved keys are ASCII, but a non-ASCII name that Java folds onto one of them is not refused by the model.
- IssueRecords.AbstractIssueRecord.Context: a JSON null stored under "context" hands null to the handler. The model reports this as `NullContext`, standing for whatever the handler then does.
- IssueRecords.JsonObjectAt: does not model Vert.x converting a stored `Map` into a `JsonObject`. For `getJsonObject`, any value other than null or an object is a cast failure.
- IssueRecords.StringAt: the `toString()` rendering of a non-string value is a parameter, not a model of Vert.x's JSON encoding.
- IssueRecords.AbstractIssueRecord: the timestamp is an unbounded integer. The source's `long` is only stored and read back, never computed with.
- Log4j2Loggers.KeelLog4j2LoggerContext.GetLogger: builds loggers with `verbose = false`, because the constructor call at `ext/log4j2/KeelLog4j2LoggerContext.java:55` passes no `verbose` argument.
- The SPI providers, `LoggerContextFactory` classes, thin factories and builders only wire objects together over code this model cannot see, so they are not modelled.
- `MetricRecordImpl` is not modelled: it holds a `double`, and its JSON output is a library call.

## Findings

| source | as written | input that shows it | evidently intended | confidence | as-written member | corrected member |
|---|---|---|---|---|---|---|
| src/main/java/io/github/sinri/keel/logger/adapter/writer/QueuedLogWriter.java:32-33 | each topic queue (here and in `QueuedTopicRecordConsumer.accept`, lines 76-77) is a `SynchronousQueue`, which has no capacity; `add` throws `IllegalStateException` unless a thread is blocked in `take`, and the drain loop only calls `poll` | `write("app", r)` on a fresh writer: the queue is created and `add` throws; `poll` never yields a record | an unbounded FIFO per topic (such as `ConcurrentLinkedQueue`), so that a written record is processed in the next cycle | not executed | SynchronousQueueFinding.WriteAlwaysThrows, SynchronousQueueFinding.FirstWriteThrows | TopicBatching.WrittenRecordIsDispatched |
