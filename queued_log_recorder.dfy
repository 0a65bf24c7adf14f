/**
 * `QueuedLogRecorder`: the front door of a `QueuedLogWriter`. It is bound to
 * one topic at construction and appends every record to that topic's queue.
 */
module QueuedLogRecorders {
  import opened TopicBatching
  import opened QueuedLogWriters

  class QueuedLogRecorder<R> {
    /** `topic()`: fixed by the constructor. */
    const topic: string
    /** `writer()`, which subclasses supply. */
    const writer: QueuedLogWriter<R>

    constructor (topic: string, writer: QueuedLogWriter<R>)
      ensures this.topic == topic && this.writer == writer
    {
      this.topic := topic;
      this.writer := writer;
    }

    /** `recordLog`: `writer().write(topic, record)`. */
    method RecordLog(record: R)
      modifies writer`queueMap
      ensures writer.queueMap == old(writer.queueMap)[topic := QueueOf(old(writer.queueMap), topic) + [record]]
      ensures forall t :: t != topic ==> QueueOf(writer.queueMap, t) == QueueOf(old(writer.queueMap), t)
    {
      writer.Write(topic, record);
    }
  }

  /** The queue of a topic after appending `records` one by one. */
  function AppendEach<R>(m: map<string, seq<R>>, topic: string, records: seq<R>): map<string, seq<R>>
    decreases |records|
  {
    if records == [] then m
    else
      var before := AppendEach(m, topic, records[..|records| - 1]);
      before[topic := QueueOf(before, topic) + [records[|records| - 1]]]
  }

  /**
   * Successive `recordLog` calls keep their call order: the topic's queue
   * ends with the records in the order recorded, and no other queue changes.
   */
  lemma {:induction false} SuccessiveRecordsKeepOrder<R>(m: map<string, seq<R>>, topic: string, records: seq<R>)
    ensures QueueOf(AppendEach(m, topic, records), topic) == QueueOf(m, topic) + records
    ensures forall t :: t != topic ==> QueueOf(AppendEach(m, topic, records), t) == QueueOf(m, t)
    decreases |records|
  {
    if records != [] {
      var init := records[..|records| - 1];
      SuccessiveRecordsKeepOrder(m, topic, init);
      assert init + [records[|records| - 1]] == records;
    }
  }
}
