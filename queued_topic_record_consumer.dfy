/**
 * `QueuedTopicRecordConsumer`: the event-record counterpart of
 * `QueuedLogWriter`. It keeps one FIFO of `EventRecord`s per topic and drains
 * them in the same cycles, with the same default batch size of 128 and the
 * same end-of-cycle decision.
 *
 * As in the writer, the source creates each queue as a `SynchronousQueue`;
 * this class models the unbounded FIFO the drain loop is written for.
 */
module QueuedTopicRecordConsumers {
  import opened Wrappers
  import opened Records
  import opened TopicBatching

  class QueuedTopicRecordConsumer {
    /** Topic -> pending entries, oldest first. */
    var queueMap: map<string, seq<LogEntry>>
    var closeFlag: bool
    /** `bufferSize()`: 128 by default, overridable by subclasses. */
    const bufferSize: int
    /** Every `processLogRecords(topic, batch)` call made so far, in order. */
    ghost var processed: seq<(string, seq<LogEntry>)>

    constructor ()
      ensures queueMap == map[] && !closeFlag && processed == []
      ensures bufferSize == DefaultTopicBufferSize
    {
      queueMap := map[];
      closeFlag := false;
      bufferSize := DefaultTopicBufferSize;
      processed := [];
    }

    /** A subclass that overrides `bufferSize()` with `size`. */
    constructor WithBufferSize(size: int)
      ensures queueMap == map[] && !closeFlag && processed == []
      ensures bufferSize == size
    {
      queueMap := map[];
      closeFlag := false;
      bufferSize := size;
      processed := [];
    }

    /** `accept`: append one record to the topic's queue, creating the queue if absent. */
    method Accept(topic: string, loggingEntity: LogEntry)
      modifies this`queueMap
      ensures queueMap == old(queueMap)[topic := QueueOf(old(queueMap), topic) + [loggingEntity]]
      ensures queueMap.Keys == old(queueMap).Keys + {topic}
      ensures forall t :: t != topic ==> QueueOf(queueMap, t) == QueueOf(old(queueMap), t)
    {
      var queue := if topic in queueMap then queueMap[topic] else [];
      queueMap := queueMap[topic := queue + [loggingEntity]];
    }

    /** `queue.poll()`: take the head of the topic's queue, or nothing if it is empty. */
    method Poll(topic: string) returns (r: Option<LogEntry>)
      requires topic in queueMap
      modifies this`queueMap
      ensures old(queueMap)[topic] == [] ==> r == None && queueMap == old(queueMap)
      ensures old(queueMap)[topic] != [] ==>
        && r == Some(old(queueMap)[topic][0])
        && queueMap == old(queueMap)[topic := old(queueMap)[topic][1..]]
    {
      var queue := queueMap[topic];
      if queue == [] {
        r := None;
      } else {
        r := Some(queue[0]);
        queueMap := queueMap[topic := queue[1..]];
      }
    }

    /** The abstract batch handler; the model records each call. */
    method ProcessLogRecords(topic: string, batch: seq<LogEntry>, succeeds: (string, seq<LogEntry>) -> bool) returns (ok: bool)
      modifies this`processed
      ensures processed == old(processed) + [(topic, batch)]
      ensures ok == succeeds(topic, batch)
    {
      processed := processed + [(topic, batch)];
      ok := succeeds(topic, batch);
    }

    /**
     * The body of the per-topic iteration: poll until the queue is empty or the
     * batch has reached `bufferSize()`, counting every record taken.
     */
    method DrainTopic(topic: string, counter: nat) returns (bufferOfTopic: seq<LogEntry>, counter': nat)
      requires topic in queueMap
      modifies this`queueMap
      ensures bufferOfTopic == Batch(old(queueMap)[topic], bufferSize)
      ensures queueMap == old(queueMap)[topic := Rest(old(queueMap)[topic], bufferSize)]
      ensures counter' == counter + |bufferOfTopic|
    {
      ghost var queue := queueMap[topic];
      bufferOfTopic := [];
      counter' := counter;
      while true
        invariant topic in queueMap
        invariant queueMap == old(queueMap)[topic := queueMap[topic]]
        invariant bufferOfTopic + queueMap[topic] == queue
        invariant |bufferOfTopic| < EffectiveCap(bufferSize)
        invariant counter' == counter + |bufferOfTopic|
        decreases |queueMap[topic]|
      {
        var r := Poll(topic);
        if r == None {
          break;
        }
        bufferOfTopic := bufferOfTopic + [r.value];
        counter' := counter' + 1;
        if |bufferOfTopic| >= bufferSize {
          break;
        }
      }
      BatchSplit(queue, bufferOfTopic, queueMap[topic], bufferSize);
    }

    /** One iteration of the cycle's loop: drain `topic`, process the batch if it is non-empty. */
    method VisitTopic(topic: string, counter: nat, succeeds: (string, seq<LogEntry>) -> bool) returns (counter': nat, ok: bool)
      requires topic in queueMap
      modifies this`queueMap, this`processed
      ensures queueMap == old(queueMap)[topic := Rest(old(queueMap)[topic], bufferSize)]
      ensures processed == old(processed) + DispatchOf(topic, old(queueMap), bufferSize)
      ensures counter' == counter + |Batch(QueueOf(old(queueMap), topic), bufferSize)|
      ensures ok == !Rejected(topic, old(queueMap), bufferSize, succeeds)
    {
      var bufferOfTopic;
      bufferOfTopic, counter' := DrainTopic(topic, counter);
      ok := true;
      if bufferOfTopic != [] {
        ok := ProcessLogRecords(topic, bufferOfTopic, succeeds);
      }
    }

    /**
     * One cycle of the repeated task started by `startVerticle`: visit the
     * topics known at the start in the key set's iteration order (`order`),
     * drain a batch from each and process the non-empty ones, then decide.
     * `succeeds` says which batches the handler's futures complete for; the
     * first failure fails the iteration, so the topics after it are not
     * visited, and the repeated task ends.
     */
    method Cycle(succeeds: (string, seq<LogEntry>) -> bool) returns (outcome: CycleOutcome, counter: nat, order: seq<string>)
      modifies this`queueMap, this`processed
      ensures IsEnumeration(order, old(queueMap).Keys)
      ensures queueMap == DrainAlong(old(queueMap), Reached(order, old(queueMap), bufferSize, succeeds), bufferSize)
      ensures processed == old(processed) + Dispatches(Reached(order, old(queueMap), bufferSize, succeeds), old(queueMap), bufferSize)
      ensures counter == Drained(Reached(order, old(queueMap), bufferSize, succeeds), old(queueMap), bufferSize)
      ensures outcome == CycleResult(order, old(queueMap), bufferSize, succeeds, closeFlag)
      ensures FirstRejected(order, old(queueMap), bufferSize, succeeds) == |order| ==> queueMap == Drain(old(queueMap), bufferSize)
      ensures closeFlag == old(closeFlag)
    {
      ghost var q0 := queueMap;
      ghost var p0 := processed;
      order := EnumerateTopics(queueMap.Keys);
      counter := 0;
      for i := 0 to |order|
        invariant queueMap == DrainAlong(q0, order[..i], bufferSize)
        invariant counter == Drained(order[..i], q0, bufferSize)
        invariant processed == p0 + Dispatches(order[..i], q0, bufferSize)
        invariant FirstRejected(order, q0, bufferSize, succeeds) >= i
      {
        var topic := order[i];
        CycleStep(q0, order, bufferSize, i);
        RejectionStep(order, q0, bufferSize, succeeds, closeFlag, i);
        ghost var rejected := Rejected(topic, q0, bufferSize, succeeds);
        assert rejected == Rejected(topic, queueMap, bufferSize, succeeds);
        var ok;
        counter, ok := VisitTopic(topic, counter, succeeds);
        AppendIsAssociative(p0, Dispatches(order[..i], q0, bufferSize), DispatchOf(topic, q0, bufferSize));
        if !ok {
          return Failed, counter, order;
        }
      }
      CompletedCycle(order, q0, bufferSize, succeeds, closeFlag);
      DrainAlongEnumeration(q0, order, bufferSize);
      outcome := EndOfCycle(counter, closeFlag);
    }

    /** `close`: only raises the flag; the queues are left as they are. */
    method Close()
      modifies this`closeFlag
      ensures closeFlag
    {
      closeFlag := true;
    }
  }
}
