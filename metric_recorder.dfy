/**
 * `AbstractMetricRecorder<M>`: one FIFO of metric records, drained one batch
 * of at most `bufferSize()` (1000 by default) per pass and handed to
 * `handleForTopic(topic(), batch)`. After each pass the recorder re-arms a
 * one-second timer unless it has been closed.
 */
module MetricRecorders {
  import opened Wrappers
  import opened TopicBatching

  /** The default `bufferSize()` of the metric recorder. */
  const DefaultMetricBufferSize: int := 1000

  /** The default `topic()` of the metric recorder. */
  const DefaultMetricTopic: string := "metric"

  /** The delay, in milliseconds, before the next pass. */
  const RestartDelayMillis: nat := 1000

  /** The decision at the end of a pass: the delay before the next one, or none. */
  function NextPass(endSwitch: bool): (delay: Option<nat>)
    ensures delay == None <==> endSwitch
    ensures delay != None ==> delay.value == RestartDelayMillis
  {
    if endSwitch then None else Some(RestartDelayMillis)
  }

  /** The handler calls a pass over queue `q` makes: one call for a non-empty batch. */
  function PassCalls<M>(q: seq<M>, topic: string, bufferSize: int): (calls: seq<(string, seq<M>)>)
    ensures |calls| <= 1
    ensures calls == [] <==> q == []
    ensures calls != [] ==> calls[0] == (topic, Batch(q, bufferSize))
  {
    var b := Batch(q, bufferSize);
    if b == [] then [] else [(topic, b)]
  }

  /**
   * With nothing arriving, a backlog of `|q|` records takes the least number
   * of passes `n` with `n * cap >= |q|` (one pass per second while open).
   */
  lemma {:induction false} PassesToDrainBacklog<M>(q: seq<M>, bufferSize: int)
    ensures var n := |BatchesUntilEmpty(q, bufferSize)|;
      (n - 1) * EffectiveCap(bufferSize) < |q| <= n * EffectiveCap(bufferSize)
        || (q == [] && n == 0)
    decreases |q|
  {
    DrainToEmptyPreservesOrder(q, bufferSize);
    var cap := EffectiveCap(bufferSize);
    if q != [] {
      var rest := Rest(q, bufferSize);
      PassesToDrainBacklog(rest, bufferSize);
      var n' := |BatchesUntilEmpty(rest, bufferSize)|;
      assert |BatchesUntilEmpty(q, bufferSize)| == n' + 1;
      if |q| <= cap {
        assert rest == [];
        assert n' == 0;
      } else {
        assert |rest| == |q| - cap;
        assert (n' + 1) * cap == n' * cap + cap;
      }
    }
  }

  /**
   * A pass made after `close` does not re-arm the timer, so whatever the
   * pass leaves queued is never handled: a backlog longer than one batch is
   * stranded.
   */
  lemma ClosedPassStrandsBacklog<M>(q: seq<M>, bufferSize: int)
    requires |q| > EffectiveCap(bufferSize)
    ensures NextPass(true) == None
    ensures |Rest(q, bufferSize)| == |q| - EffectiveCap(bufferSize) > 0
  {
  }

  class AbstractMetricRecorder<M> {
    var endSwitch: bool
    /** Pending metric records, oldest first. */
    var metricRecordQueue: seq<M>
    /** `bufferSize()`: 1000 unless a subclass overrides it. */
    const bufferSize: int
    /** `topic()`: "metric" unless a subclass overrides it. */
    const topic: string
    /** Every `handleForTopic(topic, buffer)` call made so far, in order. */
    ghost var handled: seq<(string, seq<M>)>

    constructor ()
      ensures !endSwitch && metricRecordQueue == [] && handled == []
      ensures bufferSize == DefaultMetricBufferSize && topic == DefaultMetricTopic
    {
      endSwitch := false;
      metricRecordQueue := [];
      bufferSize := DefaultMetricBufferSize;
      topic := DefaultMetricTopic;
      handled := [];
    }

    /** A subclass that overrides `bufferSize()` and `topic()`. */
    constructor WithOverrides(size: int, topicName: string)
      ensures !endSwitch && metricRecordQueue == [] && handled == []
      ensures bufferSize == size && topic == topicName
    {
      endSwitch := false;
      metricRecordQueue := [];
      bufferSize := size;
      topic := topicName;
      handled := [];
    }

    /** `recordMetric`: append to the queue. */
    method RecordMetric(metricRecord: M)
      modifies this`metricRecordQueue
      ensures metricRecordQueue == old(metricRecordQueue) + [metricRecord]
    {
      metricRecordQueue := metricRecordQueue + [metricRecord];
    }

    /** `metricRecordQueue.poll()`. */
    method Poll() returns (r: Option<M>)
      modifies this`metricRecordQueue
      ensures old(metricRecordQueue) == [] ==> r == None && metricRecordQueue == []
      ensures old(metricRecordQueue) != [] ==>
        r == Some(old(metricRecordQueue)[0]) && metricRecordQueue == old(metricRecordQueue)[1..]
    {
      if metricRecordQueue == [] {
        r := None;
      } else {
        r := Some(metricRecordQueue[0]);
        metricRecordQueue := metricRecordQueue[1..];
      }
    }

    /** The abstract batch handler; the model records each call. */
    method HandleForTopic(topicName: string, buffer: seq<M>)
      modifies this`handled
      ensures handled == old(handled) + [(topicName, buffer)]
    {
      handled := handled + [(topicName, buffer)];
    }

    /**
     * One pass of `startVerticle`: poll a batch, hand it on if it is
     * non-empty, then report the delay of the next pass (none once closed).
     */
    method Pass() returns (reschedule: Option<nat>)
      modifies this`metricRecordQueue, this`handled
      ensures metricRecordQueue == Rest(old(metricRecordQueue), bufferSize)
      ensures handled == old(handled) + PassCalls(old(metricRecordQueue), topic, bufferSize)
      ensures reschedule == NextPass(endSwitch)
    {
      ghost var queue := metricRecordQueue;
      var buffer: seq<M> := [];
      while true
        invariant buffer + metricRecordQueue == queue
        invariant |buffer| < EffectiveCap(bufferSize)
        invariant handled == old(handled)
        decreases |metricRecordQueue|
      {
        var metricRecord := Poll();
        if metricRecord == None {
          break;
        }
        buffer := buffer + [metricRecord.value];
        if |buffer| >= bufferSize {
          break;
        }
      }
      BatchSplit(queue, buffer, metricRecordQueue, bufferSize);
      if buffer != [] {
        HandleForTopic(topic, buffer);
      }
      reschedule := if !endSwitch then Some(RestartDelayMillis) else None;
    }

    /** `close`: only raises the end switch; queued records stay queued. */
    method Close()
      modifies this`endSwitch
      ensures endSwitch
    {
      endSwitch := true;
    }
  }
}
