/**
 * The per-topic queues as the writer and the consumer actually create them:
 * `java.util.concurrent.SynchronousQueue`, a hand-off point with no capacity.
 * `add` succeeds only by handing the element to a consumer already blocked in
 * `take`, and otherwise throws `IllegalStateException("Queue full")`; `poll`
 * returns an element only from a producer blocked in `put`. The drain loops
 * only ever `poll` and the write paths only ever `add`, so no taker and no
 * blocked producer ever exists.
 */
module SynchronousQueueFinding {
  import opened Wrappers

  /** The part of a `SynchronousQueue`'s state that decides `add` and `poll`. */
  datatype Handoff = Handoff(waitingTakers: nat, waitingPutters: nat)

  datatype QueueError = IllegalState

  /** A queue fresh from `new SynchronousQueue<>()`. */
  const NewHandoff := Handoff(0, 0)

  /** `add(e)`: succeeds only when a taker is waiting, which it then releases. */
  function Add(q: Handoff): (r: (Outcome<QueueError>, Handoff))
    ensures r.0 == Pass <==> q.waitingTakers > 0
    ensures r.0 == Pass ==> r.1.waitingTakers == q.waitingTakers - 1
    ensures r.0 != Pass ==> r.1 == q
  {
    if q.waitingTakers > 0 then (Pass, q.(waitingTakers := q.waitingTakers - 1))
    else (Fail(IllegalState), q)
  }

  /** `poll()`: whether an element is handed over, which needs a waiting producer. */
  predicate PollYields(q: Handoff)
  {
    q.waitingPutters > 0
  }

  /** No queue of the map has anybody blocked on it. */
  predicate Idle(m: map<string, Handoff>)
  {
    forall t :: t in m ==> m[t] == NewHandoff
  }

  /** `write` as written: `computeIfAbsent(topic, new SynchronousQueue)` then `add`. */
  function WriteAsWritten(m: map<string, Handoff>, topic: string): (r: (Outcome<QueueError>, map<string, Handoff>))
    ensures r.1.Keys == m.Keys + {topic}
  {
    var q := if topic in m then m[topic] else NewHandoff;
    var (outcome, q') := Add(q);
    (outcome, m[topic := q'])
  }

  /**
   * `writeBatch` as written: `addAll`, which adds the elements in order and
   * propagates the first exception. Only the number of elements matters.
   */
  function WriteBatchAsWritten(m: map<string, Handoff>, topic: string, count: nat): (r: (Outcome<QueueError>, map<string, Handoff>))
    ensures r.1.Keys == m.Keys + {topic}
    decreases count
  {
    if count == 0 then (Pass, m[topic := if topic in m then m[topic] else NewHandoff])
    else
      var (outcome, m') := WriteAsWritten(m, topic);
      if outcome != Pass then (outcome, m') else WriteBatchAsWritten(m', topic, count - 1)
  }

  /**
   * With only `add` and `poll` in use, every `write` throws, leaves the
   * topic's (empty) queue behind, and leaves every queue idle.
   */
  lemma WriteAlwaysThrows(m: map<string, Handoff>, topic: string)
    requires Idle(m)
    ensures WriteAsWritten(m, topic).0 == Fail(IllegalState)
    ensures Idle(WriteAsWritten(m, topic).1)
  {
  }

  /** Every non-empty `writeBatch` throws on its first element. */
  lemma WriteBatchThrowsUnlessEmpty(m: map<string, Handoff>, topic: string, count: nat)
    requires Idle(m)
    ensures WriteBatchAsWritten(m, topic, count).0 == Pass <==> count == 0
    ensures Idle(WriteBatchAsWritten(m, topic, count).1)
  {
    WriteAlwaysThrows(m, topic);
  }

  /** The drain loop's `poll` on an idle queue never yields, so every cycle drains nothing. */
  lemma DrainNeverYields(m: map<string, Handoff>, topic: string)
    requires Idle(m) && topic in m
    ensures !PollYields(m[topic])
  {
  }

  /**
   * A concrete case: a fresh writer, `write("app", e)` throws and the map is
   * left holding an idle queue for "app".
   */
  lemma FirstWriteThrows()
    ensures WriteAsWritten(map[], "app") == (Fail(IllegalState), map["app" := NewHandoff])
  {
  }
}
