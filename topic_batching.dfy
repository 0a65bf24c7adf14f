/**
 * What one drain step and one drain cycle of the queued writers compute,
 * stated on values. The poll loops of `QueuedLogWriter`,
 * `QueuedTopicRecordConsumer` and `AbstractMetricRecorder` are proved against
 * these functions; the lemmas here say what the functions promise.
 */
module TopicBatching {

  /** The default `bufferSize()` of the two topic-partitioned queues. */
  const DefaultTopicBufferSize: int := 128

  /** The idle back-off of the drain cycle, in milliseconds. */
  const IdleSleepMillis: nat := 100

  function Min(a: nat, b: nat): nat { if a <= b then a else b }

  /**
   * How many records one drain step takes at most. The poll loop compares the
   * batch size with `bufferSize()` only after adding a record, so a
   * `bufferSize()` below 1 still lets one record through.
   */
  function EffectiveCap(bufferSize: int): (cap: nat)
    ensures cap >= 1
    ensures bufferSize >= 1 ==> cap == bufferSize
  {
    if bufferSize < 1 then 1 else bufferSize
  }

  /** The records one drain step takes from the head of queue `q`. */
  function Batch<R>(q: seq<R>, bufferSize: int): (b: seq<R>)
    ensures |b| == Min(|q|, EffectiveCap(bufferSize))
    ensures b == q[..|b|]
  {
    q[..Min(|q|, EffectiveCap(bufferSize))]
  }

  /** What a drain step leaves queued. */
  function Rest<R>(q: seq<R>, bufferSize: int): (rest: seq<R>)
    ensures Batch(q, bufferSize) + rest == q
    ensures |rest| == |q| - |Batch(q, bufferSize)|
  {
    q[|Batch(q, bufferSize)|..]
  }

  /** A split of `q` whose head has the batch's length is the batch and the rest. */
  lemma BatchSplit<R>(q: seq<R>, b: seq<R>, rest: seq<R>, bufferSize: int)
    requires b + rest == q
    requires |b| == Min(|q|, EffectiveCap(bufferSize))
    ensures b == Batch(q, bufferSize) && rest == Rest(q, bufferSize)
  {
    assert q[..|b|] == b;
    assert q[|b|..] == rest;
  }

  /** The queue of `topic`: a topic never written to has an empty queue. */
  function QueueOf<R>(m: map<string, seq<R>>, topic: string): seq<R>
  {
    if topic in m then m[topic] else []
  }

  /** The queue map after every topic has been drained once. */
  function Drain<R>(m: map<string, seq<R>>, bufferSize: int): map<string, seq<R>>
  {
    map t | t in m :: Rest(m[t], bufferSize)
  }

  /** The topics a visiting order lists. */
  function Elements(order: seq<string>): set<string>
    decreases |order|
  {
    if order == [] then {} else Elements(order[..|order| - 1]) + {order[|order| - 1]}
  }

  /** No topic is listed twice: each one is new when it is appended. */
  predicate Distinct(order: seq<string>)
    decreases |order|
  {
    order == [] || (Distinct(order[..|order| - 1]) && order[|order| - 1] !in Elements(order[..|order| - 1]))
  }

  /** `order` lists every topic of `topics` exactly once. */
  predicate IsEnumeration(order: seq<string>, topics: set<string>)
  {
    Distinct(order) && Elements(order) == topics
  }

  /** `Elements` collects exactly the members of the sequence. */
  lemma {:induction false} ElementsAreMembers(order: seq<string>)
    ensures forall t :: t in Elements(order) <==> t in order
    decreases |order|
  {
    if order != [] {
      var init := order[..|order| - 1];
      ElementsAreMembers(init);
      assert order == init + [order[|order| - 1]];
    }
  }

  /** `Distinct` means that no two positions hold the same topic. */
  lemma {:induction false} DistinctHasNoRepeats(order: seq<string>)
    ensures Distinct(order) <==> forall i, j :: 0 <= i < j < |order| ==> order[i] != order[j]
    decreases |order|
  {
    if order != [] {
      var init := order[..|order| - 1];
      var last := order[|order| - 1];
      DistinctHasNoRepeats(init);
      ElementsAreMembers(init);
      assert forall i :: 0 <= i < |init| ==> init[i] == order[i];
      if forall i, j :: 0 <= i < j < |order| ==> order[i] != order[j] {
        assert last !in init by {
          forall i | 0 <= i < |init| ensures init[i] != last {
            assert order[i] != order[|order| - 1];
          }
        }
      }
    }
  }

  /** Appending a topic not yet listed extends an enumeration by that topic. */
  lemma EnumerationSnoc(order: seq<string>, topics: set<string>, t: string)
    requires IsEnumeration(order, topics) && t !in topics
    ensures IsEnumeration(order + [t], topics + {t})
  {
    assert (order + [t])[..|order|] == order;
  }

  /**
   * The iteration order of a key set: each topic once, in an order the model
   * leaves open (a hash map promises none).
   */
  method EnumerateTopics(topics: set<string>) returns (order: seq<string>)
    ensures IsEnumeration(order, topics)
  {
    order := [];
    var rest := topics;
    while rest != {}
      invariant rest <= topics
      invariant IsEnumeration(order, topics - rest)
      decreases |rest|
    {
      var t :| t in rest;
      EnumerationSnoc(order, topics - rest, t);
      assert (topics - rest) + {t} == topics - (rest - {t});
      order := order + [t];
      rest := rest - {t};
    }
  }

  /** Position `i` of a distinct order is not among the topics listed before it. */
  lemma EnumerationPrefix(order: seq<string>, i: int)
    requires Distinct(order) && 0 <= i < |order|
    ensures order[i] !in Elements(order[..i])
    ensures Elements(order[..i + 1]) == Elements(order[..i]) + {order[i]}
  {
    DistinctHasNoRepeats(order);
    ElementsAreMembers(order[..i]);
    assert order[..i + 1][..i] == order[..i];
  }

  /** The queue map part-way through a cycle that has visited the topics of `order`. */
  function DrainAlong<R>(m: map<string, seq<R>>, order: seq<string>, bufferSize: int): map<string, seq<R>>
    decreases |order|
  {
    if order == [] then m
    else
      var before := DrainAlong(m, order[..|order| - 1], bufferSize);
      var t := order[|order| - 1];
      if t in m then before[t := Rest(m[t], bufferSize)] else before
  }

  /** Part-way through a cycle, visited topics hold their rest and the others are untouched. */
  lemma {:induction false} DrainAlongAt<R>(m: map<string, seq<R>>, order: seq<string>, bufferSize: int, t: string)
    ensures DrainAlong(m, order, bufferSize).Keys == m.Keys
    ensures t in m ==>
      DrainAlong(m, order, bufferSize)[t] == if t in Elements(order) then Rest(m[t], bufferSize) else m[t]
    decreases |order|
  {
    if order != [] {
      DrainAlongAt(m, order[..|order| - 1], bufferSize, t);
    }
  }

  /** A cycle that has visited every topic has drained the whole map once. */
  lemma DrainAlongEnumeration<R>(m: map<string, seq<R>>, order: seq<string>, bufferSize: int)
    requires Elements(order) == m.Keys
    ensures DrainAlong(m, order, bufferSize) == Drain(m, bufferSize)
  {
    var d := DrainAlong(m, order, bufferSize);
    DrainAlongAt(m, order, bufferSize, "");
    forall t | t in m
      ensures d[t] == Drain(m, bufferSize)[t]
    {
      DrainAlongAt(m, order, bufferSize, t);
    }
  }

  /** The batch-processing call a drain step of `topic` makes, if any. */
  function DispatchOf<R>(topic: string, m: map<string, seq<R>>, bufferSize: int): seq<(string, seq<R>)>
  {
    var b := Batch(QueueOf(m, topic), bufferSize);
    if b == [] then [] else [(topic, b)]
  }

  /** The batch-processing calls of a whole cycle that visits topics in `order`. */
  function Dispatches<R>(order: seq<string>, m: map<string, seq<R>>, bufferSize: int): seq<(string, seq<R>)>
    decreases |order|
  {
    if order == [] then []
    else Dispatches(order[..|order| - 1], m, bufferSize) + DispatchOf(order[|order| - 1], m, bufferSize)
  }

  /** The cycle counter: how many records a cycle visiting `order` drains. */
  function Drained<R>(order: seq<string>, m: map<string, seq<R>>, bufferSize: int): nat
    decreases |order|
  {
    if order == [] then 0
    else Drained(order[..|order| - 1], m, bufferSize) + |Batch(QueueOf(m, order[|order| - 1]), bufferSize)|
  }

  /** How many records the queues of the topics in `order` hold. */
  function Pending<R>(order: seq<string>, m: map<string, seq<R>>): nat
    decreases |order|
  {
    if order == [] then 0
    else Pending(order[..|order| - 1], m) + |QueueOf(m, order[|order| - 1])|
  }

  /** How many records a sequence of batch-processing calls carries. */
  function Carried<R>(calls: seq<(string, seq<R>)>): nat
    decreases |calls|
  {
    if calls == [] then 0 else Carried(calls[..|calls| - 1]) + |calls[|calls| - 1].1|
  }

  /** Visiting one more topic adds its batch to the counter. */
  lemma DrainedSnoc<R>(order: seq<string>, t: string, m: map<string, seq<R>>, bufferSize: int)
    ensures Drained(order + [t], m, bufferSize) == Drained(order, m, bufferSize) + |Batch(QueueOf(m, t), bufferSize)|
  {
    assert (order + [t])[..|order|] == order;
  }

  /** Visiting one more topic adds its batch call, if any, to the cycle's calls. */
  lemma DispatchesSnoc<R>(order: seq<string>, t: string, m: map<string, seq<R>>, bufferSize: int)
    ensures Dispatches(order + [t], m, bufferSize) == Dispatches(order, m, bufferSize) + DispatchOf(t, m, bufferSize)
  {
    assert (order + [t])[..|order|] == order;
  }

  /**
   * One step of a cycle visiting the enumeration `order`: the `i`-th topic is
   * still untouched, and visiting it extends the cycle's map, counter and calls.
   */
  lemma CycleStep<R>(m: map<string, seq<R>>, order: seq<string>, bufferSize: int, i: int)
    requires IsEnumeration(order, m.Keys) && 0 <= i < |order|
    ensures order[i] in DrainAlong(m, order[..i], bufferSize)
    ensures DrainAlong(m, order[..i], bufferSize)[order[i]] == QueueOf(m, order[i])
    ensures DrainAlong(m, order[..i + 1], bufferSize)
      == DrainAlong(m, order[..i], bufferSize)[order[i] := Rest(QueueOf(m, order[i]), bufferSize)]
    ensures Drained(order[..i + 1], m, bufferSize)
      == Drained(order[..i], m, bufferSize) + |Batch(QueueOf(m, order[i]), bufferSize)|
    ensures Dispatches(order[..i + 1], m, bufferSize)
      == Dispatches(order[..i], m, bufferSize) + DispatchOf(order[i], m, bufferSize)
  {
    var t := order[i];
    ElementsAreMembers(order);
    EnumerationPrefix(order, i);
    DrainAlongAt(m, order[..i], bufferSize, t);
    assert order[..i + 1] == order[..i] + [t];
    DrainedSnoc(order[..i], t, m, bufferSize);
    DispatchesSnoc(order[..i], t, m, bufferSize);
  }

  lemma AppendIsAssociative<T>(a: seq<T>, b: seq<T>, c: seq<T>)
    ensures (a + b) + c == a + (b + c)
  {
  }

  /**
   * How a cycle ends: the repeated task stops, sleeps before the next cycle,
   * goes straight on, or fails because a batch handler's future failed, which
   * ends the repeated task and undeploys the verticle.
   */
  datatype CycleOutcome = Stop | Sleep(millis: nat) | Continue | Failed

  /** The end-of-cycle decision on the counter and the close flag. */
  function EndOfCycle(counter: nat, closeRequested: bool): CycleOutcome
  {
    if counter == 0 then
      if closeRequested then Stop else Sleep(IdleSleepMillis)
    else Continue
  }

  /** The end-of-cycle decision table, in both directions. */
  lemma EndOfCycleTable(counter: nat, closeRequested: bool)
    ensures EndOfCycle(counter, closeRequested) == Stop <==> counter == 0 && closeRequested
    ensures EndOfCycle(counter, closeRequested) == Sleep(100) <==> counter == 0 && !closeRequested
    ensures EndOfCycle(counter, closeRequested) == Continue <==> counter > 0
  {
  }

  /**
   * Whether the future `processLogRecords` returns fails for the batch a drain
   * step of `topic` takes; `succeeds` says which batches the handler accepts.
   */
  predicate Rejected<R>(topic: string, m: map<string, seq<R>>, bufferSize: int, succeeds: (string, seq<R>) -> bool)
  {
    var b := Batch(QueueOf(m, topic), bufferSize);
    b != [] && !succeeds(topic, b)
  }

  /** The position of the first topic of `order` whose batch is rejected, or `|order|` if none is. */
  function FirstRejected<R>(order: seq<string>, m: map<string, seq<R>>, bufferSize: int,
                            succeeds: (string, seq<R>) -> bool): (k: nat)
    ensures k <= |order|
    ensures k < |order| ==> Rejected(order[k], m, bufferSize, succeeds)
    ensures forall i :: 0 <= i < k ==> !Rejected(order[i], m, bufferSize, succeeds)
    decreases |order|
  {
    if order == [] then 0
    else if Rejected(order[0], m, bufferSize, succeeds) then 0
    else
      var k := FirstRejected(order[1..], m, bufferSize, succeeds);
      assert forall i :: 1 <= i < 1 + k ==> order[i] == order[1..][i - 1];
      1 + k
  }

  /**
   * The topics a cycle visits: the whole enumeration, or its prefix up to and
   * including the first topic whose batch is rejected, since a failed future
   * fails the iteration before it reaches the remaining topics.
   */
  function Reached<R>(order: seq<string>, m: map<string, seq<R>>, bufferSize: int,
                      succeeds: (string, seq<R>) -> bool): seq<string>
  {
    order[..Min(FirstRejected(order, m, bufferSize, succeeds) + 1, |order|)]
  }

  /**
   * The outcome of a whole cycle: a rejected batch fails it whatever the
   * counter and the close flag say; otherwise the end-of-cycle decision.
   */
  function CycleResult<R>(order: seq<string>, m: map<string, seq<R>>, bufferSize: int,
                          succeeds: (string, seq<R>) -> bool, closeRequested: bool): CycleOutcome
  {
    if FirstRejected(order, m, bufferSize, succeeds) < |order| then Failed
    else EndOfCycle(Drained(order, m, bufferSize), closeRequested)
  }

  /** A cycle fails exactly when the handler rejects the batch of some topic it visits. */
  lemma CycleFailsIffSomeBatchRejected<R>(order: seq<string>, m: map<string, seq<R>>, bufferSize: int,
                                          succeeds: (string, seq<R>) -> bool, closeRequested: bool)
    ensures CycleResult(order, m, bufferSize, succeeds, closeRequested) == Failed
      <==> exists i :: 0 <= i < |order| && Rejected(order[i], m, bufferSize, succeeds)
  {
  }

  /** A cycle whose batches are all accepted visits every topic. */
  lemma AcceptedCycleVisitsEveryTopic<R>(order: seq<string>, m: map<string, seq<R>>, bufferSize: int,
                                         succeeds: (string, seq<R>) -> bool)
    requires forall i :: 0 <= i < |order| ==> !Rejected(order[i], m, bufferSize, succeeds)
    ensures Reached(order, m, bufferSize, succeeds) == order
  {
    assert order[..|order|] == order;
  }

  /** Visiting the `i`-th topic when no earlier batch was rejected: the cycle fails here or goes on. */
  lemma RejectionStep<R>(order: seq<string>, m: map<string, seq<R>>, bufferSize: int,
                         succeeds: (string, seq<R>) -> bool, closeRequested: bool, i: int)
    requires 0 <= i < |order| && FirstRejected(order, m, bufferSize, succeeds) >= i
    ensures Rejected(order[i], m, bufferSize, succeeds) ==>
      && FirstRejected(order, m, bufferSize, succeeds) == i
      && Reached(order, m, bufferSize, succeeds) == order[..i + 1]
      && CycleResult(order, m, bufferSize, succeeds, closeRequested) == Failed
    ensures !Rejected(order[i], m, bufferSize, succeeds) ==> FirstRejected(order, m, bufferSize, succeeds) >= i + 1
  {
  }

  /** A cycle that got past every topic visited all of them and decides on its counter. */
  lemma CompletedCycle<R>(order: seq<string>, m: map<string, seq<R>>, bufferSize: int,
                          succeeds: (string, seq<R>) -> bool, closeRequested: bool)
    requires FirstRejected(order, m, bufferSize, succeeds) >= |order|
    ensures Reached(order, m, bufferSize, succeeds) == order
    ensures CycleResult(order, m, bufferSize, succeeds, closeRequested) == EndOfCycle(Drained(order, m, bufferSize), closeRequested)
  {
    assert order[..|order|] == order;
  }

  /**
   * A failed cycle ends with the rejected batch as its last processing call,
   * and leaves the queue of every topic after it as it was.
   */
  lemma {:induction false} FailedCycleLeavesLaterTopics<R>(order: seq<string>, m: map<string, seq<R>>, bufferSize: int,
                                                           succeeds: (string, seq<R>) -> bool, j: int)
    requires Distinct(order)
    requires FirstRejected(order, m, bufferSize, succeeds) < j < |order|
    ensures var k := FirstRejected(order, m, bufferSize, succeeds);
      var d := Dispatches(Reached(order, m, bufferSize, succeeds), m, bufferSize);
      && d != []
      && d[|d| - 1] == (order[k], Batch(QueueOf(m, order[k]), bufferSize))
      && !succeeds(d[|d| - 1].0, d[|d| - 1].1)
    ensures QueueOf(DrainAlong(m, Reached(order, m, bufferSize, succeeds), bufferSize), order[j]) == QueueOf(m, order[j])
  {
    var k := FirstRejected(order, m, bufferSize, succeeds);
    var reached := Reached(order, m, bufferSize, succeeds);
    assert reached == order[..k + 1];
    assert reached[..k] == order[..k];
    DispatchesSnoc(order[..k], order[k], m, bufferSize);
    assert order[..k] + [order[k]] == reached;
    DistinctHasNoRepeats(order);
    ElementsAreMembers(reached);
    assert order[j] !in Elements(reached) by {
      forall i | 0 <= i < |reached| ensures reached[i] != order[j] {
        assert reached[i] == order[i];
      }
    }
    DrainAlongAt(m, reached, bufferSize, order[j]);
  }

  /**
   * A failed cycle has always counted the rejected batch, so the `eventually`
   * step after it neither stops the task nor sleeps: the failure passes on.
   */
  lemma FailedCycleCountsRecords<R>(order: seq<string>, m: map<string, seq<R>>, bufferSize: int,
                                    succeeds: (string, seq<R>) -> bool, closeRequested: bool)
    requires FirstRejected(order, m, bufferSize, succeeds) < |order|
    ensures Drained(Reached(order, m, bufferSize, succeeds), m, bufferSize) > 0
    ensures EndOfCycle(Drained(Reached(order, m, bufferSize, succeeds), m, bufferSize), closeRequested) == Continue
  {
    var k := FirstRejected(order, m, bufferSize, succeeds);
    assert Reached(order, m, bufferSize, succeeds) == order[..k] + [order[k]];
    DrainedSnoc(order[..k], order[k], m, bufferSize);
  }

  /** The queue of a topic after draining is the suffix the batch left behind. */
  lemma QueueOfDrain<R>(m: map<string, seq<R>>, bufferSize: int, t: string)
    ensures QueueOf(Drain(m, bufferSize), t) == Rest(QueueOf(m, t), bufferSize)
  {
  }

  /** Every batch handed on is non-empty, taken from its own topic's queue, and within the cap. */
  lemma {:induction false} DispatchesAreBoundedBatches<R>(order: seq<string>, m: map<string, seq<R>>, bufferSize: int)
    ensures forall k :: 0 <= k < |Dispatches(order, m, bufferSize)| ==>
      var call := Dispatches(order, m, bufferSize)[k];
      && call.0 in order
      && call.1 != []
      && call.1 == Batch(QueueOf(m, call.0), bufferSize)
      && |call.1| <= EffectiveCap(bufferSize)
    decreases |order|
  {
    if order != [] {
      var init := order[..|order| - 1];
      DispatchesAreBoundedBatches(init, m, bufferSize);
      assert forall t :: t in init ==> t in order;
    }
  }

  /** A visited topic with a non-empty queue has its batch among the cycle's calls. */
  lemma {:induction false} VisitedBacklogIsDispatched<R>(order: seq<string>, m: map<string, seq<R>>, bufferSize: int, t: string)
    requires t in order && QueueOf(m, t) != []
    ensures (t, Batch(QueueOf(m, t), bufferSize)) in Dispatches(order, m, bufferSize)
    decreases |order|
  {
    var init := order[..|order| - 1];
    if order[|order| - 1] != t {
      assert t in init by {
        var i :| 0 <= i < |order| && order[i] == t;
        assert init[i] == t;
      }
      VisitedBacklogIsDispatched(init, m, bufferSize, t);
    }
  }

  /**
   * A record written to a topic holding fewer than a batch is handed on,
   * last in its batch, by the next cycle.
   */
  lemma WrittenRecordIsDispatched<R>(order: seq<string>, m: map<string, seq<R>>, bufferSize: int, topic: string, r: R)
    requires |QueueOf(m, topic)| < EffectiveCap(bufferSize)
    requires IsEnumeration(order, m.Keys + {topic})
    ensures var written := m[topic := QueueOf(m, topic) + [r]];
      (topic, QueueOf(m, topic) + [r]) in Dispatches(order, written, bufferSize)
  {
    var written := m[topic := QueueOf(m, topic) + [r]];
    ElementsAreMembers(order);
    var q := QueueOf(m, topic) + [r];
    assert QueueOf(written, topic) == q;
    assert topic in order;
    assert Batch(q, bufferSize) == q[..|q|] == q;
    VisitedBacklogIsDispatched(order, written, bufferSize, topic);
  }

  /** A topic whose drained batch is non-empty is handed on exactly once in the cycle. */
  lemma {:induction false} NonEmptyBatchDispatchedOnce<R>(order: seq<string>, m: map<string, seq<R>>, bufferSize: int, t: string)
    requires Distinct(order)
    requires t in order && QueueOf(m, t) != []
    ensures |set k | 0 <= k < |Dispatches(order, m, bufferSize)| && Dispatches(order, m, bufferSize)[k].0 == t| == 1
    decreases |order|
  {
    var d := Dispatches(order, m, bufferSize);
    var init := order[..|order| - 1];
    var last := order[|order| - 1];
    var dInit := Dispatches(init, m, bufferSize);
    assert d == dInit + DispatchOf(last, m, bufferSize);
    DistinctHasNoRepeats(order);
    assert Distinct(init);
    DispatchesAreBoundedBatches(init, m, bufferSize);
    if last == t {
      assert t !in init by {
        forall i | 0 <= i < |init| ensures init[i] != t {
          assert order[i] != order[|order| - 1];
        }
      }
      assert Batch(QueueOf(m, t), bufferSize) != [];
      assert DispatchOf(last, m, bufferSize) == [(t, Batch(QueueOf(m, t), bufferSize))];
      assert (set k | 0 <= k < |d| && d[k].0 == t) == {|dInit|};
    } else {
      assert t in init;
      NonEmptyBatchDispatchedOnce(init, m, bufferSize, t);
      var tail := DispatchOf(last, m, bufferSize);
      assert forall k :: |dInit| <= k < |d| ==> d[k].0 == last;
      assert (set k | 0 <= k < |d| && d[k].0 == t) == (set k | 0 <= k < |dInit| && dInit[k].0 == t);
    }
  }

  /** The counter of a cycle equals the number of records its batch calls carry. */
  lemma {:induction false} CounterCountsDispatched<R>(order: seq<string>, m: map<string, seq<R>>, bufferSize: int)
    ensures Carried(Dispatches(order, m, bufferSize)) == Drained(order, m, bufferSize)
    decreases |order|
  {
    if order != [] {
      var init := order[..|order| - 1];
      var d0 := Dispatches(init, m, bufferSize);
      var tail := DispatchOf(order[|order| - 1], m, bufferSize);
      CounterCountsDispatched(init, m, bufferSize);
      if tail != [] {
        assert (d0 + tail)[..|d0 + tail| - 1] == d0;
      } else {
        assert d0 + tail == d0;
      }
    }
  }

  /**
   * No record is lost or duplicated by a cycle: what the queues held before
   * equals what they hold after plus what the cycle drained.
   */
  lemma {:induction false} CycleConservesRecords<R>(order: seq<string>, m: map<string, seq<R>>, bufferSize: int)
    ensures Pending(order, m) == Pending(order, Drain(m, bufferSize)) + Drained(order, m, bufferSize)
    decreases |order|
  {
    if order != [] {
      var t := order[|order| - 1];
      CycleConservesRecords(order[..|order| - 1], m, bufferSize);
      QueueOfDrain(m, bufferSize, t);
    }
  }

  /** A cycle over a topic list that holds a non-empty queue drains at least one record. */
  lemma {:induction false} BacklogIsDrained<R>(order: seq<string>, m: map<string, seq<R>>, bufferSize: int, t: string)
    requires t in order && QueueOf(m, t) != []
    ensures Drained(order, m, bufferSize) > 0
    decreases |order|
  {
    var last := order[|order| - 1];
    if last != t {
      assert t in order[..|order| - 1] by {
        var i :| 0 <= i < |order| && order[i] == t;
        assert i < |order| - 1;
        assert order[..|order| - 1][i] == t;
      }
      BacklogIsDrained(order[..|order| - 1], m, bufferSize, t);
    }
  }

  /**
   * A cycle that starts with any non-empty queue never stops or sleeps,
   * whatever the close flag says: closing only takes effect on an empty cycle.
   * It goes straight on unless a batch is rejected, which fails it.
   */
  lemma CycleWithBacklogNeverStops<R>(order: seq<string>, m: map<string, seq<R>>, bufferSize: int,
                                      succeeds: (string, seq<R>) -> bool, t: string, closeRequested: bool)
    requires IsEnumeration(order, m.Keys)
    requires t in m && m[t] != []
    ensures EndOfCycle(Drained(order, m, bufferSize), closeRequested) == Continue
    ensures CycleResult(order, m, bufferSize, succeeds, closeRequested) == Continue
      <==> FirstRejected(order, m, bufferSize, succeeds) == |order|
    ensures CycleResult(order, m, bufferSize, succeeds, closeRequested) != Failed
      ==> CycleResult(order, m, bufferSize, succeeds, closeRequested) == Continue
  {
    ElementsAreMembers(order);
    BacklogIsDrained(order, m, bufferSize, t);
  }

  /**
   * The batches successive drain steps take from one queue when nothing new
   * arrives: the shape of a drain "until empty" after close.
   */
  function BatchesUntilEmpty<R>(q: seq<R>, bufferSize: int): seq<seq<R>>
    decreases |q|
  {
    if q == [] then [] else [Batch(q, bufferSize)] + BatchesUntilEmpty(Rest(q, bufferSize), bufferSize)
  }

  function Concat<R>(batches: seq<seq<R>>): seq<R>
    decreases |batches|
  {
    if batches == [] then [] else batches[0] + Concat(batches[1..])
  }

  /**
   * Draining one topic to empty hands on every record exactly once and in
   * FIFO order; every batch is non-empty, at most the cap, and all but the
   * last are full.
   */
  lemma {:induction false} DrainToEmptyPreservesOrder<R>(q: seq<R>, bufferSize: int)
    ensures Concat(BatchesUntilEmpty(q, bufferSize)) == q
    ensures forall k :: 0 <= k < |BatchesUntilEmpty(q, bufferSize)| ==>
      0 < |BatchesUntilEmpty(q, bufferSize)[k]| <= EffectiveCap(bufferSize)
    ensures forall k :: 0 <= k < |BatchesUntilEmpty(q, bufferSize)| - 1 ==>
      |BatchesUntilEmpty(q, bufferSize)[k]| == EffectiveCap(bufferSize)
    decreases |q|
  {
    if q != [] {
      var rest := Rest(q, bufferSize);
      DrainToEmptyPreservesOrder(rest, bufferSize);
      var bs := BatchesUntilEmpty(q, bufferSize);
      assert bs[1..] == BatchesUntilEmpty(rest, bufferSize);
      if rest != [] {
        assert |Batch(q, bufferSize)| == EffectiveCap(bufferSize);
      }
    }
  }

  /** 300 records with a buffer size of 128 leave in batches of 128, 128 and 44. */
  lemma ThreeHundredRecordsInBatchesOf128<R>(q: seq<R>)
    requires |q| == 300
    ensures |BatchesUntilEmpty(q, DefaultTopicBufferSize)| == 3
    ensures |BatchesUntilEmpty(q, DefaultTopicBufferSize)[0]| == 128
    ensures |BatchesUntilEmpty(q, DefaultTopicBufferSize)[1]| == 128
    ensures |BatchesUntilEmpty(q, DefaultTopicBufferSize)[2]| == 44
  {
    var r1 := Rest(q, 128);
    var r2 := Rest(r1, 128);
    var r3 := Rest(r2, 128);
    assert |r1| == 172 && |r2| == 44 && r3 == [];
    assert BatchesUntilEmpty(r3, 128) == [];
    assert BatchesUntilEmpty(r2, 128) == [Batch(r2, 128)];
    assert BatchesUntilEmpty(r1, 128) == [Batch(r1, 128), Batch(r2, 128)];
  }
}
