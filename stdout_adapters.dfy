/**
 * The two stdout issue-record adapters. Rendering (`issueRecordRender()`) is
 * left uninterpreted: each adapter carries it as a function of the topic and
 * the record, and standard output is the sequence of printed lines.
 */
module StdoutAdapters {
  import opened Wrappers

  /** The delay, in milliseconds, before the asynchronous adapter's next pass. */
  const PassDelayMillis: nat := 100

  /** The lines printed for `entries`, one per entry, in order, each with its own topic. */
  function RenderAll<Rec>(render: (string, Rec) -> string, entries: seq<(string, Rec)>): (lines: seq<string>)
    ensures |lines| == |entries|
    ensures forall i :: 0 <= i < |entries| ==> lines[i] == render(entries[i].0, entries[i].1)
    decreases |entries|
  {
    if entries == [] then []
    else
      var last := entries[|entries| - 1];
      RenderAll(render, entries[..|entries| - 1]) + [render(last.0, last.1)]
  }

  /**
   * `AsyncStdoutAdapter`: `record` only enqueues; a pass started by the
   * constructor and re-armed every 100 ms prints everything queued.
   */
  class AsyncStdoutAdapter<Rec> {
    const render: (string, Rec) -> string
    /** `WrappedIssueRecord`s waiting to be printed, oldest first. */
    var queue: seq<(string, Rec)>
    var closed: bool
    /** Lines printed so far. */
    var stdout: seq<string>

    constructor (render: (string, Rec) -> string)
      ensures this.render == render
      ensures queue == [] && !closed && stdout == []
    {
      this.render := render;
      queue := [];
      closed := false;
      stdout := [];
    }

    /** `isClosed()`. */
    function IsClosed(): bool
      reads this
    {
      closed
    }

    /** `record`: a null record is dropped; any other is queued, open or closed. */
    method Record(topic: string, issueRecord: Option<Rec>)
      modifies this`queue
      ensures issueRecord == None ==> queue == old(queue)
      ensures issueRecord != None ==> queue == old(queue) + [(topic, issueRecord.value)]
    {
      if issueRecord != None {
        queue := queue + [(topic, issueRecord.value)];
      }
    }

    /** `queue.poll()`. */
    method Poll() returns (r: Option<(string, Rec)>)
      modifies this`queue
      ensures old(queue) == [] ==> r == None && queue == []
      ensures old(queue) != [] ==> r == Some(old(queue)[0]) && queue == old(queue)[1..]
    {
      if queue == [] {
        r := None;
      } else {
        r := Some(queue[0]);
        queue := queue[1..];
      }
    }

    /** `writeOneIssueRecord`: print the rendering of one record. */
    method WriteOneIssueRecord(topic: string, issueRecord: Rec)
      modifies this`stdout
      ensures stdout == old(stdout) + [render(topic, issueRecord)]
    {
      stdout := stdout + [render(topic, issueRecord)];
    }

    /**
     * One pass of `start`: print every queued record in FIFO order until the
     * queue is empty, then re-arm the timer. The delay does not depend on
     * `closed`: closing never stops the passes.
     */
    method Pass() returns (nextDelay: nat)
      modifies this`queue, this`stdout
      ensures queue == []
      ensures stdout == old(stdout) + RenderAll(render, old(queue))
      ensures nextDelay == PassDelayMillis
    {
      ghost var queue0 := queue;
      ghost var printed := 0;
      while true
        invariant 0 <= printed <= |queue0|
        invariant queue == queue0[printed..]
        invariant stdout == old(stdout) + RenderAll(render, queue0[..printed])
        decreases |queue|
      {
        var wrapped := Poll();
        if wrapped == None {
          break;
        }
        WriteOneIssueRecord(wrapped.value.0, wrapped.value.1);
        assert queue0[..printed + 1][..printed] == queue0[..printed];
        printed := printed + 1;
      }
      assert queue0[..printed] == queue0;
      nextDelay := PassDelayMillis;
    }

    /** `gracefullyClose`: only sets the flag; the queue and the passes go on. */
    method GracefullyClose()
      modifies this`closed
      ensures IsClosed()
    {
      closed := true;
    }
  }

  /** `SyncStdoutAdapter`: prints each non-null record at once, until closed. */
  class SyncStdoutAdapter<Rec> {
    const render: (string, Rec) -> string
    var closed: bool
    /** Lines printed so far. */
    var stdout: seq<string>

    constructor (render: (string, Rec) -> string)
      ensures this.render == render
      ensures !closed && stdout == []
    {
      this.render := render;
      closed := false;
      stdout := [];
    }

    /** `isClosed()`. */
    function IsClosed(): bool
      reads this
    {
      closed
    }

    /** `record`: exactly one line for a non-null record while open, nothing otherwise. */
    method Record(topic: string, issueRecord: Option<Rec>)
      modifies this`stdout
      ensures issueRecord != None && !closed ==> stdout == old(stdout) + [render(topic, issueRecord.value)]
      ensures issueRecord == None || closed ==> stdout == old(stdout)
    {
      if issueRecord != None && !closed {
        stdout := stdout + [render(topic, issueRecord.value)];
      }
    }

    /** `gracefullyClose`: every later `record` prints nothing. */
    method GracefullyClose()
      modifies this`closed
      ensures IsClosed()
    {
      closed := true;
    }
  }
}
