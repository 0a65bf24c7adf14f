/**
 * Values the bridges build and hand on: the external `Log` / `EventRecord`
 * entry, SLF4J markers, and a sink that collects what an adapter accepts.
 */
module Records {
  import opened Wrappers
  import opened LogLevels

  /** Stand-in for a `Throwable`: only its identity in the record matters here. */
  datatype Throwable = Throwable(description: string)

  /**
   * The external `Log` (and the older `EventRecord`) entry, reduced to the
   * fields the bridges set: level, message, exception, classification and the
   * context entries copied from the thread context.
   */
  datatype LogEntry = LogEntry(
    level: LogLevel,
    message: Option<string>,
    exception: Option<Throwable>,
    classification: seq<string>,
    context: map<string, string>)

  /**
   * A freshly constructed entry (`new Log()`, `new EventRecord()`), assumed to
   * carry level INFO and nothing else.
   */
  const NewLogEntry := LogEntry(INFO, None, None, [], map[])

  /**
   * The entry every bridge starts from: a fresh entry, then the initializer
   * hook if one is configured.
   */
  function Initialized(initializer: Option<LogEntry -> LogEntry>): LogEntry
  {
    match initializer
    case None => NewLogEntry
    case Some(init) => init(NewLogEntry)
  }

  /** An SLF4J marker: its name and the markers it references, in iterator order. */
  datatype Marker = Marker(name: string, references: seq<Marker>)

  /** Names of a sequence of markers, in order. */
  function Names(markers: seq<Marker>): (names: seq<string>)
    ensures |names| == |markers|
    ensures forall i :: 0 <= i < |markers| ==> names[i] == markers[i].name
  {
    if markers == [] then [] else [markers[0].name] + Names(markers[1..])
  }

  /**
   * The classification a marker stands for: nothing for a null marker,
   * otherwise its own name followed by the names of its references.
   */
  function ClassificationOf(marker: Option<Marker>): (c: seq<string>)
    ensures marker == None ==> c == []
    ensures marker != None ==>
      && |c| == 1 + |marker.value.references|
      && c[0] == marker.value.name
      && forall i :: 0 <= i < |marker.value.references| ==> c[i + 1] == marker.value.references[i].name
  {
    match marker
    case None => []
    case Some(m) => [m.name] + Names(m.references)
  }

  /**
   * An adapter as the bridges see it (`LogWriterAdapter`, `TopicRecordConsumer`):
   * every accepted (topic, entry) pair is appended to `accepted`.
   */
  class RecordSink {
    var accepted: seq<(string, LogEntry)>

    constructor ()
      ensures accepted == []
    {
      accepted := [];
    }

    method Accept(topic: string, entry: LogEntry)
      modifies this
      ensures accepted == old(accepted) + [(topic, entry)]
    {
      accepted := accepted + [(topic, entry)];
    }
  }
}
