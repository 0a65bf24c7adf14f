/**
 * The older Log4j2 bridge of the `log4j2` package. It differs from the `ext`
 * one in three ways: its events are `EventRecord`s handed to a
 * `TopicRecordConsumer`, it has no `verbose` switch, and its
 * `transLevel(LogLevel)` is a `switch` statement over a non-null level.
 */
module LegacyLog4j2 {
  import opened Wrappers
  import opened LogLevels
  import opened Records
  import opened Log4j2Levels
  import opened Log4j2Loggers

  /** `transLevel(LogLevel)`: the `switch`, whose `default` joins SILENT. */
  function LegacyFromKeel(level: LogLevel): (l: Level)
    ensures l == FromKeel(Some(level))
  {
    match level
    case TRACE => Level.TRACE
    case DEBUG => Level.DEBUG
    case INFO | NOTICE => Level.INFO
    case WARNING => Level.WARN
    case ERROR => Level.ERROR
    case FATAL => Level.FATAL
    case SILENT => Level.OFF
  }

  class KeelLog4j2Logger {
    const topic: string
    const visibleBaseLevel: LogLevel
    const issueRecordInitializer: Option<LogEntry -> LogEntry>

    constructor (visibleBaseLevel: LogLevel, topic: string, issueRecordInitializer: Option<LogEntry -> LogEntry>)
      ensures this.visibleBaseLevel == visibleBaseLevel && this.topic == topic
      ensures this.issueRecordInitializer == issueRecordInitializer
    {
      this.visibleBaseLevel := visibleBaseLevel;
      this.topic := topic;
      this.issueRecordInitializer := issueRecordInitializer;
    }

    /**
     * Every `isEnabled(level, marker, message, ...)` overload: the marker,
     * message and parameters play no part. A custom level always passes, ALL
     * passes only at base TRACE, and for a base other than NOTICE a standard
     * level passes exactly when Log4j would pass it against `getLevel()`.
     */
    predicate IsEnabled(level: Level): (b: bool)
      ensures level.Custom? ==> b
      ensures level == Level.ALL ==> (b <==> visibleBaseLevel == LogLevel.TRACE)
      ensures visibleBaseLevel != LogLevel.NOTICE && !level.Custom? && level != Level.ALL ==>
        (b <==> Log4jEnables(level, GetLevel()))
    {
      Enabled(level, visibleBaseLevel)
    }

    /** `getLevel()`: the same level the `ext` bridge reports. */
    function GetLevel(): (l: Level)
      ensures l == FromKeel(Some(visibleBaseLevel))
    {
      LegacyFromKeel(visibleBaseLevel)
    }

    /** `logMessage`: the same entry as the `ext` bridge, handed to the consumer. */
    method LogMessage(consumer: RecordSink?, level: Level, formattedMessage: string, t: Option<Throwable>,
                      threadContext: Option<map<string, string>>) returns (sent: Option<LogEntry>)
      modifies consumer
      ensures consumer == null ==> sent == None
      ensures consumer != null ==> sent != None && consumer.accepted == old(consumer.accepted) + [(topic, sent.value)]
      ensures sent != None ==> sent.value == EventOf(issueRecordInitializer, level, formattedMessage, t, threadContext)
    {
      if consumer == null {
        return None;
      }
      var keelEventLog := EventOf(issueRecordInitializer, level, formattedMessage, t, threadContext);
      consumer.Accept(topic, keelEventLog);
      sent := Some(keelEventLog);
    }
  }

  class KeelLog4j2LoggerContext {
    var loggerMap: map<string, KeelLog4j2Logger>
    const visibleBaseLevel: LogLevel
    const issueRecordInitializer: Option<LogEntry -> LogEntry>
    /** Lines printed on standard output, oldest first. */
    var stdout: seq<string>

    /** `logger` is what this context builds for `name`. */
    ghost predicate Builds(logger: KeelLog4j2Logger, name: string)
    {
      && logger.topic == name
      && logger.visibleBaseLevel == visibleBaseLevel
      && logger.issueRecordInitializer == issueRecordInitializer
    }

    /** Every cached logger was built by this context under its own name. */
    ghost predicate Valid()
      reads this
    {
      forall name :: name in loggerMap ==> Builds(loggerMap[name], name)
    }

    constructor (visibleBaseLevel: LogLevel, issueRecordInitializer: Option<LogEntry -> LogEntry>)
      ensures Valid() && loggerMap == map[] && stdout == []
      ensures this.visibleBaseLevel == visibleBaseLevel && this.issueRecordInitializer == issueRecordInitializer
    {
      loggerMap := map[];
      this.visibleBaseLevel := visibleBaseLevel;
      this.issueRecordInitializer := issueRecordInitializer;
      stdout := [];
    }

    /** `hasLogger(name)`, and its overloads, which ignore the message factory. */
    predicate HasLogger(name: string)
      reads this
    {
      name in loggerMap
    }

    /** `getLogger(name)`: the cached logger, or a new one, cached and announced. */
    method GetLogger(name: string) returns (logger: KeelLog4j2Logger)
      requires Valid()
      modifies this`loggerMap, this`stdout
      ensures Valid() && Builds(logger, name) && HasLogger(name)
      ensures loggerMap == old(loggerMap)[name := logger]
      ensures name in old(loggerMap) ==> logger == old(loggerMap)[name] && stdout == old(stdout)
      ensures name !in old(loggerMap) ==> fresh(logger) && stdout == old(stdout) + [BuiltLoggerLine(name)]
    {
      if name in loggerMap {
        logger := loggerMap[name];
      } else {
        logger := new KeelLog4j2Logger(visibleBaseLevel, name, issueRecordInitializer);
        loggerMap := loggerMap[name := logger];
        stdout := stdout + [BuiltLoggerLine(name)];
      }
    }

    /** `getLogger(name, messageFactory)`: the factory is ignored. */
    method GetLoggerWithMessageFactory<F>(name: string, messageFactory: F) returns (logger: KeelLog4j2Logger)
      requires Valid()
      modifies this`loggerMap, this`stdout
      ensures Valid() && Builds(logger, name) && HasLogger(name)
      ensures loggerMap == old(loggerMap)[name := logger]
      ensures name in old(loggerMap) ==> logger == old(loggerMap)[name] && stdout == old(stdout)
      ensures name !in old(loggerMap) ==> fresh(logger) && stdout == old(stdout) + [BuiltLoggerLine(name)]
    {
      logger := GetLogger(name);
    }
  }
}
