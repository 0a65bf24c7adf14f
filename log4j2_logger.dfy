/**
 * The Log4j2 bridge logger of the `ext` package: a Log4j `AbstractLogger`
 * whose events become Keel `Log` entries handed to a `LogWriterAdapter`.
 */
module Log4j2Loggers {
  import opened Wrappers
  import opened LogLevels
  import opened Records
  import opened Log4j2Levels

  /**
   * `transLevel(@Nullable LogLevel)`: null and SILENT become OFF, INFO and
   * NOTICE become INFO, WARNING becomes WARN, the rest keep their names.
   */
  function FromKeel(level: Option<LogLevel>): (l: Level)
    ensures l == Level.OFF <==> level == None || level == Some(LogLevel.SILENT)
    ensures l == Level.INFO <==> level == Some(LogLevel.INFO) || level == Some(LogLevel.NOTICE)
    ensures l != Level.ALL && !l.Custom?
  {
    match level
    case None => Level.OFF
    case Some(k) =>
      match k
      case TRACE => Level.TRACE
      case DEBUG => Level.DEBUG
      case INFO => Level.INFO
      case NOTICE => Level.INFO
      case WARNING => Level.WARN
      case ERROR => Level.ERROR
      case FATAL => Level.FATAL
      case SILENT => Level.OFF
  }

  /** Keel -> Log4j -> Keel gives back every level except NOTICE, which comes back as INFO. */
  lemma KeelRoundTrip(k: LogLevel)
    ensures ToKeel(FromKeel(Some(k))) == (if k == LogLevel.NOTICE then LogLevel.INFO else k)
  {
  }

  /**
   * Log4j -> Keel -> Log4j gives back every standard level except ALL, which
   * comes back as TRACE; a custom level comes back as OFF.
   */
  lemma Log4jRoundTrip(l: Level)
    ensures FromKeel(Some(ToKeel(l))) == (if l == Level.ALL then Level.TRACE else if l.Custom? then Level.OFF else l)
  {
  }

  /** Every `isEnabled` overload: the translated level measured against the visible base level. */
  predicate Enabled(level: Level, visibleBaseLevel: LogLevel)
  {
    IsEnoughSeriousAs(ToKeel(level), visibleBaseLevel)
  }

  /**
   * For a base level other than NOTICE, the bridge enables a standard level
   * (other than ALL) exactly when Log4j itself would, given the level the
   * bridge reports through `getLevel()`.
   */
  lemma EnabledAgreesWithReportedLevel(level: Level, base: LogLevel)
    requires base != LogLevel.NOTICE
    requires !level.Custom? && level != Level.ALL
    ensures Enabled(level, base) <==> Log4jEnables(level, FromKeel(Some(base)))
  {
  }

  /**
   * With base NOTICE the two disagree: `getLevel()` reports INFO, so Log4j
   * would enable INFO events, but the bridge rejects them.
   */
  lemma NoticeBaseRejectsReportedLevel()
    ensures FromKeel(Some(LogLevel.NOTICE)) == Level.INFO
    ensures Log4jEnables(Level.INFO, FromKeel(Some(LogLevel.NOTICE)))
    ensures !Enabled(Level.INFO, LogLevel.NOTICE)
  {
  }

  /**
   * The entry `logMessage` builds from an event: the template, then the
   * translated level, the throwable if there is one, the formatted message,
   * and last the thread context (None when it is null or could not be read),
   * whose entries override the template's context under the same key.
   */
  function EventOf(logInitializer: Option<LogEntry -> LogEntry>, level: Level, formattedMessage: string,
                   t: Option<Throwable>, threadContext: Option<map<string, string>>): (e: LogEntry)
    ensures e.level == ToKeel(level)
    ensures e.message == Some(formattedMessage)
    ensures e.exception == (if t != None then t else Initialized(logInitializer).exception)
    ensures e.classification == Initialized(logInitializer).classification
    ensures e.context.Keys == Initialized(logInitializer).context.Keys
                              + (if threadContext != None then threadContext.value.Keys else {})
    ensures forall k :: k in e.context ==>
      e.context[k] == (if threadContext != None && k in threadContext.value then threadContext.value[k]
                       else Initialized(logInitializer).context[k])
  {
    var initialized := Initialized(logInitializer);
    var leveled := initialized.(level := ToKeel(level));
    var withException := if t != None then leveled.(exception := t) else leveled;
    var withMessage := withException.(message := Some(formattedMessage));
    if threadContext != None && threadContext.value != map[] then
      withMessage.(context := withMessage.context + threadContext.value)
    else
      withMessage
  }

  class KeelLog4j2Logger {
    const topic: string
    const visibleBaseLevel: LogLevel
    const logInitializer: Option<LogEntry -> LogEntry>
    /** Only decides whether a thread-context failure is reported on stderr. */
    const verbose: bool

    /** The adapter supplier is not a field: `LogMessage` takes what it returns. */
    constructor (visibleBaseLevel: LogLevel, topic: string, logInitializer: Option<LogEntry -> LogEntry>, verbose: bool)
      ensures this.visibleBaseLevel == visibleBaseLevel && this.topic == topic
      ensures this.logInitializer == logInitializer && this.verbose == verbose
    {
      this.visibleBaseLevel := visibleBaseLevel;
      this.topic := topic;
      this.logInitializer := logInitializer;
      this.verbose := verbose;
    }

    /**
     * Every `isEnabled(level, marker, message, ...)` overload: the marker,
     * message and parameters play no part. A custom level always passes, ALL
     * passes only at base TRACE, and for a base other than NOTICE a standard
     * level passes exactly when Log4j would pass it against `getLevel()`.
     */
    predicate IsEnabled(level: Level): (b: bool)
      ensures level.Custom? ==> b
      ensures level == Level.ALL ==> (b <==> visibleBaseLevel == LogLevel.TRACE)
      ensures visibleBaseLevel != LogLevel.NOTICE && !level.Custom? && level != Level.ALL ==>
        (b <==> Log4jEnables(level, GetLevel()))
    {
      Enabled(level, visibleBaseLevel)
    }

    /** `getLevel()`. */
    function GetLevel(): (l: Level)
      ensures l == FromKeel(Some(visibleBaseLevel))
      ensures !l.Custom? && l != Level.ALL
    {
      FromKeel(Some(visibleBaseLevel))
    }

    /**
     * `logMessage`: `adapter` is what the supplier returns, and
     * `threadContext` what `ThreadContext.getContext()` gives (None when it
     * is null or throws). Nothing happens without an adapter; otherwise
     * exactly one entry is accepted under the logger's topic. The threshold
     * is not checked again here.
     */
    method LogMessage(adapter: RecordSink?, level: Level, formattedMessage: string, t: Option<Throwable>,
                      threadContext: Option<map<string, string>>) returns (sent: Option<LogEntry>)
      modifies adapter
      ensures adapter == null ==> sent == None
      ensures adapter != null ==> sent != None && adapter.accepted == old(adapter.accepted) + [(topic, sent.value)]
      ensures sent != None ==> sent.value == EventOf(logInitializer, level, formattedMessage, t, threadContext)
    {
      if adapter == null {
        return None;
      }
      var keelEventLog := EventOf(logInitializer, level, formattedMessage, t, threadContext);
      adapter.Accept(topic, keelEventLog);
      sent := Some(keelEventLog);
    }
  }

  /** The line `getLogger` prints on standard output when it builds a logger. */
  function BuiltLoggerLine(name: string): string
  {
    "Keel Logging for log4j built logger for [" + name + "]"
  }

  /**
   * The `LoggerContext` of the bridge: one logger per name, built on first
   * request and cached for good.
   */
  class KeelLog4j2LoggerContext {
    var loggerMap: map<string, KeelLog4j2Logger>
    const visibleBaseLevel: LogLevel
    const logInitializer: Option<LogEntry -> LogEntry>
    /** Lines printed on standard output, oldest first. */
    var stdout: seq<string>

    /** `logger` is what this context builds for `name`. */
    ghost predicate Builds(logger: KeelLog4j2Logger, name: string)
    {
      && logger.topic == name
      && logger.visibleBaseLevel == visibleBaseLevel
      && logger.logInitializer == logInitializer
      && !logger.verbose
    }

    /** Every cached logger was built by this context under its own name. */
    ghost predicate Valid()
      reads this
    {
      forall name :: name in loggerMap ==> Builds(loggerMap[name], name)
    }

    constructor (visibleBaseLevel: LogLevel, logInitializer: Option<LogEntry -> LogEntry>)
      ensures Valid() && loggerMap == map[] && stdout == []
      ensures this.visibleBaseLevel == visibleBaseLevel && this.logInitializer == logInitializer
    {
      loggerMap := map[];
      this.visibleBaseLevel := visibleBaseLevel;
      this.logInitializer := logInitializer;
      stdout := [];
    }

    /** `hasLogger(name)`, and its overloads, which ignore the message factory. */
    predicate HasLogger(name: string)
      reads this
    {
      name in loggerMap
    }

    /**
     * `getLogger(name)`: the cached logger if there is one; otherwise a new
     * one, cached and announced on standard output. The new logger is not
     * verbose (see README).
     */
    method GetLogger(name: string) returns (logger: KeelLog4j2Logger)
      requires Valid()
      modifies this`loggerMap, this`stdout
      ensures Valid() && Builds(logger, name) && HasLogger(name)
      ensures loggerMap == old(loggerMap)[name := logger]
      ensures name in old(loggerMap) ==> logger == old(loggerMap)[name] && stdout == old(stdout)
      ensures name !in old(loggerMap) ==> fresh(logger) && stdout == old(stdout) + [BuiltLoggerLine(name)]
    {
      if name in loggerMap {
        logger := loggerMap[name];
      } else {
        logger := new KeelLog4j2Logger(visibleBaseLevel, name, logInitializer, false);
        loggerMap := loggerMap[name := logger];
        stdout := stdout + [BuiltLoggerLine(name)];
      }
    }

    /** `getLogger(name, messageFactory)`: the factory is ignored. */
    method GetLoggerWithMessageFactory<F>(name: string, messageFactory: F) returns (logger: KeelLog4j2Logger)
      requires Valid()
      modifies this`loggerMap, this`stdout
      ensures Valid() && Builds(logger, name) && HasLogger(name)
      ensures loggerMap == old(loggerMap)[name := logger]
      ensures name in old(loggerMap) ==> logger == old(loggerMap)[name] && stdout == old(stdout)
      ensures name !in old(loggerMap) ==> fresh(logger) && stdout == old(stdout) + [BuiltLoggerLine(name)]
    {
      logger := GetLogger(name);
    }
  }
}
