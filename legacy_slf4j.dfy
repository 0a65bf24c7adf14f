/**
 * The older SLF4J bridge of the `slf4j` package. TRACE is not supported:
 * `isTraceEnabled` is always false and every `trace` overload does nothing.
 * The other call families behave as in the `ext` bridge, on `EventRecord`s
 * handed to a `TopicRecordConsumer`. Its factory always announces a new
 * logger on standard output.
 */
module LegacySlf4j {
  import opened Wrappers
  import opened LogLevels
  import opened Records
  import opened Slf4jLoggers

  /** `isXxxEnabled()` of the older bridge. */
  predicate LegacyEnabled(call: CallLevel, visibleBaseLevel: LogLevel)
  {
    call != Trace && Enabled(call, visibleBaseLevel)
  }

  /**
   * The two bridges agree on every call family but TRACE, which the older
   * one never enables, even at base level TRACE where the newer one does.
   */
  lemma LegacyAgreesExceptTrace(call: CallLevel, base: LogLevel)
    ensures call != Trace ==> (LegacyEnabled(call, base) <==> Enabled(call, base))
    ensures !LegacyEnabled(Trace, base)
    ensures Enabled(Trace, LogLevel.TRACE)
  {
  }

  class KeelSlf4jLogger {
    const topic: string
    const visibleBaseLevel: LogLevel
    const issueRecordInitializer: Option<LogEntry -> LogEntry>

    constructor (visibleBaseLevel: LogLevel, topic: string, issueRecordInitializer: Option<LogEntry -> LogEntry>)
      ensures this.visibleBaseLevel == visibleBaseLevel && this.topic == topic
      ensures this.issueRecordInitializer == issueRecordInitializer
    {
      this.visibleBaseLevel := visibleBaseLevel;
      this.topic := topic;
      this.issueRecordInitializer := issueRecordInitializer;
    }

    /**
     * Every `isXxxEnabled` check, with or without a marker: never TRACE, and
     * otherwise as in the `ext` bridge.
     */
    predicate IsEnabled(call: CallLevel): (b: bool)
      ensures b <==> call != Trace && Severity(call) >= FirstEnabledSeverity(visibleBaseLevel)
    {
      LegacyEnabled(call, visibleBaseLevel)
    }

    /** `record(issueHandler)` once the handler has run. */
    method Record(consumer: RecordSink?, issue: LogEntry) returns (sent: bool)
      modifies consumer
      ensures sent <==> consumer != null && IsEnoughSeriousAs(issue.level, visibleBaseLevel)
      ensures consumer != null ==> consumer.accepted == old(consumer.accepted) + (if sent then [(topic, issue)] else [])
    {
      sent := false;
      if IsEnoughSeriousAs(issue.level, visibleBaseLevel) {
        if consumer != null {
          consumer.Accept(topic, issue);
          sent := true;
        }
      }
    }

    /**
     * Every logging overload: a `trace` call does nothing; any other builds
     * the entry from the template and records it.
     */
    method Log(consumer: RecordSink?, call: CallLevel, marker: Arg<Option<Marker>>, message: string,
               t: Arg<Option<Throwable>>) returns (sent: bool)
      modifies consumer
      ensures sent <==> consumer != null && IsEnabled(call)
      ensures consumer != null ==>
        consumer.accepted == old(consumer.accepted)
          + (if sent then [(topic, CallEntry(Initialized(issueRecordInitializer), call, marker, message, t))] else [])
    {
      if call == Trace {
        return false;
      }
      var issue := Initialized(issueRecordInitializer);
      issue := issue.(level := KeelLevelOf(call));
      if marker.Given? {
        var classification := TransformMarkerToClassification(marker.value);
        issue := issue.(classification := classification);
      }
      issue := issue.(message := Some(message));
      if t.Given? {
        issue := issue.(exception := t.value);
      }
      sent := Record(consumer, issue);
    }
  }

  /** `KeelLoggerFactory`: one logger per name at base level INFO, each announced once. */
  class KeelLoggerFactory {
    var loggerCache: map<string, KeelSlf4jLogger>
    const issueRecordInitializer: Option<LogEntry -> LogEntry>
    /** Lines printed on standard output, oldest first. */
    var stdout: seq<string>

    /** `logger` is what this factory builds for `name`. */
    ghost predicate Builds(logger: KeelSlf4jLogger, name: string)
    {
      && logger.topic == name
      && logger.visibleBaseLevel == LogLevel.INFO
      && logger.issueRecordInitializer == issueRecordInitializer
    }

    /** Every cached logger was built by this factory under its own name. */
    ghost predicate Valid()
      reads this
    {
      forall name :: name in loggerCache ==> Builds(loggerCache[name], name)
    }

    constructor (issueRecordInitializer: Option<LogEntry -> LogEntry>)
      ensures Valid() && loggerCache == map[] && stdout == []
      ensures this.issueRecordInitializer == issueRecordInitializer
    {
      loggerCache := map[];
      this.issueRecordInitializer := issueRecordInitializer;
      stdout := [];
    }

    /** `getLogger(name)`: the cached logger, or a new one at INFO, announced and cached. */
    method GetLogger(name: string) returns (logger: KeelSlf4jLogger)
      requires Valid()
      modifies this`loggerCache, this`stdout
      ensures Valid() && Builds(logger, name)
      ensures loggerCache == old(loggerCache)[name := logger]
      ensures name in old(loggerCache) ==> logger == old(loggerCache)[name] && stdout == old(stdout)
      ensures name !in old(loggerCache) ==> fresh(logger) && stdout == old(stdout) + [BuiltLoggerLine(name)]
    {
      if name in loggerCache {
        logger := loggerCache[name];
      } else {
        logger := new KeelSlf4jLogger(LogLevel.INFO, name, issueRecordInitializer);
        stdout := stdout + [BuiltLoggerLine(name)];
        loggerCache := loggerCache[name := logger];
      }
    }
  }
}
