/**
 * The SLF4J bridge of the `ext` package: a `Logger` whose calls become Keel
 * `Log` entries, with SLF4J markers turned into the entry's classification,
 * and the factory that hands out one logger per name.
 */
module Slf4jLoggers {
  import opened Wrappers
  import opened LogLevels
  import opened Records

  /** The five SLF4J call families: `trace`, `debug`, `info`, `warn`, `error`. */
  datatype CallLevel = Trace | Debug | Info | Warn | Error

  /** The Keel level each call family writes (`warn` writes WARNING). */
  function KeelLevelOf(call: CallLevel): (k: LogLevel)
    ensures k != LogLevel.NOTICE && k != LogLevel.FATAL && k != LogLevel.SILENT
    ensures call == Warn <==> k == LogLevel.WARNING
  {
    match call
    case Trace => LogLevel.TRACE
    case Debug => LogLevel.DEBUG
    case Info => LogLevel.INFO
    case Warn => LogLevel.WARNING
    case Error => LogLevel.ERROR
  }

  /** `isXxxEnabled()` and `isXxxEnabled(marker)`: the call's level against the base level. */
  predicate Enabled(call: CallLevel, visibleBaseLevel: LogLevel)
  {
    IsEnoughSeriousAs(KeelLevelOf(call), visibleBaseLevel)
  }

  /** Severity order of the call families. */
  function Severity(call: CallLevel): nat
  {
    match call
    case Trace => 0
    case Debug => 1
    case Info => 2
    case Warn => 3
    case Error => 4
  }

  /**
   * For each base level, the least severe call family it enables (5: none):
   * TRACE enables all five, NOTICE and WARNING only `warn` and `error`.
   */
  function FirstEnabledSeverity(visibleBaseLevel: LogLevel): nat
  {
    match visibleBaseLevel
    case TRACE => 0
    case DEBUG => 1
    case INFO => 2
    case NOTICE => 3
    case WARNING => 3
    case ERROR => 4
    case FATAL => 5
    case SILENT => 5
  }

  /** A call family enabled at some base level enables every more severe family too. */
  lemma EnabledIsUpwardClosed(call: CallLevel, more: CallLevel, base: LogLevel)
    requires Enabled(call, base) && Severity(call) <= Severity(more)
    ensures Enabled(more, base)
  {
  }

  /**
   * With the default base level INFO, exactly `info`, `warn` and `error` are
   * enabled.
   */
  lemma DefaultBaseEnablesInfoAndAbove(call: CallLevel)
    ensures Enabled(call, LogLevel.INFO) <==> call == Info || call == Warn || call == Error
  {
  }

  /**
   * `transformMarkerToClassification`: the marker's name, then the name of
   * each marker it references, in iterator order; nothing for a null marker.
   */
  method TransformMarkerToClassification(marker: Option<Marker>) returns (classification: seq<string>)
    ensures classification == ClassificationOf(marker)
  {
    classification := [];
    if marker != None {
      var m := marker.value;
      classification := classification + [m.name];
      var i := 0;
      while i < |m.references|
        invariant 0 <= i <= |m.references|
        invariant classification == [m.name] + Names(m.references[..i])
      {
        NamesSnoc(m.references[..i], m.references[i]);
        assert m.references[..i + 1] == m.references[..i] + [m.references[i]];
        classification := classification + [m.references[i].name];
        i := i + 1;
      }
      assert m.references[..i] == m.references;
    }
  }

  lemma {:induction false} NamesSnoc(markers: seq<Marker>, m: Marker)
    ensures Names(markers + [m]) == Names(markers) + [m.name]
  {
    var n := Names(markers + [m]);
    assert |n| == |Names(markers) + [m.name]|;
    forall i | 0 <= i < |n|
      ensures n[i] == (Names(markers) + [m.name])[i]
    {
      assert (markers + [m])[i] == if i < |markers| then markers[i] else m;
    }
  }

  /**
   * The entry one logging call builds: the template, then the call's level,
   * the marker's classification when the overload takes a marker, the
   * message (already formatted), and the throwable when the overload takes
   * one, even a null one. `Absent` stands for an overload without the
   * parameter.
   */
  function CallEntry(template: LogEntry, call: CallLevel, marker: Arg<Option<Marker>>, message: string,
                     t: Arg<Option<Throwable>>): (e: LogEntry)
    ensures e.level == KeelLevelOf(call)
    ensures e.message == Some(message)
    ensures e.classification == (if marker.Given? then ClassificationOf(marker.value) else template.classification)
    ensures e.exception == (if t.Given? then t.value else template.exception)
    ensures e.context == template.context
  {
    var leveled := template.(level := KeelLevelOf(call));
    var classified := if marker.Given? then leveled.(classification := ClassificationOf(marker.value)) else leveled;
    var withMessage := classified.(message := Some(message));
    if t.Given? then withMessage.(exception := t.value) else withMessage
  }

  /**
   * The template's own level plays no part in the gate: the call overwrites
   * it, so an entry passes exactly when its call family is enabled.
   */
  lemma GateDependsOnlyOnCall(template: LogEntry, call: CallLevel, marker: Arg<Option<Marker>>, message: string,
                               t: Arg<Option<Throwable>>, base: LogLevel)
    ensures IsEnoughSeriousAs(CallEntry(template, call, marker, message, t).level, base) <==> Enabled(call, base)
  {
  }

  class KeelSlf4jLogger {
    const topic: string
    const visibleBaseLevel: LogLevel
    const logInitializer: Option<LogEntry -> LogEntry>

    constructor (visibleBaseLevel: LogLevel, topic: string, logInitializer: Option<LogEntry -> LogEntry>)
      ensures this.visibleBaseLevel == visibleBaseLevel && this.topic == topic
      ensures this.logInitializer == logInitializer
    {
      this.visibleBaseLevel := visibleBaseLevel;
      this.topic := topic;
      this.logInitializer := logInitializer;
    }

    /**
     * Every `isXxxEnabled` check, with or without a marker: a family is enabled
     * exactly when it is at least the least severe one the base level enables.
     */
    predicate IsEnabled(call: CallLevel): (b: bool)
      ensures b <==> Severity(call) >= FirstEnabledSeverity(visibleBaseLevel)
    {
      Enabled(call, visibleBaseLevel)
    }

    /**
     * `record(issueHandler)` once the handler has run: hand `issue` to the
     * adapter under the logger's name if its level passes the base level
     * and there is an adapter.
     */
    method Record(adapter: RecordSink?, issue: LogEntry) returns (sent: bool)
      modifies adapter
      ensures sent <==> adapter != null && IsEnoughSeriousAs(issue.level, visibleBaseLevel)
      ensures adapter != null ==> adapter.accepted == old(adapter.accepted) + (if sent then [(topic, issue)] else [])
    {
      sent := false;
      if IsEnoughSeriousAs(issue.level, visibleBaseLevel) {
        if adapter != null {
          adapter.Accept(topic, issue);
          sent := true;
        }
      }
    }

    /**
     * Every `trace`/`debug`/`info`/`warn`/`error` overload: build the entry
     * from the template and record it.
     */
    method Log(adapter: RecordSink?, call: CallLevel, marker: Arg<Option<Marker>>, message: string,
               t: Arg<Option<Throwable>>) returns (sent: bool)
      modifies adapter
      ensures sent <==> adapter != null && IsEnabled(call)
      ensures adapter != null ==>
        adapter.accepted == old(adapter.accepted)
          + (if sent then [(topic, CallEntry(Initialized(logInitializer), call, marker, message, t))] else [])
    {
      var issue := Initialized(logInitializer);
      issue := issue.(level := KeelLevelOf(call));
      if marker.Given? {
        var classification := TransformMarkerToClassification(marker.value);
        issue := issue.(classification := classification);
      }
      issue := issue.(message := Some(message));
      if t.Given? {
        issue := issue.(exception := t.value);
      }
      sent := Record(adapter, issue);
    }
  }

  /** The line the factory prints when it builds a logger. */
  function BuiltLoggerLine(name: string): string
  {
    "Keel Logging for slf4j built logger for [" + name + "]"
  }

  /** The `ILoggerFactory`: one logger per name, at base level INFO, never evicted. */
  class KeelSlf4jLoggerFactory {
    var loggerCache: map<string, KeelSlf4jLogger>
    const logInitializer: Option<LogEntry -> LogEntry>
    const verbose: bool
    /** Lines printed on standard output, oldest first. */
    var stdout: seq<string>

    /** `logger` is what this factory builds for `name`. */
    ghost predicate Builds(logger: KeelSlf4jLogger, name: string)
    {
      && logger.topic == name
      && logger.visibleBaseLevel == LogLevel.INFO
      && logger.logInitializer == logInitializer
    }

    /** Every cached logger was built by this factory under its own name. */
    ghost predicate Valid()
      reads this
    {
      forall name :: name in loggerCache ==> Builds(loggerCache[name], name)
    }

    constructor (logInitializer: Option<LogEntry -> LogEntry>, verbose: bool)
      ensures Valid() && loggerCache == map[] && stdout == []
      ensures this.logInitializer == logInitializer && this.verbose == verbose
    {
      loggerCache := map[];
      this.logInitializer := logInitializer;
      this.verbose := verbose;
      stdout := [];
    }

    /**
     * `getLogger(name)`: the cached logger, or a new one at INFO, cached and,
     * when verbose, announced on standard output.
     */
    method GetLogger(name: string) returns (logger: KeelSlf4jLogger)
      requires Valid()
      modifies this`loggerCache, this`stdout
      ensures Valid() && Builds(logger, name)
      ensures loggerCache == old(loggerCache)[name := logger]
      ensures name in old(loggerCache) ==> logger == old(loggerCache)[name] && stdout == old(stdout)
      ensures name !in old(loggerCache) ==>
        && fresh(logger)
        && stdout == old(stdout) + (if verbose then [BuiltLoggerLine(name)] else [])
    {
      if name in loggerCache {
        logger := loggerCache[name];
      } else {
        logger := new KeelSlf4jLogger(LogLevel.INFO, name, logInitializer);
        if verbose {
          stdout := stdout + [BuiltLoggerLine(name)];
        }
        loggerCache := loggerCache[name := logger];
      }
    }
  }
}
