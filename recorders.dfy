/**
 * The recorders that hold a visible level: the two abstract recorders with a
 * settable level (INFO by default), and the two silent recorders whose level
 * is fixed at SILENT and whose record calls do nothing.
 */
module Recorders {
  import opened Wrappers
  import opened LogLevels

  /** `AbstractIssueRecorder`: a topic fixed at construction and a settable visible level. */
  class AbstractIssueRecorder {
    const topic: string
    var visibleLevel: LogLevel

    constructor (topic: string)
      ensures this.topic == topic && visibleLevel == LogLevel.INFO
    {
      this.topic := topic;
      visibleLevel := LogLevel.INFO;
    }

    /** `visibleLevel(level)`: the getter then gives `level`; the recorder itself is returned. */
    method SetVisibleLevel(level: LogLevel) returns (self: AbstractIssueRecorder)
      modifies this`visibleLevel
      ensures visibleLevel == level && self == this
    {
      visibleLevel := level;
      self := this;
    }
  }

  /** `AbstractEventRecorder`: the same shape for event records. */
  class AbstractEventRecorder {
    const topic: string
    var visibleLevel: LogLevel

    constructor (topic: string)
      ensures this.topic == topic && visibleLevel == LogLevel.INFO
    {
      this.topic := topic;
      visibleLevel := LogLevel.INFO;
    }

    /** `visibleLevel(level)`: the getter then gives `level`; the recorder itself is returned. */
    method SetVisibleLevel(level: LogLevel) returns (self: AbstractEventRecorder)
      modifies this`visibleLevel
      ensures visibleLevel == level && self == this
    {
      visibleLevel := level;
      self := this;
    }
  }

  /** What a recorder can throw. */
  datatype RecorderError = UnsupportedOperation(reason: string)

  /** `SilentEventRecorder`: a recorder without state that ignores every call. */
  class SilentEventRecorder {
    constructor ()
    {
    }

    /** `visibleLevel()`. */
    function VisibleLevel(): LogLevel
    {
      LogLevel.SILENT
    }

    /** `visibleLevel(level)`: ignores `level`, changes nothing and returns the recorder itself. */
    method SetVisibleLevel(level: LogLevel) returns (self: SilentEventRecorder)
      ensures self == this && self.VisibleLevel() == LogLevel.SILENT
    {
      self := this;
    }

    /** `topic()`. */
    function Topic(): string
    {
      ""
    }

    /** `adapter()`: always throws. */
    function Adapter(): (r: Outcome<RecorderError>)
      ensures r.Fail? && r.error.UnsupportedOperation?
    {
      Fail(UnsupportedOperation("SilentEventRecorder does not support adapter"))
    }

    /** `recordEvent(record)`: nothing happens; it may modify nothing. */
    method RecordEvent<E>(eventRecord: E)
    {
    }
  }

  /**
   * `SilentIssueRecorder`: the only state is the list of bypass recorders,
   * which only grows; the level, the formatter and recording are inert.
   */
  class SilentIssueRecorder<B> {
    var bypassIssueRecorders: seq<B>

    constructor ()
      ensures bypassIssueRecorders == []
    {
      bypassIssueRecorders := [];
    }

    /** `getVisibleLevel()`. */
    function GetVisibleLevel(): LogLevel
    {
      LogLevel.SILENT
    }

    /** `setVisibleLevel(level)`: nothing changes. */
    method SetVisibleLevel(level: LogLevel)
      ensures GetVisibleLevel() == LogLevel.SILENT
    {
    }

    /** `issueRecordBuilder()`: a supplier of null. */
    function IssueRecordBuilder<T>(): (build: () -> Option<T>)
      ensures build() == None
    {
      () => None
    }

    /** `addBypassIssueRecorder(b)`: append `b`. */
    method AddBypassIssueRecorder(bypassIssueRecorder: B)
      modifies this
      ensures bypassIssueRecorders == old(bypassIssueRecorders) + [bypassIssueRecorder]
    {
      bypassIssueRecorders := bypassIssueRecorders + [bypassIssueRecorder];
    }

    /** `topic()`. */
    function Topic(): string
    {
      "silent"
    }

    /** `getRecordFormatter()`: always null. */
    function GetRecordFormatter<H>(): Option<H>
    {
      None
    }

    /** `setRecordFormatter(handler)`: nothing changes; the formatter stays null. */
    method SetRecordFormatter<H>(handler: Option<H>)
      ensures GetRecordFormatter<H>() == None
    {
    }

    /** `record(issueHandler)`: the handler is not run and nothing is forwarded. */
    method Record<H>(issueHandler: H)
      ensures bypassIssueRecorders == old(bypassIssueRecorders)
    {
    }
  }
}
