/**
 * The severity scale of the Keel logger API.
 *
 * `LogLevel` lives in the external keel-logger-api. Its eight constants are the
 * ones the exhaustive switch in the Log4j2 bridge enumerates, in that order.
 * `isEnoughSeriousAs` is assumed to compare positions on that scale: a
 * candidate passes a threshold when it stands at or above it.
 */
module LogLevels {

  datatype LogLevel = TRACE | DEBUG | INFO | NOTICE | WARNING | ERROR | FATAL | SILENT

  /** Position of a level on the severity scale (assumption: declaration order). */
  function Rank(level: LogLevel): (r: nat)
    ensures r < 8
    ensures r == 0 <==> level == TRACE
    ensures r == 7 <==> level == SILENT
  {
    match level
    case TRACE => 0
    case DEBUG => 1
    case INFO => 2
    case NOTICE => 3
    case WARNING => 4
    case ERROR => 5
    case FATAL => 6
    case SILENT => 7
  }

  /** `candidate.isEnoughSeriousAs(threshold)`, as a rank comparison. */
  predicate IsEnoughSeriousAs(candidate: LogLevel, threshold: LogLevel)
  {
    Rank(candidate) >= Rank(threshold)
  }

  /** Distinct levels have distinct ranks, so the scale is a total order. */
  lemma RankIsInjective(a: LogLevel, b: LogLevel)
    ensures Rank(a) == Rank(b) ==> a == b
  {
  }

  /** A SILENT threshold lets through no level except SILENT itself. */
  lemma SilentThresholdAdmitsOnlySilent(candidate: LogLevel)
    ensures IsEnoughSeriousAs(candidate, SILENT) <==> candidate == SILENT
  {
  }

  /** Raising a threshold never lets more levels through. */
  lemma StricterThresholdAdmitsLess(candidate: LogLevel, lower: LogLevel, higher: LogLevel)
    requires Rank(lower) <= Rank(higher)
    ensures IsEnoughSeriousAs(candidate, higher) ==> IsEnoughSeriousAs(candidate, lower)
  {
  }
}
