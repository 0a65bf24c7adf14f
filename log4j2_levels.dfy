/**
 * Apache Log4j 2 levels and the bridges' translation between them and the
 * Keel scale.
 *
 * A Log4j `Level` is one of the eight standard constants or a custom level
 * made with `Level.forName(name, intLevel)`. The bridges compare levels by
 * identity (`==`), so a custom level never equals a standard one, whatever
 * its number. `IntLevel` gives the numbers of Log4j's `StandardLevel`: a
 * lower number is more severe, and a logger whose level has number `n` is
 * enabled for events whose number is at most `n`.
 */
module Log4j2Levels {
  import opened LogLevels

  datatype Level = OFF | FATAL | ERROR | WARN | INFO | DEBUG | TRACE | ALL | Custom(name: string, intLevel: int)

  /** `Integer.MAX_VALUE`, the number of `Level.ALL`. */
  const IntMax: int := 0x7fff_ffff

  /** `level.intLevel()`. */
  function IntLevel(level: Level): (n: int)
    ensures level.Custom? ==> n == level.intLevel
    ensures !level.Custom? ==> 0 <= n <= IntMax
    ensures level == Level.OFF <==> !level.Custom? && n == 0
  {
    match level
    case OFF => 0
    case FATAL => 100
    case ERROR => 200
    case WARN => 300
    case INFO => 400
    case DEBUG => 500
    case TRACE => 600
    case ALL => IntMax
    case Custom(_, n) => n
  }

  /** Log4j's own test: a logger at `threshold` is enabled for an event at `event`. */
  predicate Log4jEnables(event: Level, threshold: Level)
  {
    IntLevel(event) <= IntLevel(threshold)
  }

  /**
   * `transLevel(Level)`: TRACE and ALL become TRACE, WARN becomes WARNING,
   * OFF and every other level (custom ones) become SILENT, the rest keep
   * their names.
   */
  function ToKeel(level: Level): (k: LogLevel)
    ensures k != LogLevel.NOTICE
    ensures k == LogLevel.TRACE <==> level == Level.TRACE || level == Level.ALL
    ensures k == LogLevel.SILENT <==> level == Level.OFF || level.Custom?
    ensures level == Level.WARN <==> k == LogLevel.WARNING
  {
    if level == Level.TRACE || level == Level.ALL then LogLevel.TRACE
    else if level == Level.DEBUG then LogLevel.DEBUG
    else if level == Level.INFO then LogLevel.INFO
    else if level == Level.WARN then LogLevel.WARNING
    else if level == Level.ERROR then LogLevel.ERROR
    else if level == Level.FATAL then LogLevel.FATAL
    else if level == Level.OFF then LogLevel.SILENT
    else LogLevel.SILENT
  }

  /**
   * The translation keeps the order of severity between standard levels
   * other than ALL: a more severe Log4j level never maps lower on the Keel
   * scale.
   */
  lemma ToKeelIsMonotone(a: Level, b: Level)
    requires !a.Custom? && !b.Custom? && a != Level.ALL && b != Level.ALL
    ensures IntLevel(a) <= IntLevel(b) ==> Rank(ToKeel(b)) <= Rank(ToKeel(a))
  {
  }

  /**
   * Any custom level becomes SILENT, which passes every Keel threshold: a
   * custom level is enabled whatever the visible base level, even one Log4j
   * ranks below TRACE.
   */
  lemma CustomLevelsAlwaysPass(name: string, n: int, base: LogLevel)
    ensures IsEnoughSeriousAs(ToKeel(Custom(name, n)), base)
  {
  }
}
