/**
 * `JsonifiableIssueRecord.toJsonObject`: the JSON object an issue record
 * renders to. The timestamp and level are always present; the message, the
 * context and the exception only when there is something to put.
 */
module JsonifiableIssueRecords {
  import opened Wrappers
  import opened LogLevels
  import opened Records

  const MapKeyTimestamp: string := "timestamp"
  /** `EventRecord.MapKeyLevel` and the keys below are declared outside this model; values assumed. */
  const MapKeyLevel: string := "level"
  const MapKeyMessage: string := "message"
  const MapKeyContext: string := "context"
  const MapKeyException: string := "exception"

  /** What the getters of an issue record return. */
  datatype IssueView = IssueView(
    timestamp: int,
    level: LogLevel,
    message: Option<string>,
    context: map<string, string>,
    exception: Option<Throwable>)

  /** A value put into the JSON object. */
  datatype JsonField = Text(s: string) | LevelField(level: LogLevel) | ObjectField(entries: map<string, string>)

  /**
   * `toJsonObject()`. `dateExpression` formats a timestamp (the
   * `MYSQL_DATETIME_MS_PATTERN` rendering over the clock's time zone) and
   * `renderThrowable` is the overridable throwable renderer.
   */
  function ToJsonObject(r: IssueView, dateExpression: int -> string,
                        renderThrowable: Throwable -> map<string, string>): (x: map<string, JsonField>)
    ensures MapKeyTimestamp in x && x[MapKeyTimestamp] == Text(dateExpression(r.timestamp))
    ensures MapKeyLevel in x && x[MapKeyLevel] == LevelField(r.level)
    ensures MapKeyMessage in x <==> r.message != None
    ensures MapKeyMessage in x ==> x[MapKeyMessage] == Text(r.message.value)
    ensures MapKeyContext in x <==> r.context != map[]
    ensures MapKeyContext in x ==> x[MapKeyContext] == ObjectField(r.context)
    ensures MapKeyException in x <==> r.exception != None
    ensures MapKeyException in x ==> x[MapKeyException] == ObjectField(renderThrowable(r.exception.value))
  {
    var withTimestamp := map[MapKeyTimestamp := Text(dateExpression(r.timestamp))];
    var withLevel := withTimestamp[MapKeyLevel := LevelField(r.level)];
    var withMessage := if r.message != None then withLevel[MapKeyMessage := Text(r.message.value)] else withLevel;
    var withContext := if r.context != map[] then withMessage[MapKeyContext := ObjectField(r.context)] else withMessage;
    if r.exception != None then withContext[MapKeyException := ObjectField(renderThrowable(r.exception.value))]
    else withContext
  }

  /** No key other than the five is ever produced, and at least two always are. */
  lemma OnlyTheFiveKeys(r: IssueView, dateExpression: int -> string, renderThrowable: Throwable -> map<string, string>)
    ensures var x := ToJsonObject(r, dateExpression, renderThrowable);
      && x.Keys <= {MapKeyTimestamp, MapKeyLevel, MapKeyMessage, MapKeyContext, MapKeyException}
      && 2 <= |x.Keys| <= 5
  {
    var x := ToJsonObject(r, dateExpression, renderThrowable);
    var all := {MapKeyTimestamp, MapKeyLevel, MapKeyMessage, MapKeyContext, MapKeyException};
    var fixed := {MapKeyTimestamp, MapKeyLevel};
    assert x.Keys <= all;
    assert fixed <= x.Keys;
    assert |fixed| == 2;
    assert |all| == 5;
    SubsetCardinality(fixed, x.Keys);
    SubsetCardinality(x.Keys, all);
  }

  lemma {:induction false} SubsetCardinality<T>(a: set<T>, b: set<T>)
    requires a <= b
    ensures |a| <= |b|
  {
    assert b == a + (b - a);
  }

  /** A record with nothing but a timestamp and a level renders to exactly those two keys. */
  lemma BareRecordHasTwoKeys(timestamp: int, level: LogLevel, dateExpression: int -> string,
                             renderThrowable: Throwable -> map<string, string>)
    ensures ToJsonObject(IssueView(timestamp, level, None, map[], None), dateExpression, renderThrowable).Keys
            == {MapKeyTimestamp, MapKeyLevel}
  {
  }
}
