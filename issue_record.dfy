/**
 * `AbstractIssueRecord`: a mutable issue record whose timestamp, level and
 * exception are fields, and whose classification list and attribute object
 * are containers the record owns (or shares, after the copy constructor).
 */
module IssueRecords {
  import opened Wrappers
  import opened LogLevels
  import opened Records

  /** Attribute key of the level (declared by `KeelIssueRecord`, assumed). */
  const AttributeLevel: string := "level"
  /** Attribute key of the exception (declared by `KeelIssueRecord`, assumed). */
  const AttributeException: string := "exception"
  /** Attribute key of the classification (declared by `KeelIssueRecord`, assumed). */
  const AttributeClassification: string := "classification"
  /** Attribute key of the message (declared by `IssueRecordMessageMixin`, assumed). */
  const AttributeMessage: string := "message"
  /** Attribute key of the context object, from `IssueRecordContextMixin`. */
  const AttributeContext: string := "context"

  /** ASCII case folding of one character. */
  function LowerAscii(c: char): char
  {
    if 'A' <= c <= 'Z' then (c as int + 32) as char else c
  }

  /** `a.equalsIgnoreCase(b)`, over ASCII case. */
  predicate EqualsIgnoreCase(a: string, b: string)
  {
    |a| == |b| && forall i :: 0 <= i < |a| ==> LowerAscii(a[i]) == LowerAscii(b[i])
  }

  /** The names `attribute` refuses: the level, exception and classification keys, in any case. */
  predicate IsReserved(name: string)
  {
    || EqualsIgnoreCase(name, AttributeLevel)
    || EqualsIgnoreCase(name, AttributeException)
    || EqualsIgnoreCase(name, AttributeClassification)
  }

  /** Being reserved does not depend on case. */
  lemma ReservedIgnoresCase(a: string, b: string)
    requires EqualsIgnoreCase(a, b)
    ensures IsReserved(a) <==> IsReserved(b)
  {
  }

  /** Neither the message key nor the context key is reserved, so their setters never throw. */
  lemma {:induction false} MessageAndContextAreFree()
    ensures !IsReserved(AttributeMessage) && !IsReserved(AttributeContext)
  {
    assert LowerAscii(AttributeMessage[0]) != LowerAscii(AttributeLevel[0]);
    assert LowerAscii(AttributeMessage[0]) != LowerAscii(AttributeException[0]);
    assert |AttributeMessage| != |AttributeClassification|;
    assert |AttributeContext| != |AttributeLevel|;
    assert LowerAscii(AttributeContext[1]) != LowerAscii(AttributeException[1]);
    assert |AttributeContext| != |AttributeClassification|;
  }

  /** The reserved check catches every case variant of a reserved key. */
  lemma ReservedExamples()
    ensures IsReserved("LEVEL") && IsReserved("Exception") && IsReserved("ClassiFication")
  {
  }

  /** What an issue record can throw. */
  datatype RecordError =
    | IllegalArgument(name: string)   // `attribute` with a reserved name
    | ClassCast(key: string)          // a value of the wrong type under a key
    | NullContext                     // the context handler was handed null

  /** A JSON value as the record stores it; `JOther` is any other object. */
  datatype JsonValue = JNull | JString(s: string) | JObject(obj: JsonObject) | JOther(description: string)

  /** A Vert.x `JsonObject`: a mutable map from keys to values. */
  class JsonObject {
    var entries: map<string, JsonValue>

    constructor ()
      ensures entries == map[]
    {
      entries := map[];
    }

    method Put(key: string, value: JsonValue)
      modifies this
      ensures entries == old(entries)[key := value]
    {
      entries := entries[key := value];
    }
  }

  /**
   * `getString(key)` as Vert.x (4 and later) defines it: null when the key is
   * absent or holds null, the string itself when it holds one, and otherwise
   * the text of the stored value (`toString()`, or a special form for
   * instants, bytes and enums), which `render` stands for. It never throws.
   */
  function StringAt(entries: map<string, JsonValue>, key: string, render: JsonValue -> string): (r: Option<string>)
    ensures r == None <==> key !in entries || entries[key] == JNull
    ensures key in entries && entries[key].JString? ==> r == Some(entries[key].s)
    ensures key in entries && !entries[key].JNull? && !entries[key].JString? ==> r == Some(render(entries[key]))
  {
    if key !in entries then None
    else match entries[key]
      case JNull => None
      case JString(s) => Some(s)
      case other => Some(render(other))
  }

  /** A string put under a key reads back unchanged, whatever the other values render as. */
  lemma StringPutThenGet(entries: map<string, JsonValue>, key: string, s: string, render: JsonValue -> string)
    ensures StringAt(entries[key := JString(s)], key, render) == Some(s)
  {
  }

  /** `getJsonObject(key)`: null when absent or null, the object when it is one, otherwise a cast failure. */
  function JsonObjectAt(entries: map<string, JsonValue>, key: string): (r: Result<JsonObject?, RecordError>)
    ensures r == Success(null) <==> key !in entries || entries[key] == JNull
    ensures r.Success? && r.value != null <==> key in entries && entries[key].JObject?
    ensures r.Success? && r.value != null ==> r.value == entries[key].obj
  {
    if key !in entries then Success(null)
    else match entries[key]
      case JNull => Success(null)
      case JObject(o) => Success(o)
      case _ => Failure(ClassCast(key))
  }

  /** A `List<String>` the record owns. */
  class StringList {
    var items: seq<string>

    constructor ()
      ensures items == []
    {
      items := [];
    }

    method Clear()
      modifies this
      ensures items == []
    {
      items := [];
    }

    method AddAll(more: seq<string>)
      modifies this
      ensures items == old(items) + more
    {
      items := items + more;
    }
  }

  class AbstractIssueRecord {
    const attributes: JsonObject
    const classification: StringList
    /** `Thread.currentThread().toString()` at construction, given as a parameter. */
    const threadInfo: string
    var timestamp: int
    var level: LogLevel
    var exception: Option<Throwable>

    /** The objects `context` may update besides `attributes`: the context object already stored. */
    function ExistingContext(): set<object>
      reads attributes
    {
      if AttributeContext in attributes.entries && attributes.entries[AttributeContext].JObject?
      then {attributes.entries[AttributeContext].obj}
      else {}
    }

    /** A new record: `now` is `System.currentTimeMillis()`. */
    constructor (now: int, threadInfo: string)
      ensures fresh(attributes) && fresh(classification)
      ensures attributes.entries == map[] && classification.items == []
      ensures timestamp == now && level == LogLevel.INFO && exception == None
      ensures this.threadInfo == threadInfo
    {
      attributes := new JsonObject();
      classification := new StringList();
      timestamp := now;
      level := LogLevel.INFO;
      exception := None;
      this.threadInfo := threadInfo;
    }

    /**
     * The copy constructor: copies timestamp, level and exception, and shares
     * (does not copy) the base record's attribute object and classification list.
     */
    constructor FromBase(base: AbstractIssueRecord, threadInfo: string)
      ensures attributes == base.attributes && classification == base.classification
      ensures timestamp == base.timestamp && level == base.level && exception == base.exception
      ensures this.threadInfo == threadInfo
    {
      attributes := base.attributes;
      classification := base.classification;
      timestamp := base.timestamp;
      level := base.level;
      exception := base.exception;
      this.threadInfo := threadInfo;
    }

    /** `timestamp(t)`: the getter `timestamp()` then gives `t`. */
    method SetTimestamp(timestamp: int) returns (self: AbstractIssueRecord)
      modifies this`timestamp
      ensures this.timestamp == timestamp && self == this
    {
      this.timestamp := timestamp;
      self := this;
    }

    /** `level(l)`: the getter `level()` then gives `l`. */
    method SetLevel(level: LogLevel) returns (self: AbstractIssueRecord)
      modifies this`level
      ensures this.level == level && self == this
    {
      this.level := level;
      self := this;
    }

    /** `exception(t)` with a non-null throwable. */
    method SetException(throwable: Throwable) returns (self: AbstractIssueRecord)
      modifies this`exception
      ensures exception == Some(throwable) && self == this
    {
      exception := Some(throwable);
      self := this;
    }

    /**
     * `classification(list)`: clear, then add all of `list`. The result is
     * `list`'s old contents in order, except when `list` is the record's own
     * list, which the clear has already emptied.
     */
    method SetClassification(list: StringList) returns (self: AbstractIssueRecord)
      modifies classification
      ensures classification.items == (if list == classification then [] else old(list.items))
      ensures self == this
    {
      classification.Clear();
      classification.AddAll(list.items);
      self := this;
    }

    /** `attribute(name, value)`: refuse a reserved name, otherwise put the value. */
    method Attribute(name: string, value: JsonValue) returns (r: Outcome<RecordError>)
      modifies attributes
      ensures IsReserved(name) ==> r == Fail(IllegalArgument(name)) && attributes.entries == old(attributes.entries)
      ensures !IsReserved(name) ==> r == Pass && attributes.entries == old(attributes.entries)[name := value]
    {
      if EqualsIgnoreCase(name, AttributeLevel)
        || EqualsIgnoreCase(name, AttributeException)
        || EqualsIgnoreCase(name, AttributeClassification)
      {
        return Fail(IllegalArgument(name));
      }
      attributes.Put(name, value);
      r := Pass;
    }

    /** `message()`: the string under the message key; `render` is as for `StringAt`. */
    function Message(render: JsonValue -> string): Option<string>
      reads attributes
    {
      StringAt(attributes.entries, AttributeMessage, render)
    }

    /** `message(m)`: put `m` under the message key; `message()` then gives `m`. */
    method SetMessage(message: string) returns (self: AbstractIssueRecord)
      modifies attributes
      ensures attributes.entries == old(attributes.entries)[AttributeMessage := JString(message)]
      ensures forall render :: Message(render) == Some(message)
      ensures self == this
    {
      MessageAndContextAreFree();
      var r := Attribute(AttributeMessage, JString(message));
      self := this;
    }

    /**
     * `ensureContextAttribute()`: whatever is stored under the context key
     * if the key is present; otherwise a new, empty object, stored there.
     */
    method EnsureContextAttribute() returns (r: Result<JsonObject?, RecordError>)
      modifies attributes
      ensures AttributeContext in old(attributes.entries) ==>
        && attributes.entries == old(attributes.entries)
        && r == JsonObjectAt(old(attributes.entries), AttributeContext)
      ensures AttributeContext !in old(attributes.entries) ==>
        && r.Success? && r.value != null && fresh(r.value) && r.value.entries == map[]
        && attributes.entries == old(attributes.entries)[AttributeContext := JObject(r.value)]
    {
      if AttributeContext in attributes.entries {
        return JsonObjectAt(attributes.entries, AttributeContext);
      }
      var j := new JsonObject();
      MessageAndContextAreFree();
      var outcome := Attribute(AttributeContext, JObject(j));
      r := Success(j);
    }

    /**
     * `context(handler)`: hand the context object to the handler, which
     * here rewrites its entries. `ctx` is the object the handler updated.
     */
    method Context(handler: map<string, JsonValue> -> map<string, JsonValue>)
      returns (r: Outcome<RecordError>, ghost ctx: JsonObject?)
      modifies attributes, ExistingContext()
      ensures r == Pass <==> ctx != null
      ensures AttributeContext !in old(attributes.entries) ==>
        && r == Pass && fresh(ctx)
        && ctx.entries == handler(map[])
        && attributes.entries == old(attributes.entries)[AttributeContext := JObject(ctx)]
      ensures AttributeContext in old(attributes.entries) && old(attributes.entries[AttributeContext]).JObject? ==>
        && r == Pass && ctx == old(attributes.entries[AttributeContext].obj)
        && ctx.entries == handler(old(ctx.entries))
        && (ctx != attributes ==> attributes.entries == old(attributes.entries))
      ensures AttributeContext in old(attributes.entries) && old(attributes.entries[AttributeContext]) == JNull ==>
        r == Fail(NullContext) && attributes.entries == old(attributes.entries)
      ensures AttributeContext in old(attributes.entries)
              && (old(attributes.entries[AttributeContext]).JString? || old(attributes.entries[AttributeContext]).JOther?) ==>
        r == Fail(ClassCast(AttributeContext)) && attributes.entries == old(attributes.entries)
    {
      var found := EnsureContextAttribute();
      if found.Failure? {
        return Fail(found.error), null;
      }
      if found.value == null {
        return Fail(NullContext), null;
      }
      var j := found.value;
      ctx := j;
      j.entries := handler(j.entries);
      r := Pass;
    }
  }
}
