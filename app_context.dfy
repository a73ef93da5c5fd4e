/**
 * AppContext: the record an app hands off, a string-keyed map of values with typed
 * accessors. Getters read a key and fall back to a default when it is absent; numeric
 * getters go through the value's text, as `toString().toInt()` does.
 */
module AppContextRecord {
  import opened Wrappers
  import opened JvmText
  import opened Values
  import PC = ProtocolConstants

  type Entries = map<string, Value>

  /** A string property: the stored value's text, or "" when absent. */
  function StringOf(m: Entries, key: string): string
  {
    if key in m then ToText(m[key]) else ""
  }

  /** An Int property: `value?.toString()?.toInt() ?: default`. */
  function IntOf(m: Entries, key: string, default: int32): Result<int32, Error>
  {
    if key !in m then Success(default)
    else match ParseInt32(ToText(m[key]))
      case Some(i) => Success(i)
      case None => Failure(NumberFormat(ToText(m[key])))
  }

  /** A Long property: `value?.toString()?.toLong() ?: default`. */
  function LongOf(m: Entries, key: string, default: int64): Result<int64, Error>
  {
    if key !in m then Success(default)
    else match ParseInt64(ToText(m[key]))
      case Some(l) => Success(l)
      case None => Failure(NumberFormat(ToText(m[key])))
  }

  /** The version property: `value?.toString()?.toDouble() ?: 0.0`. */
  function VersionOf(m: Entries): Result<ProtocolVersion, Error>
  {
    var key := PC.APPCONTEXT_VERSION_KEY;
    if key !in m then Success(Unversioned)
    else match ParseVersion(ToText(m[key]))
      case Some(v) => Success(v)
      case None => Failure(NumberFormat(ToText(m[key])))
  }

  /** The preview property: `values[key] as ByteArray`, which fails when absent or not bytes. */
  function PreviewOf(m: Entries): Result<seq<int8>, Error>
  {
    var key := PC.APPCONTEXT_PREVIEW_KEY;
    if key !in m then Failure(NullValue(key))
    else match m[key]
      case BytesV(b) => Success(b)
      case _ => Failure(ClassCast(key))
  }

  /**
   * What `ContentValues.put` receives for one entry: Double, Boolean, Int, Long and byte
   * arrays keep their kind; anything else is put as its `toString()`.
   */
  function ContentValue(v: Value): (r: Value)
    ensures r == v
  {
    match v
    case DoubleV(_) => v
    case BoolV(_) => v
    case IntV(_) => v
    case LongV(_) => v
    case BytesV(_) => v
    case StrV(_) => StrV(ToText(v))
  }

  class AppContext {
    var values: Entries

    constructor()
      ensures values == map[]
    {
      values := map[];
    }

    function ContextId(): string reads this { StringOf(values, PC.APPCONTEXT_CONTEXT_ID_KEY) }
    function Type(): Result<int32, Error> reads this { IntOf(values, PC.APPCONTEXT_TYPE_KEY, 0) }
    function CreateTime(): Result<int64, Error> reads this { LongOf(values, PC.APPCONTEXT_CREATE_TIME_KEY, -1) }
    function LastUpdatedTime(): Result<int64, Error> reads this { LongOf(values, PC.APPCONTEXT_LAST_UPDATED_TIME_KEY, -1) }
    function TeamId(): string reads this { StringOf(values, PC.APPCONTEXT_TEAM_ID_KEY) }
    function IntentUri(): string reads this { StringOf(values, PC.APPCONTEXT_INTENT_URL_KEY) }
    function AppId(): string reads this { StringOf(values, PC.APPCONTEXT_APP_ID_KEY) }
    function Title(): string reads this { StringOf(values, PC.APPCONTEXT_TITLE_KEY) }
    function WebLink(): string reads this { StringOf(values, PC.APPCONTEXT_WEBLINK_KEY) }
    function Preview(): Result<seq<int8>, Error> reads this { PreviewOf(values) }
    function Extras(): string reads this { StringOf(values, PC.APPCONTEXT_EXTRAS_KEY) }
    function LifeTime(): Result<int64, Error> reads this { LongOf(values, PC.APPCONTEXT_LIFE_TIME_KEY, -1) }
    function Action(): string reads this { StringOf(values, PC.APPCONTEXT_ACTION_KEY) }
    function TriggerType(): string reads this { StringOf(values, PC.APPCONTEXT_TRIGGER_TYPE_KEY) }
    function Version(): Result<ProtocolVersion, Error> reads this { VersionOf(values) }

    method SetContextId(contextId: string)
      modifies this
      ensures values == old(values)[PC.APPCONTEXT_CONTEXT_ID_KEY := StrV(contextId)]
      ensures ContextId() == contextId
    {
      values := values[PC.APPCONTEXT_CONTEXT_ID_KEY := StrV(contextId)];
    }

    method SetType(t: int32)
      modifies this
      ensures values == old(values)[PC.APPCONTEXT_TYPE_KEY := IntV(t)]
      ensures Type() == Success(t)
    {
      values := values[PC.APPCONTEXT_TYPE_KEY := IntV(t)];
      Int32RoundTrip(t);
    }

    method SetCreateTime(createTime: int64)
      modifies this
      ensures values == old(values)[PC.APPCONTEXT_CREATE_TIME_KEY := LongV(createTime)]
      ensures CreateTime() == Success(createTime)
    {
      values := values[PC.APPCONTEXT_CREATE_TIME_KEY := LongV(createTime)];
      Int64RoundTrip(createTime);
    }

    method SetLastUpdatedTime(lastUpdatedTime: int64)
      modifies this
      ensures values == old(values)[PC.APPCONTEXT_LAST_UPDATED_TIME_KEY := LongV(lastUpdatedTime)]
      ensures LastUpdatedTime() == Success(lastUpdatedTime)
    {
      values := values[PC.APPCONTEXT_LAST_UPDATED_TIME_KEY := LongV(lastUpdatedTime)];
      Int64RoundTrip(lastUpdatedTime);
    }

    method SetTeamId(teamId: string)
      modifies this
      ensures values == old(values)[PC.APPCONTEXT_TEAM_ID_KEY := StrV(teamId)]
      ensures TeamId() == teamId
    {
      values := values[PC.APPCONTEXT_TEAM_ID_KEY := StrV(teamId)];
    }

    /** Rejects a URI longer than MAX_URI_LENGTH with IllegalArgumentException. */
    method SetIntentUri(intentUri: string) returns (r: Outcome<Error>)
      modifies this
      ensures |intentUri| > PC.MAX_URI_LENGTH ==>
        r == Fail(IllegalArgument("intentUri exceeds the maximum length of 2083 characters")) &&
        values == old(values)
      ensures |intentUri| <= PC.MAX_URI_LENGTH ==>
        r == Pass && values == old(values)[PC.APPCONTEXT_INTENT_URL_KEY := StrV(intentUri)] &&
        IntentUri() == intentUri
    {
      if |intentUri| > PC.MAX_URI_LENGTH {
        return Fail(IllegalArgument("intentUri exceeds the maximum length of 2083 characters"));
      }
      values := values[PC.APPCONTEXT_INTENT_URL_KEY := StrV(intentUri)];
      r := Pass;
    }

    method SetAppId(appId: string)
      modifies this
      ensures values == old(values)[PC.APPCONTEXT_APP_ID_KEY := StrV(appId)]
      ensures AppId() == appId
    {
      values := values[PC.APPCONTEXT_APP_ID_KEY := StrV(appId)];
    }

    method SetTitle(title: string)
      modifies this
      ensures values == old(values)[PC.APPCONTEXT_TITLE_KEY := StrV(title)]
      ensures Title() == title
    {
      values := values[PC.APPCONTEXT_TITLE_KEY := StrV(title)];
    }

    /** Rejects a link longer than MAX_URI_LENGTH with IllegalArgumentException. */
    method SetWebLink(webLink: string) returns (r: Outcome<Error>)
      modifies this
      ensures |webLink| > PC.MAX_URI_LENGTH ==>
        r == Fail(IllegalArgument("WebLink exceeds the maximum length of 2083 characters")) &&
        values == old(values)
      ensures |webLink| <= PC.MAX_URI_LENGTH ==>
        r == Pass && values == old(values)[PC.APPCONTEXT_WEBLINK_KEY := StrV(webLink)] &&
        WebLink() == webLink
    {
      if |webLink| > PC.MAX_URI_LENGTH {
        return Fail(IllegalArgument("WebLink exceeds the maximum length of 2083 characters"));
      }
      values := values[PC.APPCONTEXT_WEBLINK_KEY := StrV(webLink)];
      r := Pass;
    }

    method SetPreview(preview: seq<int8>)
      modifies this
      ensures values == old(values)[PC.APPCONTEXT_PREVIEW_KEY := BytesV(preview)]
      ensures Preview() == Success(preview)
    {
      values := values[PC.APPCONTEXT_PREVIEW_KEY := BytesV(preview)];
    }

    method SetExtras(extras: string)
      modifies this
      ensures values == old(values)[PC.APPCONTEXT_EXTRAS_KEY := StrV(extras)]
      ensures Extras() == extras
    {
      values := values[PC.APPCONTEXT_EXTRAS_KEY := StrV(extras)];
    }

    method SetLifeTime(lifeTime: int64)
      modifies this
      ensures values == old(values)[PC.APPCONTEXT_LIFE_TIME_KEY := LongV(lifeTime)]
      ensures LifeTime() == Success(lifeTime)
    {
      values := values[PC.APPCONTEXT_LIFE_TIME_KEY := LongV(lifeTime)];
      Int64RoundTrip(lifeTime);
    }

    method SetAction(action: string)
      modifies this
      ensures values == old(values)[PC.APPCONTEXT_ACTION_KEY := StrV(action)]
      ensures Action() == action
    {
      values := values[PC.APPCONTEXT_ACTION_KEY := StrV(action)];
    }

    method SetTriggerType(triggerType: string)
      modifies this
      ensures values == old(values)[PC.APPCONTEXT_TRIGGER_TYPE_KEY := StrV(triggerType)]
      ensures TriggerType() == triggerType
    {
      values := values[PC.APPCONTEXT_TRIGGER_TYPE_KEY := StrV(triggerType)];
    }

    method SetVersion(version: ProtocolVersion)
      modifies this
      ensures values == old(values)[PC.APPCONTEXT_VERSION_KEY := DoubleV(version)]
      ensures Version() == Success(version)
    {
      values := values[PC.APPCONTEXT_VERSION_KEY := DoubleV(version)];
      VersionRoundTrip(version);
    }

    /** A null value removes the key; any other value is stored under it. */
    method SetCustomValue(key: string, value: Option<Value>)
      modifies this
      ensures value.None? ==> values == old(values) - {key}
      ensures value.Some? ==> values == old(values)[key := value.value]
      ensures HasValue(key) <==> value.Some?
    {
      if value.None? {
        values := values - {key};
      } else {
        values := values[key := value.value];
      }
    }

    predicate HasValue(key: string)
      reads this
    {
      key in values
    }

    /** The entries handed to the content provider: one per key of the map, same values. */
    method ContentValues() returns (cv: Entries)
      ensures cv.Keys == values.Keys
      ensures forall k :: k in cv ==> cv[k] == values[k]
    {
      cv := map[];
      var remaining := values.Keys;
      while remaining != {}
        invariant remaining <= values.Keys
        invariant cv.Keys == values.Keys - remaining
        invariant forall k :: k in cv ==> cv[k] == values[k]
        decreases remaining
      {
        var key :| key in remaining;
        cv := cv[key := ContentValue(values[key])];
        remaining := remaining - {key};
      }
    }
  }

  /** Each getter returns its default whenever its own key is absent, whatever else the map holds. */
  lemma AbsentKeysGiveDefaults(m: Entries)
    ensures PC.APPCONTEXT_CONTEXT_ID_KEY !in m ==> StringOf(m, PC.APPCONTEXT_CONTEXT_ID_KEY) == ""
    ensures PC.APPCONTEXT_TEAM_ID_KEY !in m ==> StringOf(m, PC.APPCONTEXT_TEAM_ID_KEY) == ""
    ensures PC.APPCONTEXT_INTENT_URL_KEY !in m ==> StringOf(m, PC.APPCONTEXT_INTENT_URL_KEY) == ""
    ensures PC.APPCONTEXT_APP_ID_KEY !in m ==> StringOf(m, PC.APPCONTEXT_APP_ID_KEY) == ""
    ensures PC.APPCONTEXT_TITLE_KEY !in m ==> StringOf(m, PC.APPCONTEXT_TITLE_KEY) == ""
    ensures PC.APPCONTEXT_WEBLINK_KEY !in m ==> StringOf(m, PC.APPCONTEXT_WEBLINK_KEY) == ""
    ensures PC.APPCONTEXT_EXTRAS_KEY !in m ==> StringOf(m, PC.APPCONTEXT_EXTRAS_KEY) == ""
    ensures PC.APPCONTEXT_ACTION_KEY !in m ==> StringOf(m, PC.APPCONTEXT_ACTION_KEY) == ""
    ensures PC.APPCONTEXT_TRIGGER_TYPE_KEY !in m ==> StringOf(m, PC.APPCONTEXT_TRIGGER_TYPE_KEY) == ""
    ensures PC.APPCONTEXT_TYPE_KEY !in m ==> IntOf(m, PC.APPCONTEXT_TYPE_KEY, 0) == Success(0)
    ensures PC.APPCONTEXT_CREATE_TIME_KEY !in m ==> LongOf(m, PC.APPCONTEXT_CREATE_TIME_KEY, -1) == Success(-1)
    ensures PC.APPCONTEXT_LAST_UPDATED_TIME_KEY !in m ==> LongOf(m, PC.APPCONTEXT_LAST_UPDATED_TIME_KEY, -1) == Success(-1)
    ensures PC.APPCONTEXT_LIFE_TIME_KEY !in m ==> LongOf(m, PC.APPCONTEXT_LIFE_TIME_KEY, -1) == Success(-1)
    ensures PC.APPCONTEXT_VERSION_KEY !in m ==> VersionOf(m) == Success(Unversioned)
    ensures PC.APPCONTEXT_PREVIEW_KEY !in m ==> PreviewOf(m) == Failure(NullValue(PC.APPCONTEXT_PREVIEW_KEY))
  {
  }

  /** The keys behind the typed properties. */
  function PropertyKeys(): set<string>
  {
    {PC.APPCONTEXT_CONTEXT_ID_KEY, PC.APPCONTEXT_TYPE_KEY, PC.APPCONTEXT_CREATE_TIME_KEY,
     PC.APPCONTEXT_LAST_UPDATED_TIME_KEY, PC.APPCONTEXT_TEAM_ID_KEY, PC.APPCONTEXT_INTENT_URL_KEY,
     PC.APPCONTEXT_APP_ID_KEY, PC.APPCONTEXT_TITLE_KEY, PC.APPCONTEXT_WEBLINK_KEY,
     PC.APPCONTEXT_PREVIEW_KEY, PC.APPCONTEXT_EXTRAS_KEY, PC.APPCONTEXT_LIFE_TIME_KEY,
     PC.APPCONTEXT_ACTION_KEY, PC.APPCONTEXT_TRIGGER_TYPE_KEY, PC.APPCONTEXT_VERSION_KEY}
  }

  /** An Int stored under a key reads back unchanged through its text. */
  lemma IntSetThenGet(m: Entries, key: string, i: int32, default: int32)
    ensures IntOf(m[key := IntV(i)], key, default) == Success(i)
  {
    Int32RoundTrip(i);
  }

  /** A Long stored under a key reads back unchanged through its text. */
  lemma LongSetThenGet(m: Entries, key: string, l: int64, default: int64)
    ensures LongOf(m[key := LongV(l)], key, default) == Success(l)
  {
    Int64RoundTrip(l);
  }

  /** Writing one key leaves every getter on another key as it was. */
  lemma SetterWritesOnlyItsKey(m: Entries, key: string, v: Value, other: string)
    requires other != key
    ensures StringOf(m[key := v], other) == StringOf(m, other)
    ensures forall d :: IntOf(m[key := v], other, d) == IntOf(m, other, d)
    ensures forall d :: LongOf(m[key := v], other, d) == LongOf(m, other, d)
    ensures other == PC.APPCONTEXT_VERSION_KEY ==> VersionOf(m[key := v]) == VersionOf(m)
    ensures other == PC.APPCONTEXT_PREVIEW_KEY ==> PreviewOf(m[key := v]) == PreviewOf(m)
  {
  }
}
