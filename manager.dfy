/**
 * AppContextManager: the synchronous part of sending and deleting an app context
 * (finding the requester's content-provider URI, validating the record, stamping the
 * action, trigger type, protocol version and defaults) and the start-up trigger broadcast.
 * The asynchronous content-provider insert is the end of the model: a send that gets that
 * far is `Dispatched` with the URI and the content values it would insert.
 */
module AppContextManager {
  import opened Wrappers
  import opened JvmText
  import opened Values
  import opened AppContextRecord
  import opened SharedPrefs
  import opened BrowserHistory
  import PC = ProtocolConstants

  /** How insertAppContext ends. */
  datatype SendOutcome =
    | Dispatched(providerUri: string, contentValues: Entries)  // the insert is launched
    | ReportedError(error: Error)                              // onContextResponseError, then return
    | Thrown(error: Error)                                     // the exception escapes to the caller

  /** The outcome together with the app context's values afterwards. */
  datatype Insertion = Insertion(outcome: SendOutcome, values: Entries)

  const MISSING_SUFFIX: string := ":missing when sending app context"
  const MISSING_URI_MESSAGE: string := PC.APPCONTEXT_REQUEST_CONTENTPROVIDER_URI_KEY + MISSING_SUFFIX
  const INVALID_CONTEXT_ID_MESSAGE: string := PC.APPCONTEXT_CONTEXT_ID_KEY + ":invalid when sending app context"

  // ---------------------------------------------------------------------------
  // Specification

  /** The context type the send is for: the record's own, or the requested one (default 2) when it is 0. */
  function RequestedType(m: Entries, prefs: Entries): Result<int32, Error>
    requires WellTyped(prefs)
  {
    match IntOf(m, PC.APPCONTEXT_TYPE_KEY, 0)
    case Failure(e) => Failure(e)
    case Success(t) =>
      if t != 0 then Success(t) else Success(GetInt(prefs, PC.APPCONTEXT_TYPE_KEY, PC.TYPE_BROWSER_HISTORY))
  }

  /** The record after getAppContextUri: a type of 0 is replaced by the requested type. */
  function TypeAdopted(m: Entries, prefs: Entries): Entries
    requires WellTyped(prefs)
  {
    if IntOf(m, PC.APPCONTEXT_TYPE_KEY, 0) == Success(0)
    then m[PC.APPCONTEXT_TYPE_KEY := IntV(GetInt(prefs, PC.APPCONTEXT_TYPE_KEY, PC.TYPE_BROWSER_HISTORY))]
    else m
  }

  /** The provider URI stored for the send's type, if any. */
  function ProviderUri(m: Entries, prefs: Entries): Result<Option<string>, Error>
    requires WellTyped(prefs)
  {
    match RequestedType(m, prefs)
    case Failure(e) => Failure(e)
    case Success(t) =>
      TypeKeysHoldStrings(t);
      Success(GetString(prefs, UriKey(t), None))
  }

  /** getRequiredFields: type and contextId always, the two timestamps unless deleting. */
  function RequiredFields(action: string): (fields: seq<string>)
    ensures PC.APPCONTEXT_TYPE_KEY in fields && PC.APPCONTEXT_CONTEXT_ID_KEY in fields
    ensures PC.APPCONTEXT_CREATE_TIME_KEY in fields <==> action != PC.APPCONTEXT_ACTION_DELETE
    ensures PC.APPCONTEXT_LAST_UPDATED_TIME_KEY in fields <==> action != PC.APPCONTEXT_ACTION_DELETE
    ensures forall f :: f in fields ==> f in PropertyKeys()
    ensures forall f :: f in fields <==>
      f in {PC.APPCONTEXT_TYPE_KEY, PC.APPCONTEXT_CONTEXT_ID_KEY} ||
      (action != PC.APPCONTEXT_ACTION_DELETE && f in {PC.APPCONTEXT_CREATE_TIME_KEY, PC.APPCONTEXT_LAST_UPDATED_TIME_KEY})
    ensures |fields| == (if action == PC.APPCONTEXT_ACTION_DELETE then 2 else 4)
    ensures fields[0] == PC.APPCONTEXT_TYPE_KEY && fields[1] == PC.APPCONTEXT_CONTEXT_ID_KEY
    ensures action != PC.APPCONTEXT_ACTION_DELETE ==>
      fields[2] == PC.APPCONTEXT_CREATE_TIME_KEY && fields[3] == PC.APPCONTEXT_LAST_UPDATED_TIME_KEY
  {
    if action == PC.APPCONTEXT_ACTION_DELETE then [PC.APPCONTEXT_TYPE_KEY, PC.APPCONTEXT_CONTEXT_ID_KEY]
    else [PC.APPCONTEXT_TYPE_KEY, PC.APPCONTEXT_CONTEXT_ID_KEY, PC.APPCONTEXT_CREATE_TIME_KEY, PC.APPCONTEXT_LAST_UPDATED_TIME_KEY]
  }

  /** The first of the fields the record lacks. */
  function FirstMissing(fields: seq<string>, m: Entries): (r: Option<string>)
    ensures r.None? <==> forall i :: 0 <= i < |fields| ==> fields[i] in m
    ensures r.Some? ==> r.value in fields && r.value !in m
    ensures r.Some? ==> exists i :: 0 <= i < |fields| && fields[i] == r.value && forall j :: 0 <= j < i ==> fields[j] in m
  {
    if fields == [] then None
    else if fields[0] !in m then Some(fields[0])
    else FirstMissing(fields[1..], m)
  }

  /** checkRequiredValues: every required field present, and the contextId prefixed by the package name. */
  function RequiredValuesCheck(m: Entries, action: string, packageName: string): Outcome<Error>
  {
    match FirstMissing(RequiredFields(action), m)
    case Some(field) => Fail(InvalidParameter(field + MISSING_SUFFIX))
    case None =>
      if StartsWith(StringOf(m, PC.APPCONTEXT_CONTEXT_ID_KEY), packageName) then Pass
      else Fail(InvalidParameter(INVALID_CONTEXT_ID_MESSAGE))
  }

  /** setAppContextTriggerType's value: what the preferences hold for the type, else RecentTask. */
  function TriggerTypeFor(prefs: Entries, t: int32): string
    requires WellTyped(prefs)
  {
    TypeKeysHoldStrings(t);
    GetString(prefs, TriggerTypeKey(t), Some(PC.APPCONTEXT_TRIGGER_TYPE_RECENT_TASK)).value
  }

  /** setAppContextVersion's value: 1.0 for a legacy-mode PC, 3.0 otherwise. */
  function VersionFor(prefs: Entries): ProtocolVersion
    requires WellTyped(prefs)
  {
    if GetBoolean(prefs, PC.USING_LEGACY_MODE, false) then Legacy else Current
  }

  /** The record after the action, trigger type and version are stamped. */
  function Decorated(m: Entries, t: int32, action: string, prefs: Entries): Entries
    requires WellTyped(prefs)
  {
    m[PC.APPCONTEXT_ACTION_KEY := StrV(action)]
     [PC.APPCONTEXT_TRIGGER_TYPE_KEY := StrV(TriggerTypeFor(prefs, t))]
     [PC.APPCONTEXT_VERSION_KEY := DoubleV(VersionFor(prefs))]
  }

  /** addDefaultValue: lifeTime defaults to 30 days and appId to the package; present values are read and re-set. */
  function WithDefaults(m: Entries, packageName: string): Result<Entries, Error>
  {
    var lifeTime :=
      if PC.APPCONTEXT_LIFE_TIME_KEY !in m then Success(PC.DEFAULT_LIFE_TIME_MS)
      else LongOf(m, PC.APPCONTEXT_LIFE_TIME_KEY, -1);
    match lifeTime
    case Failure(e) => Failure(e)
    case Success(l) =>
      var withLifeTime := m[PC.APPCONTEXT_LIFE_TIME_KEY := LongV(l)];
      var appId :=
        if PC.APPCONTEXT_APP_ID_KEY !in withLifeTime then packageName
        else StringOf(withLifeTime, PC.APPCONTEXT_APP_ID_KEY);
      Success(withLifeTime[PC.APPCONTEXT_APP_ID_KEY := StrV(appId)])
  }

  /** insertAppContext, up to the asynchronous insert. */
  function InsertionOf(m: Entries, prefs: Entries, packageName: string, action: string): Insertion
    requires WellTyped(prefs)
  {
    match RequestedType(m, prefs)
    case Failure(e) => Insertion(Thrown(e), m)
    case Success(t) =>
      TypeKeysHoldStrings(t);
      var adopted := TypeAdopted(m, prefs);
      match GetString(prefs, UriKey(t), None)
      case None => Insertion(Thrown(InvalidParameter(MISSING_URI_MESSAGE)), adopted)
      case Some(uri) =>
        match RequiredValuesCheck(adopted, action, packageName)
        case Fail(e) => Insertion(ReportedError(e), adopted)
        case Pass =>
          var decorated := Decorated(adopted, t, action, prefs);
          match WithDefaults(decorated, packageName)
          case Failure(e) => Insertion(Thrown(e), decorated)
          case Success(final) => Insertion(Dispatched(uri, final), final)
  }

  // ---------------------------------------------------------------------------
  // Operations

  /** getAppContextUri. */
  method GetAppContextUri(prefs: Preferences, appContext: AppContext) returns (r: Result<Option<string>, Error>)
    requires prefs.Valid()
    modifies appContext
    ensures appContext.values == TypeAdopted(old(appContext.values), prefs.entries)
    ensures r == ProviderUri(old(appContext.values), prefs.entries)
  {
    var t := appContext.Type();
    if t.Failure? {
      return Failure(t.error);
    }
    if t.value != 0 {
      TypeKeysHoldStrings(t.value);
      return Success(GetString(prefs.entries, UriKey(t.value), None));
    }
    var requested := GetInt(prefs.entries, PC.APPCONTEXT_TYPE_KEY, PC.TYPE_BROWSER_HISTORY);
    appContext.SetType(requested);
    TypeKeysHoldStrings(requested);
    return Success(GetString(prefs.entries, UriKey(requested), None));
  }

  /** checkRequiredValues, with the exception it throws as a failed outcome. */
  method CheckRequiredValues(packageName: string, appContext: AppContext, action: string) returns (r: Outcome<Error>)
    ensures r == RequiredValuesCheck(appContext.values, action, packageName)
  {
    var fields := RequiredFields(action);
    var i := 0;
    while i < |fields|
      invariant 0 <= i <= |fields|
      invariant FirstMissing(fields, appContext.values) == FirstMissing(fields[i..], appContext.values)
    {
      if !appContext.HasValue(fields[i]) {
        return Fail(InvalidParameter(fields[i] + MISSING_SUFFIX));
      }
      assert fields[i..][1..] == fields[i + 1..];
      i := i + 1;
    }
    if !StartsWith(appContext.ContextId(), packageName) {
      return Fail(InvalidParameter(INVALID_CONTEXT_ID_MESSAGE));
    }
    return Pass;
  }

  /** setAppContextTriggerType; a type getter failure is the exception it would raise. */
  method SetAppContextTriggerType(prefs: Preferences, appContext: AppContext) returns (r: Outcome<Error>)
    requires prefs.Valid()
    modifies appContext
    ensures old(appContext.Type()).Failure? ==> r == Fail(old(appContext.Type()).error) && appContext.values == old(appContext.values)
    ensures old(appContext.Type()).Success? ==>
      r == Pass &&
      appContext.values == old(appContext.values)[PC.APPCONTEXT_TRIGGER_TYPE_KEY := StrV(TriggerTypeFor(prefs.entries, old(appContext.Type()).value))]
  {
    var t := appContext.Type();
    if t.Failure? {
      return Fail(t.error);
    }
    TypeKeysHoldStrings(t.value);
    var triggerType := GetString(prefs.entries, TriggerTypeKey(t.value), Some(PC.APPCONTEXT_TRIGGER_TYPE_RECENT_TASK));
    appContext.SetTriggerType(triggerType.value);
    return Pass;
  }

  /** setAppContextVersion. */
  method SetAppContextVersion(prefs: Preferences, appContext: AppContext)
    requires prefs.Valid()
    modifies appContext
    ensures appContext.values == old(appContext.values)[PC.APPCONTEXT_VERSION_KEY := DoubleV(VersionFor(prefs.entries))]
    ensures appContext.Version() == Success(if GetBoolean(prefs.entries, PC.USING_LEGACY_MODE, false) then Legacy else Current)
  {
    var usingLegacyMode := GetBoolean(prefs.entries, PC.USING_LEGACY_MODE, false);
    var version := if usingLegacyMode then Legacy else Current;
    appContext.SetVersion(version);
  }

  /** addDefaultValue; a lifeTime that does not read as a Long is the exception it would raise. */
  method AddDefaultValue(packageName: string, appContext: AppContext) returns (r: Outcome<Error>)
    modifies appContext
    ensures WithDefaults(old(appContext.values), packageName).Failure? ==>
      r == Fail(WithDefaults(old(appContext.values), packageName).error) && appContext.values == old(appContext.values)
    ensures WithDefaults(old(appContext.values), packageName).Success? ==>
      r == Pass && appContext.values == WithDefaults(old(appContext.values), packageName).value
  {
    var lifeTime: int64;
    if !appContext.HasValue(PC.APPCONTEXT_LIFE_TIME_KEY) {
      lifeTime := PC.DEFAULT_LIFE_TIME_MS;
    } else {
      var stored := appContext.LifeTime();
      if stored.Failure? {
        return Fail(stored.error);
      }
      lifeTime := stored.value;
    }
    appContext.SetLifeTime(lifeTime);
    var appId := if !appContext.HasValue(PC.APPCONTEXT_APP_ID_KEY) then packageName else appContext.AppId();
    appContext.SetAppId(appId);
    return Pass;
  }

  /** insertAppContext, for the calling app's package, up to launching the insert. */
  method InsertAppContext(packageName: string, prefs: Preferences, appContext: AppContext, action: string)
    returns (outcome: SendOutcome)
    requires prefs.Valid()
    modifies appContext
    ensures Insertion(outcome, appContext.values) == InsertionOf(old(appContext.values), prefs.entries, packageName, action)
  {
    ghost var m := appContext.values;
    var uri := GetAppContextUri(prefs, appContext);
    if uri.Failure? {
      return Thrown(uri.error);
    }
    ghost var t := RequestedType(m, prefs.entries).value;
    if uri.value.None? {
      return Thrown(InvalidParameter(MISSING_URI_MESSAGE));
    }
    var check := CheckRequiredValues(packageName, appContext, action);
    if check.Fail? {
      return ReportedError(check.error);
    }
    TypeReadsBackAfterAdoption(m, prefs.entries);
    appContext.SetAction(action);
    SetterWritesOnlyItsKey(TypeAdopted(m, prefs.entries), PC.APPCONTEXT_ACTION_KEY, StrV(action), PC.APPCONTEXT_TYPE_KEY);
    var triggerSet := SetAppContextTriggerType(prefs, appContext);
    SetAppContextVersion(prefs, appContext);
    assert appContext.values == Decorated(TypeAdopted(m, prefs.entries), t, action, prefs.entries);
    var defaults := AddDefaultValue(packageName, appContext);
    if defaults.Fail? {
      return Thrown(defaults.error);
    }
    var contentValues := appContext.ContentValues();
    assert contentValues == appContext.values;
    return Dispatched(uri.value.value, contentValues);
  }

  /** sendAppContext: an upsert. */
  method SendAppContext(packageName: string, prefs: Preferences, appContext: AppContext) returns (outcome: SendOutcome)
    requires prefs.Valid()
    modifies appContext
    ensures Insertion(outcome, appContext.values) ==
      InsertionOf(old(appContext.values), prefs.entries, packageName, PC.APPCONTEXT_ACTION_UPSERT)
  {
    outcome := InsertAppContext(packageName, prefs, appContext, PC.APPCONTEXT_ACTION_UPSERT);
  }

  /** sendAppContext for a browser-history context: convert, then upsert. */
  method SendBrowserHistory(
    packageName: string, prefs: Preferences, browser: BrowserHistoryContext,
    createTime: int64, lastUpdatedTime: int64,
    toJson: seq<HistoryItem> -> Option<string>, renderJson: ExtrasObject -> string)
    returns (outcome: SendOutcome)
    requires prefs.Valid()
    ensures outcome == InsertionOf(
      ConvertedValues(browser.history, browser.appId, browser.clearBrowserHistory,
        GetBoolean(prefs.entries, PC.USING_LEGACY_MODE, false), packageName, createTime, lastUpdatedTime, toJson, renderJson),
      prefs.entries, packageName, PC.APPCONTEXT_ACTION_UPSERT).outcome
  {
    var appContext := browser.ConvertToAppContext(packageName, prefs, createTime, lastUpdatedTime, toJson, renderJson);
    outcome := SendAppContext(packageName, prefs, appContext);
  }

  /** deleteAppContext: a record holding only the contextId, sent with the delete action. */
  method DeleteAppContext(packageName: string, prefs: Preferences, contextId: string) returns (outcome: SendOutcome)
    requires prefs.Valid()
    ensures outcome == InsertionOf(map[PC.APPCONTEXT_CONTEXT_ID_KEY := StrV(contextId)], prefs.entries, packageName, PC.APPCONTEXT_ACTION_DELETE).outcome
  {
    var appContext := new AppContext();
    appContext.SetContextId(contextId);
    outcome := InsertAppContext(packageName, prefs, appContext, PC.APPCONTEXT_ACTION_DELETE);
  }

  // ---------------------------------------------------------------------------
  // Properties of the send path

  /** After getAppContextUri, the type getter yields the send's type. */
  lemma TypeReadsBackAfterAdoption(m: Entries, prefs: Entries)
    requires WellTyped(prefs) && RequestedType(m, prefs).Success?
    ensures IntOf(TypeAdopted(m, prefs), PC.APPCONTEXT_TYPE_KEY, 0) == RequestedType(m, prefs)
  {
    if IntOf(m, PC.APPCONTEXT_TYPE_KEY, 0) == Success(0) {
      IntSetThenGet(m, PC.APPCONTEXT_TYPE_KEY, GetInt(prefs, PC.APPCONTEXT_TYPE_KEY, PC.TYPE_BROWSER_HISTORY), 0);
    }
  }

  /** The check passes exactly when every required field is present and the contextId starts with the package name. */
  lemma RequiredValuesCheckIff(m: Entries, action: string, packageName: string)
    ensures RequiredValuesCheck(m, action, packageName) == Pass <==>
      (forall f :: f in RequiredFields(action) ==> f in m) &&
      StartsWith(StringOf(m, PC.APPCONTEXT_CONTEXT_ID_KEY), packageName)
  {
    var fields := RequiredFields(action);
    if FirstMissing(fields, m).Some? {
      assert FirstMissing(fields, m).value in fields;
    } else {
      forall f | f in fields ensures f in m {
        var i :| 0 <= i < |fields| && fields[i] == f;
      }
    }
  }

  /** Without a stored provider URI the send throws, before any field is checked; only the type may have been adopted. */
  lemma MissingUriThrowsFirst(m: Entries, prefs: Entries, packageName: string, action: string)
    requires WellTyped(prefs)
    requires ProviderUri(m, prefs) == Success(None)
    ensures InsertionOf(m, prefs, packageName, action) ==
      Insertion(Thrown(InvalidParameter(MISSING_URI_MESSAGE)), TypeAdopted(m, prefs))
  {
  }

  /** A rejected record is reported to the callback; nothing is sent and nothing is written beyond the adopted type. */
  lemma RejectionWritesNothing(m: Entries, prefs: Entries, packageName: string, action: string)
    requires WellTyped(prefs)
    requires ProviderUri(m, prefs).Success? && ProviderUri(m, prefs).value.Some?
    requires RequiredValuesCheck(TypeAdopted(m, prefs), action, packageName).Fail?
    ensures InsertionOf(m, prefs, packageName, action) ==
      Insertion(ReportedError(RequiredValuesCheck(TypeAdopted(m, prefs), action, packageName).error), TypeAdopted(m, prefs))
  {
    var t := RequestedType(m, prefs).value;
    TypeKeysHoldStrings(t);
    var uri := GetString(prefs, UriKey(t), None);
    assert uri.Some?;
    var adopted := TypeAdopted(m, prefs);
    var check := RequiredValuesCheck(adopted, action, packageName);
    assert InsertionOf(m, prefs, packageName, action) == Insertion(ReportedError(check.error), adopted);
  }

  /**
   * What a dispatched send carries: the URI stored for its type, all required fields, a
   * contextId under the package, the action, the stored trigger type (RecentTask by
   * default), the version matching the legacy flag, and a lifeTime and appId that default
   * to 30 days and the package name; every other value is the caller's.
   */
  lemma DispatchedShape(m: Entries, prefs: Entries, packageName: string, action: string)
    requires WellTyped(prefs)
    requires InsertionOf(m, prefs, packageName, action).outcome.Dispatched?
    ensures RequestedType(m, prefs).Success?
    ensures var t := RequestedType(m, prefs).value;
      var ins := InsertionOf(m, prefs, packageName, action);
      var sent := ins.outcome.contentValues;
      sent == ins.values &&
      KindOfKey(UriKey(t)) == StringKind &&
      Some(ins.outcome.providerUri) == GetString(prefs, UriKey(t), None) &&
      IntOf(sent, PC.APPCONTEXT_TYPE_KEY, 0) == Success(t) &&
      (forall f :: f in RequiredFields(action) ==> f in sent) &&
      StartsWith(StringOf(sent, PC.APPCONTEXT_CONTEXT_ID_KEY), packageName) &&
      StringOf(sent, PC.APPCONTEXT_ACTION_KEY) == action &&
      StringOf(sent, PC.APPCONTEXT_TRIGGER_TYPE_KEY) == TriggerTypeFor(prefs, t) &&
      VersionOf(sent) == Success(if GetBoolean(prefs, PC.USING_LEGACY_MODE, false) then Legacy else Current) &&
      (PC.APPCONTEXT_LIFE_TIME_KEY !in m ==> sent[PC.APPCONTEXT_LIFE_TIME_KEY] == LongV(PC.DEFAULT_LIFE_TIME_MS)) &&
      (PC.APPCONTEXT_LIFE_TIME_KEY in m && m[PC.APPCONTEXT_LIFE_TIME_KEY].LongV? ==> sent[PC.APPCONTEXT_LIFE_TIME_KEY] == m[PC.APPCONTEXT_LIFE_TIME_KEY]) &&
      (PC.APPCONTEXT_APP_ID_KEY !in m ==> sent[PC.APPCONTEXT_APP_ID_KEY] == StrV(packageName)) &&
      (PC.APPCONTEXT_APP_ID_KEY in m ==> StringOf(sent, PC.APPCONTEXT_APP_ID_KEY) == StringOf(m, PC.APPCONTEXT_APP_ID_KEY)) &&
      (forall k :: k in m && k !in StampedKeys() ==> k in sent && sent[k] == m[k])
  {
    var t := RequestedType(m, prefs).value;
    var adopted := TypeAdopted(m, prefs);
    var decorated := Decorated(adopted, t, action, prefs);
    var sent := WithDefaults(decorated, packageName).value;
    TypeKeysHoldStrings(t);
    TypeReadsBackAfterAdoption(m, prefs);
    RequiredValuesCheckIff(adopted, action, packageName);
    VersionRoundTrip(VersionFor(prefs));
    assert sent[PC.APPCONTEXT_TYPE_KEY] == adopted[PC.APPCONTEXT_TYPE_KEY];
    assert sent[PC.APPCONTEXT_CONTEXT_ID_KEY] == adopted[PC.APPCONTEXT_CONTEXT_ID_KEY];
    assert sent[PC.APPCONTEXT_ACTION_KEY] == StrV(action);
    assert sent[PC.APPCONTEXT_TRIGGER_TYPE_KEY] == StrV(TriggerTypeFor(prefs, t));
    assert sent[PC.APPCONTEXT_VERSION_KEY] == DoubleV(VersionFor(prefs));
    if PC.APPCONTEXT_LIFE_TIME_KEY in m && m[PC.APPCONTEXT_LIFE_TIME_KEY].LongV? {
      assert decorated[PC.APPCONTEXT_LIFE_TIME_KEY] == m[PC.APPCONTEXT_LIFE_TIME_KEY];
      LifeTimeKept(decorated, packageName, m[PC.APPCONTEXT_LIFE_TIME_KEY].l);
    }
  }

  /**
   * addDefaultValue keeps a lifeTime the caller set: it is read back through its text
   * (`toString().toLong()`) and written again unchanged; appId is kept the same way.
   */
  lemma LifeTimeKept(m: Entries, packageName: string, lifeTime: int64)
    requires PC.APPCONTEXT_LIFE_TIME_KEY in m && m[PC.APPCONTEXT_LIFE_TIME_KEY] == LongV(lifeTime)
    ensures WithDefaults(m, packageName).Success?
    ensures WithDefaults(m, packageName).value[PC.APPCONTEXT_LIFE_TIME_KEY] == LongV(lifeTime)
    ensures PC.APPCONTEXT_APP_ID_KEY in m ==>
      StringOf(WithDefaults(m, packageName).value, PC.APPCONTEXT_APP_ID_KEY) == StringOf(m, PC.APPCONTEXT_APP_ID_KEY)
  {
    Int64RoundTrip(lifeTime);
  }

  /** The keys a successful send writes. */
  function StampedKeys(): set<string>
  {
    {PC.APPCONTEXT_TYPE_KEY, PC.APPCONTEXT_ACTION_KEY, PC.APPCONTEXT_TRIGGER_TYPE_KEY,
     PC.APPCONTEXT_VERSION_KEY, PC.APPCONTEXT_LIFE_TIME_KEY, PC.APPCONTEXT_APP_ID_KEY}
  }

  /**
   * A delete needs no type from the caller: the requested type (2 when none was requested)
   * is adopted before the check, so a contextId under the package is dispatched whenever a
   * URI is stored for that type.
   */
  lemma DeleteDispatchedForRequestedType(prefs: Entries, packageName: string, contextId: string)
    requires WellTyped(prefs)
    requires StartsWith(contextId, packageName)
    requires var t := GetInt(prefs, PC.APPCONTEXT_TYPE_KEY, PC.TYPE_BROWSER_HISTORY);
      KindOfKey(UriKey(t)) == StringKind && GetString(prefs, UriKey(t), None).Some?
    ensures var m := map[PC.APPCONTEXT_CONTEXT_ID_KEY := StrV(contextId)];
      var t := GetInt(prefs, PC.APPCONTEXT_TYPE_KEY, PC.TYPE_BROWSER_HISTORY);
      var ins := InsertionOf(m, prefs, packageName, PC.APPCONTEXT_ACTION_DELETE);
      ins.outcome == Dispatched(GetString(prefs, UriKey(t), None).value, ins.values) &&
      IntOf(ins.values, PC.APPCONTEXT_TYPE_KEY, 0) == Success(t) &&
      StringOf(ins.values, PC.APPCONTEXT_ACTION_KEY) == PC.APPCONTEXT_ACTION_DELETE
  {
    var m := map[PC.APPCONTEXT_CONTEXT_ID_KEY := StrV(contextId)];
    var t := GetInt(prefs, PC.APPCONTEXT_TYPE_KEY, PC.TYPE_BROWSER_HISTORY);
    assert PC.APPCONTEXT_TYPE_KEY !in m;
    assert RequestedType(m, prefs) == Success(t);
    var adopted := TypeAdopted(m, prefs);
    assert adopted == m[PC.APPCONTEXT_TYPE_KEY := IntV(t)];
    assert PC.APPCONTEXT_CONTEXT_ID_KEY in adopted && PC.APPCONTEXT_TYPE_KEY in adopted;
    assert FirstMissing(RequiredFields(PC.APPCONTEXT_ACTION_DELETE), adopted) == None;
    assert StringOf(adopted, PC.APPCONTEXT_CONTEXT_ID_KEY) == contextId;
    var decorated := Decorated(adopted, t, PC.APPCONTEXT_ACTION_DELETE, prefs);
    assert PC.APPCONTEXT_LIFE_TIME_KEY !in decorated;
    DispatchedShape(m, prefs, packageName, PC.APPCONTEXT_ACTION_DELETE);
  }

  /** An upsert whose record lacks a timestamp is reported as missing that field, once a URI is found. */
  lemma UpsertWithoutCreateTimeRejected(m: Entries, prefs: Entries, packageName: string)
    requires WellTyped(prefs)
    requires ProviderUri(m, prefs).Success? && ProviderUri(m, prefs).value.Some?
    requires PC.APPCONTEXT_CONTEXT_ID_KEY in m && PC.APPCONTEXT_CREATE_TIME_KEY !in m
    ensures InsertionOf(m, prefs, packageName, PC.APPCONTEXT_ACTION_UPSERT).outcome ==
      ReportedError(InvalidParameter(PC.APPCONTEXT_CREATE_TIME_KEY + MISSING_SUFFIX))
  {
    var adopted := TypeAdopted(m, prefs);
    var t := RequestedType(m, prefs).value;
    TypeKeysHoldStrings(t);
    assert GetString(prefs, UriKey(t), None).Some?;
    TypeReadsBackAfterAdoption(m, prefs);
    assert PC.APPCONTEXT_TYPE_KEY in adopted;
    assert PC.APPCONTEXT_CREATE_TIME_KEY !in adopted;
    assert FirstMissing(RequiredFields(PC.APPCONTEXT_ACTION_UPSERT), adopted) == Some(PC.APPCONTEXT_CREATE_TIME_KEY);
    var check := RequiredValuesCheck(adopted, PC.APPCONTEXT_ACTION_UPSERT, packageName);
    assert check == Fail(InvalidParameter(PC.APPCONTEXT_CREATE_TIME_KEY + MISSING_SUFFIX));
    assert InsertionOf(m, prefs, packageName, PC.APPCONTEXT_ACTION_UPSERT) == Insertion(ReportedError(check.error), adopted);
  }

  // ---------------------------------------------------------------------------
  // The start-up trigger

  /** `a and b` for non-negative `a` and `b`, one bit at a time from the lowest. */
  function BitAnd(a: nat, b: nat): (r: nat)
    ensures r <= a
    decreases a
  {
    if a == 0 || b == 0 then 0
    else BitAnd(a / 2, b / 2) * 2 + (if a % 2 == 1 && b % 2 == 1 then 1 else 0)
  }

  /** An Int read as its 32-bit two's-complement pattern. */
  function Unsigned32(x: int32): (u: nat)
    ensures u < 0x1_0000_0000
  {
    (x as int) % 0x1_0000_0000
  }

  /** Kotlin's `a and b` on Int. */
  function And32(a: int32, b: int32): int32
  {
    var r := BitAnd(Unsigned32(a), Unsigned32(b));
    if r < 0x8000_0000 then r as int32 else (r - 0x1_0000_0000) as int32
  }

  /** `triggerFeatures and type == type`. */
  predicate FeatureEnabled(features: int32, t: int32)
  {
    And32(features, t) == t
  }

  function TriggerTypeOf(features: int32, t: int32): string
  {
    if FeatureEnabled(features, t) then PC.APPCONTEXT_TRIGGER_TYPE_APP else PC.APPCONTEXT_TRIGGER_TYPE_RECENT_TASK
  }

  /** The preferences after writing "<t>triggerType" for each of the types, in order. */
  function TriggerEntries(prefs: Entries, features: int32, types: seq<int32>): Entries
    decreases |types|
  {
    if types == [] then prefs
    else
      var t := types[|types| - 1];
      TriggerEntries(prefs, features, types[..|types| - 1])[TriggerTypeKey(t) := StrV(TriggerTypeOf(features, t))]
  }

  /** The partner-app trigger broadcast. */
  datatype TriggerBroadcast = TriggerBroadcast(action: string, partnerPackage: string)

  /**
   * sendTriggerIfNeeded, with the app's PartnerApp meta-data value (0 when absent) given:
   * records a trigger type per feature and broadcasts when any feature is enabled.
   */
  method SendTriggerIfNeeded(packageName: string, triggerFeatures: int32, prefs: Preferences)
    returns (broadcast: Option<TriggerBroadcast>)
    requires prefs.Valid()
    modifies prefs
    ensures prefs.Valid()
    ensures prefs.entries == TriggerEntries(old(prefs.entries), triggerFeatures, PC.TYPES)
    ensures broadcast.Some? <==> exists i :: 0 <= i < |PC.TYPES| && FeatureEnabled(triggerFeatures, PC.TYPES[i])
    ensures broadcast.Some? ==> broadcast.value == TriggerBroadcast(PC.ACTION_PARTNER_APP_TRIGGER, packageName)
  {
    var needTrigger := false;
    var types := PC.TYPES;
    for i := 0 to |types|
      invariant prefs.Valid()
      invariant prefs.entries == TriggerEntries(old(prefs.entries), triggerFeatures, types[..i])
      invariant needTrigger <==> exists j :: 0 <= j < i && FeatureEnabled(triggerFeatures, types[j])
    {
      var feature := types[i];
      var triggerType: string;
      if And32(triggerFeatures, feature) == feature {
        needTrigger := true;
        triggerType := PC.APPCONTEXT_TRIGGER_TYPE_APP;
      } else {
        triggerType := PC.APPCONTEXT_TRIGGER_TYPE_RECENT_TASK;
      }
      TypeKeysHoldStrings(feature);
      prefs.PutString(TriggerTypeKey(feature), triggerType);
      assert types[..i + 1][..i] == types[..i];
    }
    assert types[..|types|] == types;
    if needTrigger {
      broadcast := Some(TriggerBroadcast(PC.ACTION_PARTNER_APP_TRIGGER, packageName));
    } else {
      broadcast := None;
    }
  }

  /** Masking with 1, 2 or 4 keeps exactly bit 0, 1 or 2. */
  lemma BitAndSingleBits(a: nat)
    ensures BitAnd(a, 1) == a % 2
    ensures BitAnd(a, 2) == 2 * ((a / 2) % 2)
    ensures BitAnd(a, 4) == 4 * ((a / 4) % 2)
  {
    assert BitAnd(a / 2, 1) == (a / 2) % 2;
    assert BitAnd(a / 4, 1) == (a / 4) % 2;
    assert a / 2 / 2 == a / 4;
    assert BitAnd(a / 2, 2) == 2 * ((a / 4) % 2);
  }

  /** A type's feature is enabled exactly when its bit is set in the meta-data value's 32-bit pattern. */
  lemma FeatureBits(features: int32)
    ensures FeatureEnabled(features, PC.TYPE_APPLICATION_CONTEXT) <==> Unsigned32(features) % 2 == 1
    ensures FeatureEnabled(features, PC.TYPE_BROWSER_HISTORY) <==> (Unsigned32(features) / 2) % 2 == 1
    ensures FeatureEnabled(features, PC.TYPE_RESUME_ACTIVITY) <==> (Unsigned32(features) / 4) % 2 == 1
  {
    BitAndSingleBits(Unsigned32(features));
  }

  /** The trigger step over three types writes their three keys in order. */
  lemma TriggerEntriesOfThree(prefs: Entries, features: int32, a: int32, b: int32, c: int32)
    ensures TriggerEntries(prefs, features, [a, b, c]) ==
      prefs[TriggerTypeKey(a) := StrV(TriggerTypeOf(features, a))]
           [TriggerTypeKey(b) := StrV(TriggerTypeOf(features, b))]
           [TriggerTypeKey(c) := StrV(TriggerTypeOf(features, c))]
  {
    var types := [a, b, c];
    assert types[..2] == [a, b] && [a, b][..1] == [a] && [a][..0] == [];
    var first := prefs[TriggerTypeKey(a) := StrV(TriggerTypeOf(features, a))];
    assert TriggerEntries(prefs, features, [a]) == first;
    var second := first[TriggerTypeKey(b) := StrV(TriggerTypeOf(features, b))];
    assert TriggerEntries(prefs, features, [a, b]) == second;
  }

  /** The three trigger-type keys, and what each holds after the trigger step. */
  lemma TriggerPreferences(prefs: Entries, features: int32)
    ensures TriggerEntries(prefs, features, PC.TYPES) ==
      prefs["1triggerType" := StrV(TriggerTypeOf(features, 1))]
           ["2triggerType" := StrV(TriggerTypeOf(features, 2))]
           ["4triggerType" := StrV(TriggerTypeOf(features, 4))]
  {
    TriggerEntriesOfThree(prefs, features, 1, 2, 4);
    assert TriggerTypeKey(1) == "1triggerType";
    assert TriggerTypeKey(2) == "2triggerType";
    assert TriggerTypeKey(4) == "4triggerType";
  }
}
