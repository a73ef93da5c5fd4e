/**
 * AppContextBroadcastReceiver: handles the PC's context-request broadcast. A request that
 * passes the authorization check has its content-provider URI, requested type and protocol
 * mode stored in the SDK's preferences (where the send path finds them) and is handed to
 * the app's event handler; every other request leaves the preferences untouched.
 */
module BroadcastReceiver {
  import opened Wrappers
  import opened JvmText
  import opened Values
  import opened SharedPrefs
  import opened RequestHelper
  import opened AppContextRecord
  import opened AppContextManager
  import PC = ProtocolConstants

  /** An incoming intent: its action and its extras bundle. */
  datatype Intent = Intent(action: Option<string>, extras: map<string, Value>)

  /** ContextRequestInfo: the requested context type handed to the app. */
  datatype ContextRequestInfo = ContextRequestInfo(requestedType: int32)

  /** The event-handler callback onReceive makes, when a handler is registered. */
  datatype HandlerCall =
    | SyncServiceDisconnected
    | InvalidContextRequestReceived(error: Error)
    | ContextRequestReceived(info: ContextRequestInfo)

  const MISSING_REQUEST_URI_MESSAGE: string := PC.APPCONTEXT_REQUEST_CONTENTPROVIDER_URI_KEY + ":missing"

  /** `getIntExtra(key, default)`: the default when the extra is absent or not an Int. */
  function IntExtra(intent: Intent, key: string, default: int32): int32
  {
    if key in intent.extras && intent.extras[key].IntV? then intent.extras[key].i else default
  }

  /** `getStringExtra(key)`: null when the extra is absent or not a String. */
  function StringExtra(intent: Intent, key: string): Option<string>
  {
    if key in intent.extras && intent.extras[key].StrV? then Some(intent.extras[key].s) else None
  }

  predicate HasExtra(intent: Intent, key: string)
  {
    key in intent.extras
  }

  /** isDisconnected: the connection state extra (connected by default) says disconnected. */
  predicate IsDisconnected(intent: Intent)
  {
    IntExtra(intent, PC.CONNECTION_STATE_KEY, PC.CONNECTION_STATE_CONNECTED) == PC.CONNECTION_STATE_DISCONNECTED
  }

  /** getLegacyModeAndContextType: legacy PCs send "uriTypes"; the type defaults to BrowserHistory. */
  function GetLegacyModeAndContextType(intent: Intent): (bool, int32)
  {
    (HasExtra(intent, PC.LOW_VERSION_KEY_URI_TYPES), IntExtra(intent, PC.APPCONTEXT_TYPE_KEY, PC.TYPE_BROWSER_HISTORY))
  }

  /** How far onReceive gets before validation. */
  datatype Stage = Ignored | Disconnected | MissingUri | Checked(uri: string, authority: Option<string>)

  function StageOf(intent: Intent, authorityOf: string -> Option<string>): Stage
  {
    if intent.action != Some(PC.BROADCAST_INTENT_ACTION_FILTER) then Ignored
    else if IsDisconnected(intent) then Disconnected
    else match StringExtra(intent, PC.APPCONTEXT_REQUEST_CONTENTPROVIDER_URI_KEY)
      case None => MissingUri
      case Some(uri) => if uri == "" then MissingUri else Checked(uri, authorityOf(uri))
  }

  /** The three preference writes of updateSharedPreferences. */
  function StoredRequest(prefs: Entries, requestedType: int32, uri: string, usingLegacyMode: bool): SharedPrefs.Entries
  {
    prefs[UriKey(requestedType) := StrV(uri)]
         [PC.APPCONTEXT_TYPE_KEY := IntV(requestedType)]
         [PC.USING_LEGACY_MODE := BoolV(usingLegacyMode)]
  }

  /** onReceive's result: the handler call made (if any), or the exception that escapes. */
  function Response(
    intent: Intent, approved: map<string, string>, p: Platform,
    authorityOf: string -> Option<string>, handlerRegistered: bool): Result<Option<HandlerCall>, Error>
  {
    match StageOf(intent, authorityOf)
    case Ignored => Success(None)
    case Disconnected => Success(if handlerRegistered then Some(SyncServiceDisconnected) else None)
    case MissingUri =>
      Success(if handlerRegistered then Some(InvalidContextRequestReceived(InvalidParameter(MISSING_REQUEST_URI_MESSAGE))) else None)
    case Checked(_, authority) =>
      match Validation(approved, authority, p)
      case Failure(e) => Failure(e)
      case Success(status) =>
        if status != Valid || !handlerRegistered then Success(None)
        else Success(Some(ContextRequestReceived(ContextRequestInfo(GetLegacyModeAndContextType(intent).1))))
  }

  /** The preferences after onReceive: changed only by a VALID request. */
  function PrefsAfter(
    intent: Intent, approved: map<string, string>, p: Platform,
    authorityOf: string -> Option<string>, prefs: SharedPrefs.Entries): SharedPrefs.Entries
  {
    match StageOf(intent, authorityOf)
    case Checked(uri, authority) =>
      if Validation(approved, authority, p) == Success(Valid) then
        var (usingLegacyMode, requestedType) := GetLegacyModeAndContextType(intent);
        StoredRequest(prefs, requestedType, uri, usingLegacyMode)
      else prefs
    case _ => prefs
  }

  /** The allow-list after onReceive: loaded only by a request that reaches validation. */
  function RegistryAfter(
    intent: Intent, approved: map<string, string>, p: Platform, authorityOf: string -> Option<string>): map<string, string>
  {
    match StageOf(intent, authorityOf)
    case Checked(_, authority) => ApprovedAfter(approved, authority, p)
    case _ => approved
  }

  /** updateSharedPreferences. */
  method UpdateSharedPreferences(prefs: Preferences, requestedType: int32, uri: string, usingLegacyMode: bool)
    requires prefs.Valid()
    modifies prefs
    ensures prefs.Valid()
    ensures prefs.entries == StoredRequest(old(prefs.entries), requestedType, uri, usingLegacyMode)
  {
    TypeKeysHoldStrings(requestedType);
    prefs.PutString(UriKey(requestedType), uri);
    prefs.PutInt(PC.APPCONTEXT_TYPE_KEY, requestedType);
    prefs.PutBoolean(PC.USING_LEGACY_MODE, usingLegacyMode);
  }

  /**
   * onReceive. Whether an event handler is registered is a parameter; the URI's authority
   * (`Uri.parse(s).authority`) is given by `authorityOf`.
   */
  method OnReceive(
    intent: Intent, prefs: Preferences, registry: RequesterRegistry, p: Platform,
    authorityOf: string -> Option<string>, handlerRegistered: bool)
    returns (r: Result<Option<HandlerCall>, Error>)
    requires prefs.Valid()
    modifies prefs, registry
    ensures prefs.Valid()
    ensures r == Response(intent, old(registry.approved), p, authorityOf, handlerRegistered)
    ensures prefs.entries == PrefsAfter(intent, old(registry.approved), p, authorityOf, old(prefs.entries))
    ensures registry.approved == RegistryAfter(intent, old(registry.approved), p, authorityOf)
  {
    if intent.action != Some(PC.BROADCAST_INTENT_ACTION_FILTER) {
      return Success(None);
    }
    if IsDisconnected(intent) {
      return Success(if handlerRegistered then Some(SyncServiceDisconnected) else None);
    }
    var uri := StringExtra(intent, PC.APPCONTEXT_REQUEST_CONTENTPROVIDER_URI_KEY);
    if uri.None? || uri.value == "" {
      var exception := InvalidParameter(MISSING_REQUEST_URI_MESSAGE);
      return Success(if handlerRegistered then Some(InvalidContextRequestReceived(exception)) else None);
    }
    var status := registry.ValidateContentProviderAuthority(authorityOf(uri.value), p);
    if status.Failure? {
      return Failure(status.error);
    }
    if status.value != Valid {
      return Success(None);
    }
    var (usingLegacyMode, requestedType) := GetLegacyModeAndContextType(intent);
    UpdateSharedPreferences(prefs, requestedType, uri.value, usingLegacyMode);
    if handlerRegistered {
      return Success(Some(ContextRequestReceived(ContextRequestInfo(requestedType))));
    }
    return Success(None);
  }

  // ---------------------------------------------------------------------------
  // Properties

  /** A broadcast with another action (or none) is ignored: no callback, no writes, no allow-list load. */
  lemma WrongActionIgnored(
    intent: Intent, approved: map<string, string>, p: Platform,
    authorityOf: string -> Option<string>, handlerRegistered: bool, prefs: SharedPrefs.Entries)
    requires intent.action != Some(PC.BROADCAST_INTENT_ACTION_FILTER)
    ensures Response(intent, approved, p, authorityOf, handlerRegistered) == Success(None)
    ensures PrefsAfter(intent, approved, p, authorityOf, prefs) == prefs
    ensures RegistryAfter(intent, approved, p, authorityOf) == approved
  {
  }

  /** A disconnect notice reaches onSyncServiceDisconnected and nothing else happens. */
  lemma DisconnectNotified(
    intent: Intent, approved: map<string, string>, p: Platform,
    authorityOf: string -> Option<string>, prefs: SharedPrefs.Entries)
    requires intent.action == Some(PC.BROADCAST_INTENT_ACTION_FILTER)
    requires PC.CONNECTION_STATE_KEY in intent.extras && intent.extras[PC.CONNECTION_STATE_KEY] == IntV(1)
    ensures Response(intent, approved, p, authorityOf, true) == Success(Some(SyncServiceDisconnected))
    ensures PrefsAfter(intent, approved, p, authorityOf, prefs) == prefs
    ensures RegistryAfter(intent, approved, p, authorityOf) == approved
  {
  }

  /** A request without a usable URI string is reported as invalid and writes nothing. */
  lemma MissingUriReported(
    intent: Intent, approved: map<string, string>, p: Platform,
    authorityOf: string -> Option<string>, prefs: SharedPrefs.Entries)
    requires intent.action == Some(PC.BROADCAST_INTENT_ACTION_FILTER) && !IsDisconnected(intent)
    requires StringExtra(intent, PC.APPCONTEXT_REQUEST_CONTENTPROVIDER_URI_KEY) in {None, Some("")}
    ensures Response(intent, approved, p, authorityOf, true) ==
      Success(Some(InvalidContextRequestReceived(InvalidParameter("contentProviderUri:missing"))))
    ensures PrefsAfter(intent, approved, p, authorityOf, prefs) == prefs
    ensures RegistryAfter(intent, approved, p, authorityOf) == approved
  {
    assert MISSING_REQUEST_URI_MESSAGE == "contentProviderUri:missing";
  }

  /** The preferences change only when the request was validated as VALID. */
  lemma PrefsChangeOnlyWhenValid(
    intent: Intent, approved: map<string, string>, p: Platform,
    authorityOf: string -> Option<string>, prefs: SharedPrefs.Entries)
    requires PrefsAfter(intent, approved, p, authorityOf, prefs) != prefs
    ensures StageOf(intent, authorityOf).Checked?
    ensures Validation(approved, StageOf(intent, authorityOf).authority, p) == Success(Valid)
  {
  }

  /**
   * A VALID request writes exactly three entries: the URI under the requested type's
   * decimal text, the requested type (2 by default) and the legacy flag ("uriTypes" present);
   * the store keeps its layout and the handler receives the requested type.
   */
  lemma ValidRequestStored(
    intent: Intent, approved: map<string, string>, p: Platform,
    authorityOf: string -> Option<string>, prefs: SharedPrefs.Entries)
    requires WellTyped(prefs)
    requires StageOf(intent, authorityOf).Checked?
    requires Validation(approved, StageOf(intent, authorityOf).authority, p) == Success(Valid)
    ensures var t := IntExtra(intent, PC.APPCONTEXT_TYPE_KEY, PC.TYPE_BROWSER_HISTORY);
      var after := PrefsAfter(intent, approved, p, authorityOf, prefs);
      WellTyped(after) &&
      after.Keys == prefs.Keys + {UriKey(t), PC.APPCONTEXT_TYPE_KEY, PC.USING_LEGACY_MODE} &&
      after[UriKey(t)] == StrV(StageOf(intent, authorityOf).uri) &&
      after[PC.APPCONTEXT_TYPE_KEY] == IntV(t) &&
      after[PC.USING_LEGACY_MODE] == BoolV(PC.LOW_VERSION_KEY_URI_TYPES in intent.extras) &&
      (forall k :: k in prefs && k !in {UriKey(t), PC.APPCONTEXT_TYPE_KEY, PC.USING_LEGACY_MODE} ==> after[k] == prefs[k]) &&
      Response(intent, approved, p, authorityOf, true) == Success(Some(ContextRequestReceived(ContextRequestInfo(t))))
  {
    var t := IntExtra(intent, PC.APPCONTEXT_TYPE_KEY, PC.TYPE_BROWSER_HISTORY);
    TypeKeysHoldStrings(t);
  }

  /**
   * The receiver and the send path agree: after a VALID request for type t, sending a record
   * of type t, or one with no type at all, finds the URI the request carried.
   */
  lemma ReceivedUriFoundBySend(
    intent: Intent, approved: map<string, string>, p: Platform,
    authorityOf: string -> Option<string>, prefs: SharedPrefs.Entries, record: AppContextRecord.Entries)
    requires WellTyped(prefs)
    requires StageOf(intent, authorityOf).Checked?
    requires Validation(approved, StageOf(intent, authorityOf).authority, p) == Success(Valid)
    requires var t := IntExtra(intent, PC.APPCONTEXT_TYPE_KEY, PC.TYPE_BROWSER_HISTORY);
      PC.APPCONTEXT_TYPE_KEY !in record || record[PC.APPCONTEXT_TYPE_KEY] == IntV(t)
    ensures var after := PrefsAfter(intent, approved, p, authorityOf, prefs);
      WellTyped(after) &&
      ProviderUri(record, after) == Success(Some(StageOf(intent, authorityOf).uri))
  {
    var t := IntExtra(intent, PC.APPCONTEXT_TYPE_KEY, PC.TYPE_BROWSER_HISTORY);
    var after := PrefsAfter(intent, approved, p, authorityOf, prefs);
    ValidRequestStored(intent, approved, p, authorityOf, prefs);
    assert GetInt(after, PC.APPCONTEXT_TYPE_KEY, PC.TYPE_BROWSER_HISTORY) == t;
    if PC.APPCONTEXT_TYPE_KEY in record {
      IntSetThenGet(record, PC.APPCONTEXT_TYPE_KEY, t, 0);
      assert record[PC.APPCONTEXT_TYPE_KEY := IntV(t)] == record;
    }
    assert RequestedType(record, after) == Success(t);
  }
}
