/** Protocol constants: intent actions, preference and app-context keys, types and limits. */
module ProtocolConstants {
  import opened JvmText

  // Broadcast
  const BROADCAST_INTENT_ACTION_FILTER: string := "com.microsoft.crossdevice.appcontextrequest"
  const APPCONTEXT_REQUEST_CONTENTPROVIDER_URI_KEY: string := "contentProviderUri"
  const ACTION_PARTNER_APP_TRIGGER: string := "com.microsoft.crossdevice.ACTION_PARTNER_APP_TRIGGER"
  const EXTRA_PARTNER_PACKAGE: string := "partnerPackage"

  // App context types (bit flags)
  const TYPE_APPLICATION_CONTEXT: int32 := 0x01
  const TYPE_BROWSER_HISTORY: int32 := 0x02
  const TYPE_BROWSER_HISTORY_NAME: string := "BrowserHistory"
  const TYPE_RESUME_ACTIVITY: int32 := 0x04

  /** The values of TYPE_MAP, in its iteration order. */
  const TYPES: seq<int32> := [TYPE_APPLICATION_CONTEXT, TYPE_BROWSER_HISTORY, TYPE_RESUME_ACTIVITY]

  // Connection state
  const CONNECTION_STATE_KEY: string := "connectionState"
  const CONNECTION_STATE_CONNECTED: int32 := 0
  const CONNECTION_STATE_DISCONNECTED: int32 := 1

  // Preferences
  const USING_LEGACY_MODE: string := "using_legacy_mode"
  const LOW_VERSION_KEY_URI_TYPES: string := "uriTypes"

  // App context keys
  const APPCONTEXT_VERSION_KEY: string := "version"
  const APPCONTEXT_CONTEXT_ID_KEY: string := "contextId"
  const APPCONTEXT_TYPE_KEY: string := "requestedContextType"
  const APPCONTEXT_TEAM_ID_KEY: string := "teamId"
  const APPCONTEXT_INTENT_URL_KEY: string := "intentUri"
  const APPCONTEXT_APP_ID_KEY: string := "packageName"
  const APPCONTEXT_TITLE_KEY: string := "title"
  const APPCONTEXT_WEBLINK_KEY: string := "webLink"
  const APPCONTEXT_PREVIEW_KEY: string := "preview"
  const APPCONTEXT_EXTRAS_KEY: string := "extras"
  const APPCONTEXT_CREATE_TIME_KEY: string := "createTime"
  const APPCONTEXT_LAST_UPDATED_TIME_KEY: string := "lastUpdatedTime"
  const APPCONTEXT_LIFE_TIME_KEY: string := "lifeTime"
  const APPCONTEXT_ACTION_KEY: string := "action"
  const APPCONTEXT_ACTION_UPSERT: string := "upsert"
  const APPCONTEXT_ACTION_DELETE: string := "delete"
  const APPCONTEXT_TRIGGER_TYPE_KEY: string := "triggerType"
  const APPCONTEXT_TRIGGER_TYPE_RECENT_TASK: string := "RecentTask"
  const APPCONTEXT_TRIGGER_TYPE_APP: string := "PartnerApp"

  // Limits
  const MAX_URI_LENGTH: nat := 2083
  const BROWSER_HISTORY_LIST_MAX_SIZE: nat := 3

  // Browser continuity
  const APPCONTEXT_BROWSER_HISTORY_KEY: string := "browserHistory"
  const APPCONTEXT_BROWSER_HISTORY_EMPTY_KEY: string := "browserHistoryEmpty"

  const APPCONTEXT_DEFAULT_DAYS: int64 := 30
  /** `TimeUnit.MILLISECONDS.convert(APPCONTEXT_DEFAULT_DAYS, TimeUnit.DAYS)`. */
  const DEFAULT_LIFE_TIME_MS: int64 := APPCONTEXT_DEFAULT_DAYS * 24 * 60 * 60 * 1000
}
