# Continuity SDK core, modelled in Dafny

The continuity module of the Windows Cross-Device Android SDK lets an app hand "app contexts" to a connected Windows PC. An app context is a browsing history, a resumable activity or a plain application context. The flow is:

1. The PC's companion app broadcasts a *context request*. The request carries a content-provider URI, the requested context type and a hint about the protocol version.
2. `AppContextBroadcastReceiver` checks that the URI's provider belongs to an approved requester. The approved requesters are a packaged XML allow-list of package names and SHA-256 certificate digests. `AppContextRequestHelper` does this check.
3. When the request is VALID, the receiver stores the URI, the type and the legacy-mode flag in the SDK's private preferences. It then tells the app's event handler.
4. The app builds an `AppContext`, a string-keyed map with typed properties, or a `BrowserHistoryContext`, which is converted into one.
5. The app calls `AppContextManager.sendAppContext` or `deleteAppContext`. The manager finds the stored provider URI for the context's type and checks the required fields. It then stamps the action, the trigger type, the protocol version and the defaults, and inserts the record's content values into the requester's provider, reading them when the asynchronous insert runs.
6. At start-up, `sendTriggerIfNeeded` records a trigger type per context type from the app's `PartnerApp` meta-data bit mask. It broadcasts a partner-app trigger when the bit of at least one context type (1, 2 or 4) is set. Other bits, such as 8, trigger nothing.

The Dafny modules follow those files:

| module | file | models |
|---|---|---|
| `JvmText` | jvm_text.dfy | Kotlin `Byte`/`Int`/`Long`, decimal `toString()` and `toInt()`/`toLong()`, lowercasing, `startsWith` |
| `Values` | values.dfy | the values stored in maps, preferences and extras; the exceptions raised |
| `ProtocolConstants` | protocol_constants.dfy | `ProtocolConstants.kt` |
| `AppContextRecord` | app_context.dfy | `AppContext.kt` (a class over its `values` map) |
| `SharedPrefs` | shared_prefs.dfy | the SDK's preference file and its layout invariant |
| `RequestHelper` | request_helper.dfy | `AppContextRequestHelper.kt`, `AppContextRequestStatus.kt` |
| `BrowserHistory` | browser_history.dfy | `BrowserHistoryContext.kt`, `BrowserHistoryItem.kt` |
| `AppContextManager` | manager.dfy | `AppContextManager.kt` |
| `BroadcastReceiver` | receiver.dfy | `AppContextBroadcastReceiver.kt`, `ContextRequestInfo.kt` |

Each stateful operation is an imperative method on the object it changes. `AppContext`, `Preferences`, `BrowserHistoryContext` and `RequesterRegistry` (the process-wide `APPROVED_CONTEXT_REQUESTERS` map) are classes. Each method is tied by its `ensures` to a specification function. Examples are `InsertionOf` for the send path, `Validation` for the authorization check, `Run` for the allow-list parser, `Hex` for the digest encoding and `PrefsAfter`/`Response` for the receiver. Lemmas prove what the SDK promises about those functions.

Exceptions that escape an operation are `Failure`/`Fail`/`Thrown` values. The platform is passed in as a `Platform` value of oracles: provider resolution, signing certificates, SHA-256, the build type and the allow-list resource.

## Model

| member | source | states |
|---|---|---|
| JvmText.DigitChar | continuity/src/main/java/com/microsoft/crossdevicesdk/continuity/AppContext.kt:33-37 | range fact only: the digit written for a value below ten is a decimal digit character (the value it encodes is in `DigitsOfShape`) |
| JvmText.DigitValue | continuity/src/main/java/com/microsoft/crossdevicesdk/continuity/AppContext.kt:33-37 | range fact only: a digit character reads as a value below ten (used by `DigitsOfShape` and `DecimalRoundTrip`) |
| JvmText.DigitsOfShape | continuity/src/main/java/com/microsoft/crossdevicesdk/continuity/AppContext.kt:33-37 | the decimal digits of n are non-empty, all digits, and read back as n |
| JvmText.DecimalTextShape | continuity/src/main/java/com/microsoft/crossdevicesdk/continuity/AppContextBroadcastReceiver.kt:104-116 | an Int's text (the preference key of a type) is non-empty and starts with a digit or '-' |
| JvmText.DecimalTextChars | continuity/src/main/java/com/microsoft/crossdevicesdk/continuity/AppContextBroadcastReceiver.kt:104-116 | every character of an Int's text is a digit or '-' |
| JvmText.DecimalRoundTrip | continuity/src/main/java/com/microsoft/crossdevicesdk/continuity/AppContext.kt:49-53 | parsing the decimal text of any integer gives that integer back |
| JvmText.Int32RoundTrip | continuity/src/main/java/com/microsoft/crossdevicesdk/continuity/AppContext.kt:33-47 | an Int stored and read back through `toString().toInt()` is unchanged |
| JvmText.Int64RoundTrip | continuity/src/main/java/com/microsoft/crossdevicesdk/continuity/AppContext.kt:49-63 | a Long stored and read back through `toString().toLong()` is unchanged |
| JvmText.Lowercase | continuity/src/main/java/com/microsoft/crossdevicesdk/continuity/BrowserHistoryContext.kt:84-86 | lowercasing keeps the length, leaves no upper-case ASCII letter, turns each one into the lower-case letter at the same place in the alphabet, and keeps every other character |
| Values.VersionRoundTrip | continuity/src/main/java/com/microsoft/crossdevicesdk/continuity/AppContext.kt:232-240 | each protocol version's text reads back as the same version |
| AppContextRecord.ContentValue | continuity/src/main/java/com/microsoft/crossdevicesdk/continuity/AppContext.kt:257-264 | the value put into ContentValues equals the stored one for every kind, including strings through `toString()` |
| AppContextRecord.AppContext.constructor | continuity/src/main/java/com/microsoft/crossdevicesdk/continuity/AppContext.kt:14-15 | a new context holds no values |
| AppContextRecord.AppContext.SetContextId | continuity/src/main/java/com/microsoft/crossdevicesdk/continuity/AppContext.kt:17-31 | writes only the contextId key; the getter then returns the id |
| AppContextRecord.AppContext.SetType | continuity/src/main/java/com/microsoft/crossdevicesdk/continuity/AppContext.kt:33-47 | writes only the type key; the getter (through `toString().toInt()`) returns the type |
| AppContextRecord.AppContext.SetCreateTime | continuity/src/main/java/com/microsoft/crossdevicesdk/continuity/AppContext.kt:49-63 | writes only the createTime key; the Long getter returns it |
| AppContextRecord.AppContext.SetLastUpdatedTime | continuity/src/main/java/com/microsoft/crossdevicesdk/continuity/AppContext.kt:65-79 | writes only the lastUpdatedTime key; the Long getter returns it |
| AppContextRecord.AppContext.SetTeamId | continuity/src/main/java/com/microsoft/crossdevicesdk/continuity/AppContext.kt:81-94 | writes only the teamId key; the getter returns it |
| AppContextRecord.AppContext.SetIntentUri | continuity/src/main/java/com/microsoft/crossdevicesdk/continuity/AppContext.kt:96-115 | a URI over 2083 characters raises IllegalArgumentException with the source's message and changes nothing; otherwise it is stored and read back |
| AppContextRecord.AppContext.SetAppId | continuity/src/main/java/com/microsoft/crossdevicesdk/continuity/AppContext.kt:117-130 | writes only the appId key; the getter returns it |
| AppContextRecord.AppContext.SetTitle | continuity/src/main/java/com/microsoft/crossdevicesdk/continuity/AppContext.kt:132-145 | writes only the title key; the getter returns it |
| AppContextRecord.AppContext.SetWebLink | continuity/src/main/java/com/microsoft/crossdevicesdk/continuity/AppContext.kt:147-166 | a link over 2083 characters raises IllegalArgumentException and changes nothing; otherwise it is stored and read back |
| AppContextRecord.AppContext.SetPreview | continuity/src/main/java/com/microsoft/crossdevicesdk/continuity/AppContext.kt:168-181 | writes only the preview key; the ByteArray getter returns the bytes |
| AppContextRecord.AppContext.SetExtras | continuity/src/main/java/com/microsoft/crossdevicesdk/continuity/AppContext.kt:183-196 | writes only the extras key; the getter returns it |
| AppContextRecord.AppContext.SetLifeTime | continuity/src/main/java/com/microsoft/crossdevicesdk/continuity/AppContext.kt:198-212 | writes only the lifeTime key; the Long getter returns it |
| AppContextRecord.AppContext.SetAction | continuity/src/main/java/com/microsoft/crossdevicesdk/continuity/AppContext.kt:214-221 | writes only the action key; the getter returns it |
| AppContextRecord.AppContext.SetTriggerType | continuity/src/main/java/com/microsoft/crossdevicesdk/continuity/AppContext.kt:223-230 | writes only the triggerType key; the getter returns it |
| AppContextRecord.AppContext.SetVersion | continuity/src/main/java/com/microsoft/crossdevicesdk/continuity/AppContext.kt:232-240 | writes only the version key; the Double getter returns the version |
| AppContextRecord.AppContext.SetCustomValue | continuity/src/main/java/com/microsoft/crossdevicesdk/continuity/AppContext.kt:242-251 | null removes the key, anything else is stored; afterwards hasValue(key) holds exactly when the value was non-null |
| AppContextRecord.AppContext.ContentValues | continuity/src/main/java/com/microsoft/crossdevicesdk/continuity/AppContext.kt:253-267 | the content values have exactly the context's keys, each with its value |
| AppContextRecord.AbsentKeysGiveDefaults | continuity/src/main/java/com/microsoft/crossdevicesdk/continuity/AppContext.kt:17-240 | each getter gives its default as soon as its own key is absent, whatever else the map holds: string getters "", type 0, times and lifeTime -1, version 0.0, and preview a null-cast failure |
| AppContextRecord.IntSetThenGet | continuity/src/main/java/com/microsoft/crossdevicesdk/continuity/AppContext.kt:33-47 | an Int stored under any key reads back as itself through the Int getter |
| AppContextRecord.LongSetThenGet | continuity/src/main/java/com/microsoft/crossdevicesdk/continuity/AppContext.kt:49-63 | a Long stored under any key reads back as itself through the Long getter |
| AppContextRecord.SetterWritesOnlyItsKey | continuity/src/main/java/com/microsoft/crossdevicesdk/continuity/AppContext.kt:15-251 | writing one key leaves every getter of another key unchanged: the String, Int, Long, version and preview getters |
| SharedPrefs.TypeKeysHoldStrings | continuity/src/main/java/com/microsoft/crossdevicesdk/continuity/AppContextBroadcastReceiver.kt:104-116 | the URI key and trigger-type key of any type never collide with the Int type key or the Boolean legacy flag |
| SharedPrefs.UriKeyIsNotTriggerKey | continuity/src/main/java/com/microsoft/crossdevicesdk/continuity/AppContextManager.kt:252-256 | the URI key of one type never equals the trigger-type key of any type, so trigger writes never erase a stored URI |
| SharedPrefs.Preferences.constructor | continuity/src/main/java/com/microsoft/crossdevicesdk/continuity/AppContextBroadcastReceiver.kt:104-116 | an empty preference file satisfies the layout invariant |
| SharedPrefs.Preferences.PutString | continuity/src/main/java/com/microsoft/crossdevicesdk/continuity/AppContextBroadcastReceiver.kt:112 | writes one string entry and keeps the layout invariant |
| SharedPrefs.Preferences.PutInt | continuity/src/main/java/com/microsoft/crossdevicesdk/continuity/AppContextBroadcastReceiver.kt:113 | writes the requested-type entry and keeps the layout invariant |
| SharedPrefs.Preferences.PutBoolean | continuity/src/main/java/com/microsoft/crossdevicesdk/continuity/AppContextBroadcastReceiver.kt:114 | writes the legacy-mode entry and keeps the layout invariant |
| RequestHelper.HexDigit | continuity/src/main/java/com/microsoft/crossdevicesdk/continuity/AppContextRequestHelper.kt:155 | range fact only: a nibble is written as a lowercase hex digit (that it decodes back is in `HexRoundTrip`) |
| RequestHelper.HexValue | continuity/src/main/java/com/microsoft/crossdevicesdk/continuity/AppContextRequestHelper.kt:155 | range fact only: a lowercase hex digit reads as a nibble (used by `HexRoundTrip`) |
| RequestHelper.Unsigned | continuity/src/main/java/com/microsoft/crossdevicesdk/continuity/AppContextRequestHelper.kt:154 | range fact only: `b.toInt() and 0xFF` lies in 0..255 (that the pair decodes to `b` is in `HexRoundTrip`) |
| RequestHelper.ToHexString | continuity/src/main/java/com/microsoft/crossdevicesdk/continuity/AppContextRequestHelper.kt:151-162 | the loop that pads single-digit bytes with '0' produces exactly two hex digits per byte, in order |
| RequestHelper.HexShape | continuity/src/main/java/com/microsoft/crossdevicesdk/continuity/AppContextRequestHelper.kt:151-162 | a digest's text is twice as long as the digest and holds only lowercase hex digits |
| RequestHelper.HexRoundTrip | continuity/src/main/java/com/microsoft/crossdevicesdk/continuity/AppContextRequestHelper.kt:151-162 | decoding the hex text gives back the digest bytes |
| RequestHelper.HexInjective | continuity/src/main/java/com/microsoft/crossdevicesdk/continuity/AppContextRequestHelper.kt:74-75 | two digests have equal texts exactly when they are equal, so comparing texts compares digests |
| RequestHelper.TextRecordsOnlyInsideDigest | continuity/src/main/java/com/microsoft/crossdevicesdk/continuity/AppContextRequestHelper.kt:124-132 | a text event records (package, digest) exactly inside cert-digest of a non-empty package with non-empty text, and otherwise changes nothing |
| RequestHelper.PackageEndClears | continuity/src/main/java/com/microsoft/crossdevicesdk/continuity/AppContextRequestHelper.kt:134-138 | `</package>` forgets the current tag and package; other end tags change nothing |
| RequestHelper.RunKeepsEntriesNonEmpty | continuity/src/main/java/com/microsoft/crossdevicesdk/continuity/AppContextRequestHelper.kt:115-143 | parsing never records an empty package name or an empty digest |
| RequestHelper.RunKeepsKeys | continuity/src/main/java/com/microsoft/crossdevicesdk/continuity/AppContextRequestHelper.kt:115-143 | parsing never removes an approved package |
| RequestHelper.RunStopsAtReadError | continuity/src/main/java/com/microsoft/crossdevicesdk/continuity/AppContextRequestHelper.kt:142-148 | a parser exception ends loading, keeping exactly what was recorded before it |
| RequestHelper.LaterDigestWins | continuity/src/main/java/com/microsoft/crossdevicesdk/continuity/AppContextRequestHelper.kt:130 | two digests for one package leave only the later one |
| RequestHelper.TextAfterDigestReplacesIt | continuity/src/main/java/com/microsoft/crossdevicesdk/continuity/AppContextRequestHelper.kt:124-138 | the current tag is cleared only at `</package>`, so a non-empty text after `</cert-digest>` inside the package replaces its digest |
| RequestHelper.RequesterRegistry.constructor | continuity/src/main/java/com/microsoft/crossdevicesdk/continuity/AppContextRequestHelper.kt:33 | the allow-list starts empty |
| RequestHelper.RequesterRegistry.ValidateContentProviderAuthority | continuity/src/main/java/com/microsoft/crossdevicesdk/continuity/AppContextRequestHelper.kt:35-54 | returns the status of `Validation` and leaves the allow-list as `ApprovedAfter` says (loaded lazily, only after the provider resolves) |
| RequestHelper.RequesterRegistry.VerifySignatureDigest | continuity/src/main/java/com/microsoft/crossdevicesdk/continuity/AppContextRequestHelper.kt:62-87 | the loop over certificates returns VALID on the first digest match, SIGNATURE_CHECK_FAILED on lookup or algorithm failure, otherwise the debug-build verdict |
| RequestHelper.RequesterRegistry.InitializeApprovedRequesters | continuity/src/main/java/com/microsoft/crossdevicesdk/continuity/AppContextRequestHelper.kt:110-149 | the pull-parser loop leaves the allow-list as the event-by-event `Run` says, stopping at the end or the first read error |
| RequestHelper.UnresolvableProviderRejectedFirst | continuity/src/main/java/com/microsoft/crossdevicesdk/continuity/AppContextRequestHelper.kt:40-41 | an unresolvable provider gives INVALID_URI_PROVIDER and does not load the allow-list |
| RequestHelper.AllowListLoadedOnlyWhileEmpty | continuity/src/main/java/com/microsoft/crossdevicesdk/continuity/AppContextRequestHelper.kt:43-48 | the resource is parsed only when the allow-list is empty; a still-empty list rejects the requester |
| RequestHelper.UnapprovedPackageRejected | continuity/src/main/java/com/microsoft/crossdevicesdk/continuity/AppContextRequestHelper.kt:49-51 | a provider package absent from the allow-list gives INVALID_REQUESTER_PACKAGE |
| RequestHelper.SignatureFailuresReported | continuity/src/main/java/com/microsoft/crossdevicesdk/continuity/AppContextRequestHelper.kt:66-86 | a missing package, null signatures or a missing SHA-256 give SIGNATURE_CHECK_FAILED, never an exception |
| RequestHelper.ValidIff | continuity/src/main/java/com/microsoft/crossdevicesdk/continuity/AppContextRequestHelper.kt:35-108 | VALID exactly when the provider resolves to an approved package whose certificates were read and hashed, and one matches the stored digest or the build is a debug build |
| RequestHelper.ReleaseValidNeedsMatchingCertificate | continuity/src/main/java/com/microsoft/crossdevicesdk/continuity/AppContextRequestHelper.kt:73-79 | in a release build VALID implies some certificate's SHA-256 hex equals the stored digest |
| RequestHelper.ReleaseMismatchFails | continuity/src/main/java/com/microsoft/crossdevicesdk/continuity/AppContextRequestHelper.kt:73-108 | in a release build, an approved package whose certificates were read and hashed but none of which matches the stored digest gives exactly SIGNATURE_CHECK_FAILED |
| RequestHelper.ValidationIdempotent | continuity/src/main/java/com/microsoft/crossdevicesdk/continuity/AppContextRequestHelper.kt:35-54 | a second check of the same URI gives the same status and leaves the allow-list as the first did |
| RequestHelper.ApprovedPackageExample | continuity/src/main/java/com/microsoft/crossdevicesdk/continuity/AppContextRequestHelper.kt:73-77 | the approved app-manager package signed by a certificate hashing to its listed digest is VALID |
| RequestHelper.AppManagerSignatureCases | continuity/src/test/java/com/microsoft/crossdevicesdk/continuity/AppContextRequestHelperTest.kt:74-91 | for the approved app-manager package, null signatures give SIGNATURE_CHECK_FAILED; one empty, non-matching certificate gives VALID only in a debug build |
| RequestHelper.LookalikePackageExample | continuity/src/test/java/com/microsoft/crossdevicesdk/continuity/AppContextRequestHelperTest.kt:67-72 | a package whose name merely extends an approved one is INVALID_REQUESTER_PACKAGE |
| BrowserHistory.BrowserHistoryContext.constructor | continuity/src/main/java/com/microsoft/crossdevicesdk/continuity/BrowserHistoryContext.kt:18-20 | a new context has an empty list, no app id and the cleared flag unset, and satisfies the invariant |
| BrowserHistory.BrowserHistoryContext.SetBrowserContextEmptyFlag | continuity/src/main/java/com/microsoft/crossdevicesdk/continuity/BrowserHistoryContext.kt:27-29 | sets only the cleared flag and keeps the invariant |
| BrowserHistory.BrowserHistoryContext.AddBrowserContext | continuity/src/main/java/com/microsoft/crossdevicesdk/continuity/BrowserHistoryContext.kt:41-59 | appends the item only when the list has room and the item has a URI, a title and a lowercased URI starting with "http"; the list stays at most 3 acceptable items |
| BrowserHistory.BrowserHistoryContext.SetAppId | continuity/src/main/java/com/microsoft/crossdevicesdk/continuity/BrowserHistoryContext.kt:94-96 | sets only the app id and keeps the invariant |
| BrowserHistory.BrowserHistoryContext.ConvertToAppContext | continuity/src/main/java/com/microsoft/crossdevicesdk/continuity/BrowserHistoryContext.kt:98-167 | returns a fresh context holding exactly `ConvertedValues` for the stored legacy-mode flag |
| BrowserHistory.AddAppendsAtMostOne | continuity/src/main/java/com/microsoft/crossdevicesdk/continuity/BrowserHistoryContext.kt:47-57 | an add leaves the list or appends exactly the item at the end, never past three; a full list is unchanged |
| BrowserHistory.SecureIff | continuity/src/main/java/com/microsoft/crossdevicesdk/continuity/BrowserHistoryContext.kt:84-86 | for every URI: it passes the secure-URI test exactly when its first four characters are h, t, t, p in any letter case |
| BrowserHistory.AcceptanceExamples | continuity/src/main/java/com/microsoft/crossdevicesdk/continuity/BrowserHistoryContext.kt:52-55 | worked examples: "HTTPS://..." and even "HTTPX://a" are accepted, since only the "http" prefix is tested; ftp, an empty title or an empty URI are dropped |
| BrowserHistory.ConvertedRequiredValues | continuity/src/main/java/com/microsoft/crossdevicesdk/continuity/BrowserHistoryContext.kt:161-167 | in both modes the context has type BrowserHistory, id "<package>.BrowserHistory" and both timestamps |
| BrowserHistory.ConvertedReadsBack | continuity/src/main/java/com/microsoft/crossdevicesdk/continuity/BrowserHistoryContext.kt:161-167 | the AppContext getters read back type 2, that id and the two timestamps |
| BrowserHistory.LegacyModeShape | continuity/src/main/java/com/microsoft/crossdevicesdk/continuity/BrowserHistoryContext.kt:112-125 | legacy mode sends the history JSON exactly when the list is non-empty and converts, the empty flag exactly when set, and no extras or app id |
| BrowserHistory.ModernModeShape | continuity/src/main/java/com/microsoft/crossdevicesdk/continuity/BrowserHistoryContext.kt:127-159 | current mode always sends extras with the history and flag, the app id exactly when set, and no legacy top-level keys |
| AppContextManager.RequiredFields | continuity/src/main/java/com/microsoft/crossdevicesdk/continuity/AppContextManager.kt:193-206 | the required fields are exactly type and contextId for delete and type, contextId, createTime, lastUpdatedTime otherwise, in that order |
| AppContextManager.FirstMissing | continuity/src/main/java/com/microsoft/crossdevicesdk/continuity/AppContextManager.kt:208-216 | None exactly when all fields are present; otherwise an absent field preceded only by present ones |
| AppContextManager.GetAppContextUri | continuity/src/main/java/com/microsoft/crossdevicesdk/continuity/AppContextManager.kt:178-191 | a type of 0 adopts the requested type (2 by default); returns the URI stored for the resulting type |
| AppContextManager.CheckRequiredValues | continuity/src/main/java/com/microsoft/crossdevicesdk/continuity/AppContextManager.kt:208-222 | the loop reports the first missing required field, then a contextId not under the package |
| AppContextManager.SetAppContextTriggerType | continuity/src/main/java/com/microsoft/crossdevicesdk/continuity/AppContextManager.kt:167-176 | stores the trigger type recorded for the context's type (RecentTask by default) and nothing else |
| AppContextManager.SetAppContextVersion | continuity/src/main/java/com/microsoft/crossdevicesdk/continuity/AppContextManager.kt:154-165 | stores version 1.0 for a legacy PC and 3.0 otherwise, and nothing else |
| AppContextManager.AddDefaultValue | continuity/src/main/java/com/microsoft/crossdevicesdk/continuity/AppContextManager.kt:137-152 | becomes `WithDefaults`: lifeTime 30 days and appId the package when absent; an unreadable lifeTime escapes and changes nothing (a present lifeTime is kept, `LifeTimeKept`) |
| AppContextManager.InsertAppContext | continuity/src/main/java/com/microsoft/crossdevicesdk/continuity/AppContextManager.kt:56-108 | the outcome and final record are `InsertionOf`: throw without a URI, report a failed check, otherwise stamp and dispatch the content values |
| AppContextManager.SendAppContext | continuity/src/main/java/com/microsoft/crossdevicesdk/continuity/AppContextManager.kt:37-43 | an upsert of the record as `InsertionOf` describes |
| AppContextManager.SendBrowserHistory | continuity/src/main/java/com/microsoft/crossdevicesdk/continuity/AppContextManager.kt:29-35 | the upsert outcome of the converted browser-history context |
| AppContextManager.DeleteAppContext | continuity/src/main/java/com/microsoft/crossdevicesdk/continuity/AppContextManager.kt:45-54 | the delete outcome of a record holding only the contextId |
| AppContextManager.TypeReadsBackAfterAdoption | continuity/src/main/java/com/microsoft/crossdevicesdk/continuity/AppContextManager.kt:178-191 | after the URI lookup the type getter yields the send's type |
| AppContextManager.RequiredValuesCheckIff | continuity/src/main/java/com/microsoft/crossdevicesdk/continuity/AppContextManager.kt:208-222 | the check passes exactly when all required fields are present and the contextId starts with the package name |
| AppContextManager.MissingUriThrowsFirst | continuity/src/main/java/com/microsoft/crossdevicesdk/continuity/AppContextManager.kt:65-69 | without a stored URI the send throws "contentProviderUri:missing ..." before any check, having only adopted the type |
| AppContextManager.RejectionWritesNothing | continuity/src/main/java/com/microsoft/crossdevicesdk/continuity/AppContextManager.kt:71-77 | a failed check goes to the error callback, nothing is sent, and nothing beyond the adopted type is written |
| AppContextManager.DispatchedShape | continuity/src/main/java/com/microsoft/crossdevicesdk/continuity/AppContextManager.kt:56-108 | a dispatched send targets its type's stored URI and carries the required fields, the action, the trigger type, the version matching the legacy flag, a lifeTime and appId that default when absent and are kept when present; other values are the caller's |
| AppContextManager.LifeTimeKept | continuity/src/main/java/com/microsoft/crossdevicesdk/continuity/AppContextManager.kt:137-152 | a lifeTime the caller set survives addDefaultValue's `toString().toLong()` read-back unchanged, and so does a set appId |
| AppContextManager.DeleteDispatchedForRequestedType | continuity/src/main/java/com/microsoft/crossdevicesdk/continuity/AppContextManager.kt:45-54 | a delete of a contextId under the package is dispatched for the requested type whenever its URI is stored |
| AppContextManager.UpsertWithoutCreateTimeRejected | continuity/src/main/java/com/microsoft/crossdevicesdk/continuity/AppContextManager.kt:193-222 | an upsert lacking createTime is reported as "createTime:missing when sending app context" |
| AppContextManager.BitAnd | continuity/src/main/java/com/microsoft/crossdevicesdk/continuity/AppContextManager.kt:243-246 | range fact only: the bitwise and of two naturals never exceeds the first (its value for the masks 1, 2, 4 is in `BitAndSingleBits`) |
| AppContextManager.Unsigned32 | continuity/src/main/java/com/microsoft/crossdevicesdk/continuity/AppContextManager.kt:243-246 | range fact only: an Int's two's-complement pattern lies below 2^32 (used by `FeatureBits`) |
| AppContextManager.SendTriggerIfNeeded | continuity/src/main/java/com/microsoft/crossdevicesdk/continuity/AppContextManager.kt:230-269 | writes a trigger type for each of the three types in order and broadcasts the partner trigger exactly when some type's bit is set |
| AppContextManager.BitAndSingleBits | continuity/src/main/java/com/microsoft/crossdevicesdk/continuity/AppContextManager.kt:243-246 | masking with 1, 2 or 4 isolates bit 0, 1 or 2 |
| AppContextManager.FeatureBits | continuity/src/main/java/com/microsoft/crossdevicesdk/continuity/AppContextManager.kt:243-251 | types 1, 2 and 4 are enabled exactly when bits 0, 1 and 2 of the meta-data value are set, negative values included |
| AppContextManager.TriggerEntriesOfThree | continuity/src/main/java/com/microsoft/crossdevicesdk/continuity/AppContextManager.kt:240-257 | the trigger loop over three types writes their three keys in order |
| AppContextManager.TriggerPreferences | continuity/src/main/java/com/microsoft/crossdevicesdk/continuity/AppContextManager.kt:240-257 | the keys written are "1triggerType", "2triggerType" and "4triggerType", each App or RecentTask by its bit |
| BroadcastReceiver.UpdateSharedPreferences | continuity/src/main/java/com/microsoft/crossdevicesdk/continuity/AppContextBroadcastReceiver.kt:104-116 | writes the URI under the type's key, the requested type and the legacy flag, keeping the layout invariant |
| BroadcastReceiver.OnReceive | continuity/src/main/java/com/microsoft/crossdevicesdk/continuity/AppContextBroadcastReceiver.kt:18-52 | the callback made, the preferences and the allow-list afterwards are `Response`, `PrefsAfter` and `RegistryAfter` |
| BroadcastReceiver.WrongActionIgnored | continuity/src/main/java/com/microsoft/crossdevicesdk/continuity/AppContextBroadcastReceiver.kt:22-25 | a broadcast with another action makes no callback, no write and no allow-list load |
| BroadcastReceiver.DisconnectNotified | continuity/src/main/java/com/microsoft/crossdevicesdk/continuity/AppContextBroadcastReceiver.kt:27-29 | a disconnect notice calls onSyncServiceDisconnected and changes nothing |
| BroadcastReceiver.MissingUriReported | continuity/src/main/java/com/microsoft/crossdevicesdk/continuity/AppContextBroadcastReceiver.kt:31-35 | a request without a usable URI is reported as "contentProviderUri:missing" and changes nothing |
| BroadcastReceiver.PrefsChangeOnlyWhenValid | continuity/src/main/java/com/microsoft/crossdevicesdk/continuity/AppContextBroadcastReceiver.kt:37-50 | the preferences change only after a VALID check |
| BroadcastReceiver.ValidRequestStored | continuity/src/main/java/com/microsoft/crossdevicesdk/continuity/AppContextBroadcastReceiver.kt:44-51 | a VALID request writes exactly three entries (URI, type defaulting to 2, legacy flag) and passes the type to the handler |
| BroadcastReceiver.ReceivedUriFoundBySend | continuity/src/main/java/com/microsoft/crossdevicesdk/continuity/AppContextManager.kt:178-191 | after a VALID request for type t, a send of a type-t or untyped record finds the URI the request carried |

## Left out

- The asynchronous insert in `insertAppContext` (the coroutine, the `ContentResolver.insert` call, `onContextResponseSuccess`/`onContextResponseError` after it, and the exceptions it catches): the model ends at `Dispatched`, with the URI and a snapshot of the content values when `insertAppContext` returns.
- AppContextManager.InsertAppContext: the source reads `appContext.contentValues` only inside the coroutine, so changes the caller makes to the same `AppContext` after the send returns reach the insert. The model does not capture that aliasing or the timing.
- `PackageManager.resolveContentProvider`, `getPackageInfo`/`getSignatures` (including its API-level branch), `MessageDigest` and `BuildConfig.DEBUG` are oracles in `Platform`.
- `Uri.parse(...).authority` is the `authorityOf` parameter.
- `XmlResourceParser` over `R.xml.context_handoff_requesters` is replaced by a sequence of pull events. A parser exception is a `ReadError` event.
- JSON and Base64 in `convertBrowserHistoryToJsonString` and the extras object are the `toJson` and `renderJson` parameters. `toJson` returns None where `JSONException` is caught.
- `System.currentTimeMillis()` is the `createTime`/`lastUpdatedTime` parameters of `ConvertToAppContext`.
- `getMataDataInt` (reading the `PartnerApp` meta-data) is the `triggerFeatures` parameter of `SendTriggerIfNeeded`. A missing value is 0 there.
- Receiver registration, `initialize`/`deInitialize`, the `WeakReference` to the event handler (the `handlerRegistered` parameter), logging and `sendBroadcast` itself are left out. `SendTriggerIfNeeded` returns the broadcast it would send.
- AppContextRecord.VersionOf: the protocol version is a three-valued tag (0.0, 1.0, 3.0), not a Double. Other numeric text under the version key reads as a NumberFormatException, where `toDouble()` would accept it.
- AppContextRecord.StringOf: a byte array's `toString()` is the JVM's "[B@" plus an identity hash, and the hash is left out.
- JvmText.ParseDecimal: only ASCII digits are accepted, where `Integer.parseInt` also accepts other Unicode decimal digits.
- JvmText.Lowercase: lowercases ASCII letters only. The lowercase of other characters cannot change whether a URI starts with "http".
- Lengths are counted in Dafny characters, not UTF-16 code units.
- SharedPrefs.GetString: the ClassCastException of a mis-typed preference read is left out. The layout invariant `Valid()` shows that no such read happens.
- `CrossDeviceExtender`, the sample app and the build files are not part of this model.
