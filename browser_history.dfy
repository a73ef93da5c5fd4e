/**
 * The browser-history context a browser app builds up: at most three visited pages,
 * a "history was cleared" flag and an optional app id, turned into an AppContext of
 * type BrowserHistory in the shape the connected PC expects (legacy or current protocol).
 */
module BrowserHistory {
  import opened Wrappers
  import opened JvmText
  import opened Values
  import opened AppContextRecord
  import opened SharedPrefs
  import PC = ProtocolConstants

  /** BrowserHistoryItem; the web URI is kept as its `toString()`. */
  datatype HistoryItem = HistoryItem(timestamp: int64, webUri: string, title: string, favIcon: Option<seq<int8>>)

  /**
   * The JSON object placed under "extras" in the current protocol: its optional
   * "browserHistory" string and its optional "browserHistoryEmpty" flag.
   */
  datatype ExtrasObject = ExtrasObject(browserHistory: Option<string>, browserHistoryEmpty: bool)

  /** isInvalidWebUriOrTitle. */
  predicate IsInvalidWebUriOrTitle(webUri: string, title: string)
  {
    webUri == "" || title == ""
  }

  /** isSecureWebUri: the lowercased URI text starts with "http". */
  predicate IsSecureWebUri(webUri: string)
  {
    StartsWith(Lowercase(webUri), "http")
  }

  predicate Acceptable(item: HistoryItem)
  {
    !IsInvalidWebUriOrTitle(item.webUri, item.title) && IsSecureWebUri(item.webUri)
  }

  /** The list after addBrowserContext: the item is appended when there is room and it is acceptable. */
  function AfterAdd(history: seq<HistoryItem>, item: HistoryItem): seq<HistoryItem>
  {
    if |history| >= PC.BROWSER_HISTORY_LIST_MAX_SIZE || !Acceptable(item) then history
    else history + [item]
  }

  /** The app-context values convertToAppContext produces. */
  function ConvertedValues(
    history: seq<HistoryItem>, appId: Option<string>, clearBrowserHistory: bool, usingLegacyMode: bool,
    packageName: string, createTime: int64, lastUpdatedTime: int64,
    toJson: seq<HistoryItem> -> Option<string>, renderJson: ExtrasObject -> string): Entries
  {
    var custom :=
      if usingLegacyMode then LegacyModeValues(history, clearBrowserHistory, toJson)
      else ModernModeValues(history, appId, clearBrowserHistory, toJson, renderJson);
    custom[PC.APPCONTEXT_TYPE_KEY := IntV(PC.TYPE_BROWSER_HISTORY)]
          [PC.APPCONTEXT_CONTEXT_ID_KEY := StrV(packageName + "." + PC.TYPE_BROWSER_HISTORY_NAME)]
          [PC.APPCONTEXT_CREATE_TIME_KEY := LongV(createTime)]
          [PC.APPCONTEXT_LAST_UPDATED_TIME_KEY := LongV(lastUpdatedTime)]
  }

  /** setLegacyModeCustomValues on a new AppContext: the history JSON and the flag as top-level values. */
  function LegacyModeValues(history: seq<HistoryItem>, clearBrowserHistory: bool, toJson: seq<HistoryItem> -> Option<string>): Entries
  {
    var withHistory: Entries :=
      if history != [] && toJson(history).Some? then map[PC.APPCONTEXT_BROWSER_HISTORY_KEY := StrV(toJson(history).value)]
      else map[];
    if clearBrowserHistory then withHistory[PC.APPCONTEXT_BROWSER_HISTORY_EMPTY_KEY := BoolV(true)] else withHistory
  }

  /** setModernModeCustomValues on a new AppContext: everything inside "extras", plus the app id if set. */
  function ModernModeValues(
    history: seq<HistoryItem>, appId: Option<string>, clearBrowserHistory: bool,
    toJson: seq<HistoryItem> -> Option<string>, renderJson: ExtrasObject -> string): Entries
  {
    var extras := ExtrasObject(if history != [] then toJson(history) else None, clearBrowserHistory);
    var withExtras := map[PC.APPCONTEXT_EXTRAS_KEY := StrV(renderJson(extras))];
    if appId.Some? then withExtras[PC.APPCONTEXT_APP_ID_KEY := StrV(appId.value)] else withExtras
  }

  class BrowserHistoryContext {
    var history: seq<HistoryItem>
    var appId: Option<string>
    var clearBrowserHistory: bool

    /** The list never holds more than three items, and only acceptable ones. */
    ghost predicate Valid()
      reads this
    {
      |history| <= PC.BROWSER_HISTORY_LIST_MAX_SIZE &&
      forall i :: 0 <= i < |history| ==> Acceptable(history[i])
    }

    constructor()
      ensures Valid()
      ensures history == [] && appId == None && !clearBrowserHistory
    {
      history := [];
      appId := None;
      clearBrowserHistory := false;
    }

    method SetBrowserContextEmptyFlag(isEmpty: bool)
      requires Valid()
      modifies this
      ensures Valid()
      ensures clearBrowserHistory == isEmpty && history == old(history) && appId == old(appId)
    {
      clearBrowserHistory := isEmpty;
    }

    /** addBrowserContext: a full list, an empty URI or title, or a non-http URI leave the list as it was. */
    method AddBrowserContext(timestamp: int64, webUri: string, title: string, favIcon: Option<seq<int8>>)
      requires Valid()
      modifies this
      ensures Valid()
      ensures history == AfterAdd(old(history), HistoryItem(timestamp, webUri, title, favIcon))
      ensures appId == old(appId) && clearBrowserHistory == old(clearBrowserHistory)
    {
      if |history| >= PC.BROWSER_HISTORY_LIST_MAX_SIZE {
        return;
      }
      if IsInvalidWebUriOrTitle(webUri, title) {
      } else if !IsSecureWebUri(webUri) {
      } else {
        history := history + [HistoryItem(timestamp, webUri, title, favIcon)];
      }
    }

    method SetAppId(id: string)
      requires Valid()
      modifies this
      ensures Valid()
      ensures appId == Some(id) && history == old(history) && clearBrowserHistory == old(clearBrowserHistory)
    {
      appId := Some(id);
    }

    /**
     * convertToAppContext. The legacy flag comes from the SDK's preferences; the two clock
     * readings, the history's JSON text (None when the JSON library fails) and the
     * rendering of the extras object are parameters.
     */
    method ConvertToAppContext(
      packageName: string, prefs: Preferences, createTime: int64, lastUpdatedTime: int64,
      toJson: seq<HistoryItem> -> Option<string>, renderJson: ExtrasObject -> string)
      returns (appContext: AppContext)
      requires prefs.Valid()
      ensures fresh(appContext)
      ensures appContext.values == ConvertedValues(
        history, appId, clearBrowserHistory, GetBoolean(prefs.entries, PC.USING_LEGACY_MODE, false),
        packageName, createTime, lastUpdatedTime, toJson, renderJson)
    {
      appContext := new AppContext();
      var usingLegacyMode := GetBoolean(prefs.entries, PC.USING_LEGACY_MODE, false);
      if usingLegacyMode {
        if history != [] {
          var json := toJson(history);
          appContext.SetCustomValue(PC.APPCONTEXT_BROWSER_HISTORY_KEY, if json.Some? then Some(StrV(json.value)) else None);
        }
        if clearBrowserHistory {
          appContext.SetCustomValue(PC.APPCONTEXT_BROWSER_HISTORY_EMPTY_KEY, Some(BoolV(true)));
        }
      } else {
        var extras := ExtrasObject(None, false);
        if history != [] {
          extras := extras.(browserHistory := toJson(history));
        }
        if clearBrowserHistory {
          extras := extras.(browserHistoryEmpty := true);
        }
        appContext.SetCustomValue(PC.APPCONTEXT_EXTRAS_KEY, Some(StrV(renderJson(extras))));
        if appId.Some? {
          appContext.SetAppId(appId.value);
        }
      }
      appContext.SetType(PC.TYPE_BROWSER_HISTORY);
      appContext.SetContextId(packageName + "." + PC.TYPE_BROWSER_HISTORY_NAME);
      appContext.SetCreateTime(createTime);
      appContext.SetLastUpdatedTime(lastUpdatedTime);
    }
  }

  /** An add grows the list by at most one item, at the end, and never past three. */
  lemma AddAppendsAtMostOne(history: seq<HistoryItem>, item: HistoryItem)
    requires |history| <= PC.BROWSER_HISTORY_LIST_MAX_SIZE
    ensures |AfterAdd(history, item)| <= PC.BROWSER_HISTORY_LIST_MAX_SIZE
    ensures AfterAdd(history, item) == history ||
      (AfterAdd(history, item) == history + [item] && |history| < PC.BROWSER_HISTORY_LIST_MAX_SIZE)
    ensures |history| == PC.BROWSER_HISTORY_LIST_MAX_SIZE ==> AfterAdd(history, item) == history
  {
  }

  /**
   * Which pages are accepted: any URI whose lowercased text starts with "http" (so "https",
   * in any letter case, but also "httpx"); a URI starting otherwise, an empty URI or an empty
   * title is dropped.
   */
  lemma AcceptanceExamples(h: seq<HistoryItem>)
    requires |h| < PC.BROWSER_HISTORY_LIST_MAX_SIZE
    ensures AfterAdd(h, HistoryItem(1, "HTTPS://Example.com", "Example", None)) == h + [HistoryItem(1, "HTTPS://Example.com", "Example", None)]
    ensures AfterAdd(h, HistoryItem(1, "ftp://example.com", "Example", None)) == h
    ensures AfterAdd(h, HistoryItem(1, "https://example.com", "", None)) == h
    ensures AfterAdd(h, HistoryItem(1, "", "Example", None)) == h
    ensures AfterAdd(h, HistoryItem(1, "HTTPX://a", "Example", None)) == h + [HistoryItem(1, "HTTPX://a", "Example", None)]
  {
    assert Lowercase("HTTPS://Example.com")[..4] == "http";
    assert Lowercase("HTTPX://a")[..4] == "http";
    assert Lowercase("ftp://example.com")[0] == 'f';
  }

  /**
   * The "http" test for every URI: a URI is kept exactly when its first four characters
   * spell h, t, t, p in any mix of letter cases, whatever follows them.
   */
  lemma SecureIff(webUri: string)
    ensures IsSecureWebUri(webUri) <==>
      |webUri| >= 4 && webUri[0] in "hH" && webUri[1] in "tT" && webUri[2] in "tT" && webUri[3] in "pP"
  {
    if |webUri| >= 4 {
      assert Lowercase(webUri)[..4] == [LowerChar(webUri[0]), LowerChar(webUri[1]), LowerChar(webUri[2]), LowerChar(webUri[3])];
    }
  }

  /** Whatever the mode, the result is a BrowserHistory context named after the package, with both timestamps. */
  lemma ConvertedRequiredValues(
    history: seq<HistoryItem>, appId: Option<string>, clear: bool, legacy: bool,
    packageName: string, createTime: int64, lastUpdatedTime: int64,
    toJson: seq<HistoryItem> -> Option<string>, renderJson: ExtrasObject -> string)
    ensures var m := ConvertedValues(history, appId, clear, legacy, packageName, createTime, lastUpdatedTime, toJson, renderJson);
      PC.APPCONTEXT_TYPE_KEY in m && m[PC.APPCONTEXT_TYPE_KEY] == IntV(PC.TYPE_BROWSER_HISTORY) &&
      PC.APPCONTEXT_CONTEXT_ID_KEY in m && m[PC.APPCONTEXT_CONTEXT_ID_KEY] == StrV(packageName + ".BrowserHistory") &&
      PC.APPCONTEXT_CREATE_TIME_KEY in m && m[PC.APPCONTEXT_CREATE_TIME_KEY] == LongV(createTime) &&
      PC.APPCONTEXT_LAST_UPDATED_TIME_KEY in m && m[PC.APPCONTEXT_LAST_UPDATED_TIME_KEY] == LongV(lastUpdatedTime)
  {
  }

  /** Read through the AppContext getters, the converted context has type 2 and the given times. */
  lemma ConvertedReadsBack(
    history: seq<HistoryItem>, appId: Option<string>, clear: bool, legacy: bool,
    packageName: string, createTime: int64, lastUpdatedTime: int64,
    toJson: seq<HistoryItem> -> Option<string>, renderJson: ExtrasObject -> string)
    ensures var m := ConvertedValues(history, appId, clear, legacy, packageName, createTime, lastUpdatedTime, toJson, renderJson);
      IntOf(m, PC.APPCONTEXT_TYPE_KEY, 0) == Success(PC.TYPE_BROWSER_HISTORY) &&
      StringOf(m, PC.APPCONTEXT_CONTEXT_ID_KEY) == packageName + ".BrowserHistory" &&
      LongOf(m, PC.APPCONTEXT_CREATE_TIME_KEY, -1) == Success(createTime) &&
      LongOf(m, PC.APPCONTEXT_LAST_UPDATED_TIME_KEY, -1) == Success(lastUpdatedTime)
  {
    var m := ConvertedValues(history, appId, clear, legacy, packageName, createTime, lastUpdatedTime, toJson, renderJson);
    ConvertedRequiredValues(history, appId, clear, legacy, packageName, createTime, lastUpdatedTime, toJson, renderJson);
    Int32RoundTrip(PC.TYPE_BROWSER_HISTORY);
    Int64RoundTrip(createTime);
    Int64RoundTrip(lastUpdatedTime);
  }

  /**
   * Legacy protocol: the history JSON is a top-level value exactly when the list is non-empty
   * (and converted), the empty flag exactly when it was set; no extras and no app id are sent.
   */
  lemma LegacyModeShape(
    history: seq<HistoryItem>, appId: Option<string>, clear: bool,
    packageName: string, createTime: int64, lastUpdatedTime: int64,
    toJson: seq<HistoryItem> -> Option<string>, renderJson: ExtrasObject -> string)
    ensures var m := ConvertedValues(history, appId, clear, true, packageName, createTime, lastUpdatedTime, toJson, renderJson);
      (PC.APPCONTEXT_BROWSER_HISTORY_KEY in m <==> history != [] && toJson(history).Some?) &&
      (PC.APPCONTEXT_BROWSER_HISTORY_KEY in m ==> m[PC.APPCONTEXT_BROWSER_HISTORY_KEY] == StrV(toJson(history).value)) &&
      (PC.APPCONTEXT_BROWSER_HISTORY_EMPTY_KEY in m <==> clear) &&
      (clear ==> m[PC.APPCONTEXT_BROWSER_HISTORY_EMPTY_KEY] == BoolV(true)) &&
      PC.APPCONTEXT_EXTRAS_KEY !in m && PC.APPCONTEXT_APP_ID_KEY !in m
  {
  }

  /**
   * Current protocol: "extras" is always sent and carries the history and the flag; the
   * app id is sent exactly when one was set; nothing goes in the legacy top-level keys.
   */
  lemma ModernModeShape(
    history: seq<HistoryItem>, appId: Option<string>, clear: bool,
    packageName: string, createTime: int64, lastUpdatedTime: int64,
    toJson: seq<HistoryItem> -> Option<string>, renderJson: ExtrasObject -> string)
    ensures var m := ConvertedValues(history, appId, clear, false, packageName, createTime, lastUpdatedTime, toJson, renderJson);
      PC.APPCONTEXT_EXTRAS_KEY in m &&
      m[PC.APPCONTEXT_EXTRAS_KEY] == StrV(renderJson(ExtrasObject(if history == [] then None else toJson(history), clear))) &&
      (PC.APPCONTEXT_APP_ID_KEY in m <==> appId.Some?) &&
      (appId.Some? ==> m[PC.APPCONTEXT_APP_ID_KEY] == StrV(appId.value)) &&
      PC.APPCONTEXT_BROWSER_HISTORY_KEY !in m && PC.APPCONTEXT_BROWSER_HISTORY_EMPTY_KEY !in m
  {
  }
}
