/**
 * Logger+Analytics: the typed descriptors an application logs, their
 * encoding into a flat metadata dictionary, the decoders the handler uses,
 * the three source tags and the helpers that turn a descriptor into a log
 * record.
 */
module LoggerAnalytics {
  import opened Wrappers
  import opened Logging
  import opened Decimal

  // ---------------------------------------------------------------------
  // Descriptors
  // ---------------------------------------------------------------------

  /** `AnalyticsEvent`: an event name and optional attributes. */
  datatype AnalyticsEvent = AnalyticsEvent(name: string, attributes: Option<Metadata>)

  /** `AnalyticsScreen`: the screen shown and the class that shows it. */
  datatype AnalyticsScreen = AnalyticsScreen(screenName: string, screenClass: string)

  /** `AnalyticsErrorInfo`: the human-readable part of an analytics error. */
  datatype AnalyticsErrorInfo =
    AnalyticsErrorInfo(description: string, failureReason: Option<string>, recoverySuggestion: Option<string>)

  /** The three properties an `AnalyticsError` conformer provides. */
  datatype AnalyticsError = AnalyticsError(domain: string, code: SwiftInt, userInfo: Option<AnalyticsErrorInfo>)

  /**
   * What `error as NSError` exposes of a Swift `Error`. The bridging itself
   * belongs to the Foundation runtime, so these fields are inputs here.
   */
  datatype BridgedError = BridgedError(
    domain: string,
    code: SwiftInt,
    description: string,
    localizedFailureReason: Option<string>,
    localizedRecoverySuggestion: Option<string>)

  /** `NSError(domain:code:userInfo:)` as built from metadata. */
  datatype NSError = NSError(domain: string, code: SwiftInt, userInfo: map<string, string>)

  // Reserved metadata keys.
  const KEY_SCREEN_NAME := "screenName"
  const KEY_SCREEN_CLASS := "screenClass"
  const KEY_DOMAIN := "domain"
  const KEY_CODE := "code"
  const KEY_DESCRIPTION := "description"
  const KEY_FAILURE_REASON := "failureReason"
  const KEY_RECOVERY_SUGGESTION := "recoverySuggestion"

  /** The five keys an error is encoded under. */
  const ERROR_KEYS: set<string> :=
    {KEY_DOMAIN, KEY_CODE, KEY_DESCRIPTION, KEY_FAILURE_REASON, KEY_RECOVERY_SUGGESTION}

  // Foundation's `NSLocalizedDescriptionKey`, `NSLocalizedFailureReasonErrorKey`
  // and `NSLocalizedRecoverySuggestionErrorKey`.
  const NS_LOCALIZED_DESCRIPTION_KEY := "NSLocalizedDescription"
  const NS_LOCALIZED_FAILURE_REASON_KEY := "NSLocalizedFailureReason"
  const NS_LOCALIZED_RECOVERY_SUGGESTION_KEY := "NSLocalizedRecoverySuggestion"

  const USER_INFO_KEYS: set<string> :=
    {NS_LOCALIZED_DESCRIPTION_KEY, NS_LOCALIZED_FAILURE_REASON_KEY, NS_LOCALIZED_RECOVERY_SUGGESTION_KEY}

  // `Logger.Source`: the source tags that mark analytics records.
  const SOURCE_ANALYTICS_ERROR := "AnalyticsError"
  const SOURCE_ANALYTICS_EVENT := "AnalyticsEvent"
  const SOURCE_ANALYTICS_SCREEN := "AnalyticsScreen"

  // ---------------------------------------------------------------------
  // Encoders
  // ---------------------------------------------------------------------

  /** `AnalyticsScreen.metadata`: exactly the two screen keys. */
  function ScreenMetadata(screen: AnalyticsScreen): (m: Metadata)
    ensures m.Keys == {KEY_SCREEN_NAME, KEY_SCREEN_CLASS}
  {
    map[KEY_SCREEN_NAME := screen.screenName, KEY_SCREEN_CLASS := screen.screenClass]
  }

  /**
   * `AnalyticsError.metadata`: always all five error keys; a missing
   * `userInfo` or a missing optional field is written as "".
   */
  function ErrorMetadata(e: AnalyticsError): (m: Metadata)
    ensures m.Keys == ERROR_KEYS
    ensures |m| == 5
  {
    var info := e.userInfo;
    var m := map[
      KEY_DOMAIN := e.domain,
      KEY_CODE := IntToDecimal(e.code),
      KEY_DESCRIPTION := if info.Some? then info.value.description else "",
      KEY_FAILURE_REASON := if info.Some? then info.value.failureReason.GetOr("") else "",
      KEY_RECOVERY_SUGGESTION := if info.Some? then info.value.recoverySuggestion.GetOr("") else ""];
    ErrorKeysCount();
    m
  }

  /**
   * `Error.metadata`: the same five keys, filled from the bridged `NSError`;
   * note that `description` is the error's full `description`, not its
   * localized description.
   */
  function BridgedErrorMetadata(e: BridgedError): (m: Metadata)
    ensures m.Keys == ERROR_KEYS
    ensures |m| == 5
  {
    var m := map[
      KEY_DOMAIN := e.domain,
      KEY_CODE := IntToDecimal(e.code),
      KEY_DESCRIPTION := e.description,
      KEY_FAILURE_REASON := e.localizedFailureReason.GetOr(""),
      KEY_RECOVERY_SUGGESTION := e.localizedRecoverySuggestion.GetOr("")];
    ErrorKeysCount();
    m
  }

  lemma ErrorKeysCount()
    ensures |ERROR_KEYS| == 5
  {
  }

  lemma UserInfoKeysCount()
    ensures |USER_INFO_KEYS| == 3
  {
  }

  // ---------------------------------------------------------------------
  // Decoders
  // ---------------------------------------------------------------------

  /**
   * `Metadata.nserror`: total. A missing domain is "", a missing or
   * non-decimal code is 0, and the user info always holds the three
   * localized entries, each "" when its key is missing.
   */
  function ToNSError(m: Metadata): (e: NSError)
    ensures e.userInfo.Keys == USER_INFO_KEYS
    ensures |e.userInfo| == 3
  {
    var code := match Lookup(m, KEY_CODE)
      case None => 0
      case Some(text) => ParseInt(text).GetOr(0);
    var userInfo := map[
      NS_LOCALIZED_DESCRIPTION_KEY := Lookup(m, KEY_DESCRIPTION).GetOr(""),
      NS_LOCALIZED_FAILURE_REASON_KEY := Lookup(m, KEY_FAILURE_REASON).GetOr(""),
      NS_LOCALIZED_RECOVERY_SUGGESTION_KEY := Lookup(m, KEY_RECOVERY_SUGGESTION).GetOr("")];
    UserInfoKeysCount();
    NSError(Lookup(m, KEY_DOMAIN).GetOr(""), code, userInfo)
  }

  /** `Metadata.screenName`. */
  function ScreenName(m: Metadata): (r: Option<string>)
    ensures r.Some? <==> KEY_SCREEN_NAME in m
    ensures r.Some? ==> r.value == m[KEY_SCREEN_NAME]
  {
    Lookup(m, KEY_SCREEN_NAME)
  }

  /** `Metadata.screenClass`. */
  function ScreenClass(m: Metadata): (r: Option<string>)
    ensures r.Some? <==> KEY_SCREEN_CLASS in m
    ensures r.Some? ==> r.value == m[KEY_SCREEN_CLASS]
  {
    Lookup(m, KEY_SCREEN_CLASS)
  }

  // ---------------------------------------------------------------------
  // Source tags
  // ---------------------------------------------------------------------

  /** `String.isSourceAnalyticsError`: an error-tagged source is no other tag. */
  predicate IsSourceAnalyticsError(source: string)
    ensures IsSourceAnalyticsError(source) ==>
      source != SOURCE_ANALYTICS_EVENT && source != SOURCE_ANALYTICS_SCREEN
  {
    source == SOURCE_ANALYTICS_ERROR
  }

  /** `String.isSourceAnalyticsEvent`: an event-tagged source is no other tag. */
  predicate IsSourceAnalyticsEvent(source: string)
    ensures IsSourceAnalyticsEvent(source) ==>
      source != SOURCE_ANALYTICS_ERROR && source != SOURCE_ANALYTICS_SCREEN
  {
    source == SOURCE_ANALYTICS_EVENT
  }

  /** `String.isSourceAnalyticsScreen`: a screen-tagged source is no other tag. */
  predicate IsSourceAnalyticsScreen(source: string)
    ensures IsSourceAnalyticsScreen(source) ==>
      source != SOURCE_ANALYTICS_ERROR && source != SOURCE_ANALYTICS_EVENT
  {
    source == SOURCE_ANALYTICS_SCREEN
  }

  /** `String.isSourceAnalytics`: the tag is one of the three analytics tags. */
  predicate IsSourceAnalytics(source: string)
    ensures IsSourceAnalytics(source) <==>
      source in {SOURCE_ANALYTICS_ERROR, SOURCE_ANALYTICS_EVENT, SOURCE_ANALYTICS_SCREEN}
  {
    IsSourceAnalyticsError(source) || IsSourceAnalyticsEvent(source) || IsSourceAnalyticsScreen(source)
  }

  // ---------------------------------------------------------------------
  // Emission helpers: the record each `Logger` helper hands to the handler
  // ---------------------------------------------------------------------

  /**
   * The message `"\(domain)[\(code)]"` of an error record: the domain, then
   * the code in brackets, from which `Int(_:)` reads the code back.
   */
  function ErrorMessage(domain: string, code: SwiftInt): (s: string)
    ensures |s| >= |domain| + 3 && s[..|domain|] == domain
    ensures s[|domain|] == '[' && s[|s| - 1] == ']'
    ensures ParseInt(s[|domain| + 1..|s| - 1]) == Some(code)
  {
    var s := domain + "[" + IntToDecimal(code) + "]";
    assert s[|domain| + 1..|s| - 1] == IntToDecimal(code);
    ParseIntOfDecimal(code);
    s
  }

  /** `Logger.record(_: AnalyticsError)`. */
  function RecordAnalyticsError(e: AnalyticsError): (r: LogRecord)
    ensures r.level == Error && IsSourceAnalyticsError(r.source)
    ensures r.message == ErrorMessage(e.domain, e.code)
    ensures r.metadata == Some(ErrorMetadata(e)) && r.metadata.value.Keys == ERROR_KEYS
  {
    LogRecord(Error, ErrorMessage(e.domain, e.code), Some(ErrorMetadata(e)), SOURCE_ANALYTICS_ERROR)
  }

  /** `Logger.record(_: AnalyticsEvent)`: the attributes are passed on as they are. */
  function RecordAnalyticsEvent(event: AnalyticsEvent): (r: LogRecord)
    ensures r.level == Info && IsSourceAnalyticsEvent(r.source)
    ensures r.message == event.name && r.metadata == event.attributes
  {
    LogRecord(Info, event.name, event.attributes, SOURCE_ANALYTICS_EVENT)
  }

  /** `Logger.record(_: AnalyticsScreen)`. */
  function RecordAnalyticsScreen(screen: AnalyticsScreen): (r: LogRecord)
    ensures r.level == Info && IsSourceAnalyticsScreen(r.source)
    ensures r.message == "Screen View"
    ensures r.metadata.Some? && r.metadata.value.Keys == {KEY_SCREEN_NAME, KEY_SCREEN_CLASS}
  {
    LogRecord(Info, "Screen View", Some(ScreenMetadata(screen)), SOURCE_ANALYTICS_SCREEN)
  }

  /** `Logger.recordScreen(_:screenClass:)`. */
  function RecordScreen(screenName: string, screenClass: string): (r: LogRecord)
    ensures r == RecordAnalyticsScreen(AnalyticsScreen(screenName, screenClass))
  {
    RecordAnalyticsScreen(AnalyticsScreen(screenName, screenClass))
  }

  /**
   * `Logger.error(_: Error)`. No source is passed, so the facade fills in its
   * default, derived from the file of the call inside this library; that
   * value is not computed here and is taken as a parameter.
   */
  function LogError(e: BridgedError, source: string): (r: LogRecord)
    ensures r.level == Error && r.source == source
    ensures r.message == ErrorMessage(e.domain, e.code)
    ensures r.metadata == Some(BridgedErrorMetadata(e)) && r.metadata.value.Keys == ERROR_KEYS
  {
    LogRecord(Error, ErrorMessage(e.domain, e.code), Some(BridgedErrorMetadata(e)), source)
  }

  // ---------------------------------------------------------------------
  // Properties of the codec
  // ---------------------------------------------------------------------

  /** Decoding a screen's metadata gives back its name and class. */
  lemma ScreenRoundTrip(screen: AnalyticsScreen)
    ensures ScreenName(ScreenMetadata(screen)) == Some(screen.screenName)
    ensures ScreenClass(ScreenMetadata(screen)) == Some(screen.screenClass)
  {
  }

  /** The user info `Metadata.nserror` builds: one entry per localized key. */
  ghost predicate UserInfoFrom(e: NSError, description: string, failureReason: string, recoverySuggestion: string) {
    && e.userInfo.Keys == USER_INFO_KEYS
    && e.userInfo[NS_LOCALIZED_DESCRIPTION_KEY] == description
    && e.userInfo[NS_LOCALIZED_FAILURE_REASON_KEY] == failureReason
    && e.userInfo[NS_LOCALIZED_RECOVERY_SUGGESTION_KEY] == recoverySuggestion
  }

  /** The defaults of `Metadata.nserror`, key by key. */
  lemma NSErrorDefaults(m: Metadata)
    ensures KEY_DOMAIN !in m ==> ToNSError(m).domain == ""
    ensures KEY_DOMAIN in m ==> ToNSError(m).domain == m[KEY_DOMAIN]
    ensures KEY_CODE !in m ==> ToNSError(m).code == 0
    ensures KEY_CODE in m && ParseInt(m[KEY_CODE]).None? ==> ToNSError(m).code == 0
    ensures KEY_CODE in m && ParseInt(m[KEY_CODE]).Some? ==> ToNSError(m).code == ParseInt(m[KEY_CODE]).value
    ensures UserInfoFrom(ToNSError(m),
      Lookup(m, KEY_DESCRIPTION).GetOr(""),
      Lookup(m, KEY_FAILURE_REASON).GetOr(""),
      Lookup(m, KEY_RECOVERY_SUGGESTION).GetOr(""))
  {
  }

  /** Empty metadata still decodes, to domain "", code 0 and empty texts. */
  lemma NSErrorOfEmpty()
    ensures ToNSError(map[]).domain == "" && ToNSError(map[]).code == 0
    ensures UserInfoFrom(ToNSError(map[]), "", "", "")
  {
  }

  /**
   * An analytics error survives encoding and decoding: same domain, same
   * code, and the user-info texts, with "" for whatever was absent.
   */
  lemma ErrorRoundTrip(e: AnalyticsError)
    ensures ToNSError(ErrorMetadata(e)).domain == e.domain
    ensures ToNSError(ErrorMetadata(e)).code == e.code
    ensures UserInfoFrom(ToNSError(ErrorMetadata(e)),
      if e.userInfo.Some? then e.userInfo.value.description else "",
      if e.userInfo.Some? then e.userInfo.value.failureReason.GetOr("") else "",
      if e.userInfo.Some? then e.userInfo.value.recoverySuggestion.GetOr("") else "")
  {
    ParseIntOfDecimal(e.code);
  }

  /** The same round trip for a bridged Swift `Error`. */
  lemma BridgedErrorRoundTrip(e: BridgedError)
    ensures ToNSError(BridgedErrorMetadata(e)).domain == e.domain
    ensures ToNSError(BridgedErrorMetadata(e)).code == e.code
    ensures UserInfoFrom(ToNSError(BridgedErrorMetadata(e)),
      e.description, e.localizedFailureReason.GetOr(""), e.localizedRecoverySuggestion.GetOr(""))
  {
    ParseIntOfDecimal(e.code);
  }

  /**
   * Collects the ensures of the three tag tests in one place: the tags are
   * distinct, so at most one specific test holds for any source.
   */
  lemma AtMostOneSource(source: string)
    ensures !(IsSourceAnalyticsError(source) && IsSourceAnalyticsEvent(source))
    ensures !(IsSourceAnalyticsError(source) && IsSourceAnalyticsScreen(source))
    ensures !(IsSourceAnalyticsEvent(source) && IsSourceAnalyticsScreen(source))
  {
  }
}
