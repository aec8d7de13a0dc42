/**
 * FirebaseLogHandler: the swift-log backend. `Route` is the decision its
 * `log` method makes; the vendor calls it would perform are returned as an
 * `Action`. The handler's own stored state (level and metadata bag) is the
 * class `FirebaseLogHandler`.
 */
module FirebaseLogging {
  import opened Wrappers
  import opened Logging
  import opened Decimal
  import opened LoggerAnalytics

  // Firebase Analytics' `AnalyticsEventScreenView`, `AnalyticsParameterScreenName`
  // and `AnalyticsParameterScreenClass`.
  const EVENT_SCREEN_VIEW := "screen_view"
  const PARAMETER_SCREEN_NAME := "screen_name"
  const PARAMETER_SCREEN_CLASS := "screen_class"

  /** The one vendor call a log record leads to, if any. */
  datatype Action =
    | LogEvent(name: string, parameters: Option<Metadata>)  // `Analytics.logEvent(_:parameters:)`
    | RecordError(error: NSError)                          // `Crashlytics.crashlytics().record(error:)`
    | NoOp

  /** The parameters of the screen-view event, each "" when not available. */
  function ScreenViewParameters(metadata: Option<Metadata>): (p: Metadata)
    ensures p.Keys == {PARAMETER_SCREEN_NAME, PARAMETER_SCREEN_CLASS}
  {
    var name := if metadata.Some? then ScreenName(metadata.value).GetOr("") else "";
    var screenClass := if metadata.Some? then ScreenClass(metadata.value).GetOr("") else "";
    map[PARAMETER_SCREEN_NAME := name, PARAMETER_SCREEN_CLASS := screenClass]
  }

  /**
   * `FirebaseLogHandler.log`: the first matching branch wins. An event
   * record is forwarded as it is; a screen record becomes a screen-view
   * event; an error-tagged record, or any other record at level `.error`,
   * is reported to crash reporting when metadata is attached at all.
   */
  function Route(level: Level, message: string, metadata: Option<Metadata>, source: string): (a: Action)
    ensures a.LogEvent? ==> IsSourceAnalyticsEvent(source) || IsSourceAnalyticsScreen(source)
    ensures a.RecordError? ==> metadata.Some? && (IsSourceAnalyticsError(source) || level == Error)
  {
    if IsSourceAnalyticsEvent(source) then
      LogEvent(message, metadata)
    else if IsSourceAnalyticsScreen(source) then
      LogEvent(EVENT_SCREEN_VIEW, Some(ScreenViewParameters(metadata)))
    else if IsSourceAnalyticsError(source) || level == Error then
      if metadata.Some? then RecordError(ToNSError(metadata.value)) else NoOp
    else
      NoOp
  }

  function RouteRecord(r: LogRecord): Action {
    Route(r.level, r.message, r.metadata, r.source)
  }

  // ---------------------------------------------------------------------
  // Routing, branch by branch
  // ---------------------------------------------------------------------

  /** An event record is forwarded verbatim, at every level, `.error` included. */
  lemma RouteEvent(level: Level, message: string, metadata: Option<Metadata>)
    ensures Route(level, message, metadata, SOURCE_ANALYTICS_EVENT) == LogEvent(message, metadata)
  {
  }

  /** A screen record becomes one screen-view event with the decoded name and class. */
  lemma RouteScreen(level: Level, message: string, metadata: Option<Metadata>)
    ensures var a := Route(level, message, metadata, SOURCE_ANALYTICS_SCREEN);
      && a.LogEvent? && a.name == EVENT_SCREEN_VIEW && a.parameters.Some?
      && a.parameters.value[PARAMETER_SCREEN_NAME] ==
           (if metadata.Some? && KEY_SCREEN_NAME in metadata.value then metadata.value[KEY_SCREEN_NAME] else "")
      && a.parameters.value[PARAMETER_SCREEN_CLASS] ==
           (if metadata.Some? && KEY_SCREEN_CLASS in metadata.value then metadata.value[KEY_SCREEN_CLASS] else "")
  {
  }

  /**
   * A crash report is sent exactly when the record is neither an event nor a
   * screen record, is tagged as an error or logged at `.error`, and carries
   * metadata; what is sent is the metadata's `nserror`.
   */
  lemma RouteRecordsErrorIff(level: Level, message: string, metadata: Option<Metadata>, source: string)
    ensures Route(level, message, metadata, source).RecordError? <==>
      && !IsSourceAnalyticsEvent(source) && !IsSourceAnalyticsScreen(source)
      && (IsSourceAnalyticsError(source) || level == Error)
      && metadata.Some?
    ensures Route(level, message, metadata, source).RecordError? ==>
      Route(level, message, metadata, source).error == ToNSError(metadata.value)
  {
  }

  /** An analytics event is logged exactly for event and screen records. */
  lemma RouteLogsEventIff(level: Level, message: string, metadata: Option<Metadata>, source: string)
    ensures Route(level, message, metadata, source).LogEvent? <==>
      IsSourceAnalyticsEvent(source) || IsSourceAnalyticsScreen(source)
  {
  }

  /**
   * Metadata without a domain or code, even an empty dictionary, is still
   * reported, as domain "" and code 0; only a record with no metadata at
   * all is dropped.
   */
  lemma RouteErrorWithoutPayload(level: Level, message: string, source: string)
    requires !IsSourceAnalyticsEvent(source) && !IsSourceAnalyticsScreen(source)
    requires IsSourceAnalyticsError(source) || level == Error
    ensures Route(level, message, Some(map[]), source).RecordError?
    ensures Route(level, message, Some(map[]), source).error.domain == ""
    ensures Route(level, message, Some(map[]), source).error.code == 0
    ensures Route(level, message, None, source) == NoOp
  {
  }

  /** `.critical` is not `.error`: a critical record with an ordinary source is not reported. */
  lemma RouteCriticalIsNoOp(message: string, metadata: Option<Metadata>, source: string)
    requires !IsSourceAnalytics(source)
    ensures Route(Critical, message, metadata, source) == NoOp
  {
  }

  // ---------------------------------------------------------------------
  // End to end: emission helper followed by routing
  // ---------------------------------------------------------------------

  /** `record(event)` logs that event with its attributes. */
  lemma RecordEventRoutes(event: AnalyticsEvent)
    ensures RouteRecord(RecordAnalyticsEvent(event)) == LogEvent(event.name, event.attributes)
  {
  }

  /** `recordScreen(n, screenClass: c)` logs one screen-view event carrying `n` and `c`. */
  lemma RecordScreenRoutes(screenName: string, screenClass: string)
    ensures RouteRecord(RecordScreen(screenName, screenClass)) ==
      LogEvent(EVENT_SCREEN_VIEW, Some(map[PARAMETER_SCREEN_NAME := screenName, PARAMETER_SCREEN_CLASS := screenClass]))
  {
  }

  /** `record(error)` reports an `NSError` with the error's own domain and code. */
  lemma RecordErrorRoutes(e: AnalyticsError)
    ensures var a := RouteRecord(RecordAnalyticsError(e));
      && a.RecordError?
      && a.error.domain == e.domain && a.error.code == e.code
      && UserInfoFrom(a.error,
           if e.userInfo.Some? then e.userInfo.value.description else "",
           if e.userInfo.Some? then e.userInfo.value.failureReason.GetOr("") else "",
           if e.userInfo.Some? then e.userInfo.value.recoverySuggestion.GetOr("") else "")
  {
    ErrorRoundTrip(e);
  }

  /**
   * `logger.error(someError)` reports the bridged error's domain, code and
   * texts, unless its source happens to be an event or screen tag.
   */
  lemma LogErrorRoutes(e: BridgedError, source: string)
    requires !IsSourceAnalyticsEvent(source) && !IsSourceAnalyticsScreen(source)
    ensures var a := RouteRecord(LogError(e, source));
      && a.RecordError?
      && a.error.domain == e.domain && a.error.code == e.code
      && UserInfoFrom(a.error, e.description,
           e.localizedFailureReason.GetOr(""), e.localizedRecoverySuggestion.GetOr(""))
  {
    BridgedErrorRoundTrip(e);
  }

  // ---------------------------------------------------------------------
  // The handler's stored state
  // ---------------------------------------------------------------------

  /** The dictionary after `metadata[key] = value`: `nil` removes the key. */
  function Assign(m: Metadata, key: string, value: Option<string>): (r: Metadata)
    ensures Lookup(r, key) == value
    ensures forall k :: k != key ==> Lookup(r, k) == Lookup(m, k)
  {
    if value.Some? then m[key := value.value] else m - {key}
  }

  class FirebaseLogHandler {
    var logLevel: Level
    var metadata: Metadata

    /** `init(label:)`: the label is not used. */
    constructor (handlerLabel: string)
      ensures logLevel == Info && metadata == map[]
    {
      logLevel := Info;
      metadata := map[];
    }

    /** The `logLevel` setter. */
    method SetLogLevel(level: Level)
      modifies this
      ensures logLevel == level && metadata == old(metadata)
    {
      logLevel := level;
    }

    /** The getter of `subscript(metadataKey:)`. */
    function Get(key: string): (r: Option<string>)
      reads this
      ensures r.Some? <==> key in metadata
      ensures r.Some? ==> r.value == metadata[key]
    {
      Lookup(metadata, key)
    }

    /** The setter of `subscript(metadataKey:)`. */
    method Set(key: string, value: Option<string>)
      modifies this
      ensures metadata == Assign(old(metadata), key, value)
      ensures logLevel == old(logLevel)
      ensures Get(key) == value
      ensures forall k :: k != key ==> Get(k) == old(Get(k))
    {
      metadata := Assign(metadata, key, value);
    }

    /**
     * `log(level:message:metadata:source:file:function:line:)`: only the
     * record's own level, message, metadata and source decide the outcome.
     * The handler's `logLevel` and its metadata bag are never read, so
     * metadata stored through the subscript never reaches Firebase; file,
     * function and line are ignored too.
     */
    method Log(level: Level, message: string, metadata: Option<Metadata>, source: string,
               file: string, functionName: string, line: nat) returns (action: Action)
      ensures action == Route(level, message, metadata, source)
    {
      action := Route(level, message, metadata, source);
    }
  }
}
