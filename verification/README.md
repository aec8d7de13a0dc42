# swift-log-analytics-firebase, modelled in Dafny

This project models the core of `swift-log-analytics-firebase`, a `SwiftLog`
backend that forwards log records to Firebase Analytics and Firebase
Crashlytics. The core has two parts:

- **the metadata codec** (`Logger+Analytics.swift`): typed descriptors
  (`AnalyticsScreen`, `AnalyticsError`, a bridged Swift `Error`) are encoded
  into a flat `Logger.Metadata` dictionary under reserved keys. The decoders
  `nserror`, `screenName` and `screenClass` read it back. Three string
  predicates recognise the source tags `"AnalyticsError"`, `"AnalyticsEvent"`
  and `"AnalyticsScreen"`. The `Logger.record(...)`, `recordScreen` and
  `error(_: Error)` helpers become functions that return the log record
  (level, message, metadata, source) they would emit;
- **the handler** (`FirebaseLogHandler.swift`): `log` is a first-match-wins
  decision over the source tag and the level. It is modelled as the function
  `Route`, which returns the one vendor call it would make as an `Action`:
  `LogEvent(name, parameters)`, `RecordError(nserror)` or `NoOp`. Because the
  result is a single `Action`, each call makes at most one vendor call. The
  handler's stored `logLevel` and `metadata` bag are the fields of the class
  `FirebaseLogHandler`. The metadata subscript is the function `Get` and the
  method `Set`.

Files:

- `wrappers.dfy` holds `Option`, i.e. Swift's `T?`.
- `logging.dfy` holds the swift-log types the handler sees.
- `decimal.dfy` holds Swift's 64-bit `Int`, printed by `"\(n)"` and parsed by `Int(_: String)`.
- `logger_analytics.dfy` is the codec.
- `firebase_log_handler.dfy` is the router and the handler.

Every metadata value is modelled by its `description`, as a string. Firebase's
`AnalyticsEventScreenView`, `AnalyticsParameterScreenName` and
`AnalyticsParameterScreenClass` are given their SDK values. Foundation's
three localized user-info keys are given theirs too. Nothing in the proofs
depends on these values except that they are distinct.

Two behaviours of the code are worth stating outright:

- Only `level == .error` is tested (`FirebaseLogHandler.swift:43`). A
  `.critical` record with an ordinary source is therefore not reported
  (`RouteCriticalIsNoOp`).
- `Metadata.nserror` is total (`Logger+Analytics.swift:87-99`). The `guard`
  at `FirebaseLogHandler.swift:44` therefore only drops a record whose
  metadata is `nil`. Empty or `domain`-less metadata is still reported, with
  domain `""` and code `0` (`RouteErrorWithoutPayload`).

`log` never reads the handler's own `logLevel` or metadata bag
(`FirebaseLogHandler.swift:26-47`). Metadata stored through the subscript
(`FirebaseLogHandler.swift:54-61`) therefore never reaches Firebase, and
`Route` does not take it as an input.

Also, the screen-view event's parameters use the Firebase parameter names.
They are not the metadata keys `screenName`/`screenClass`
(`FirebaseLogHandler.swift:38-42`).

## Model

| member | source | states |
|---|---|---|
| `Decimal.NatToDecimal` | Sources/LoggingAnalyticsFirebase/Logger+Analytics.swift:62 | interpolating a non-negative `Int` gives a non-empty run of ASCII digits with no leading zero (only `0` starts with `'0'`) |
| `Decimal.IntToDecimal` | Sources/LoggingAnalyticsFirebase/Logger+Analytics.swift:62 | `"\(code)"` starts with `-` exactly when the code is negative; the rest is digits |
| `Decimal.ParseInt` | Sources/LoggingAnalyticsFirebase/Logger+Analytics.swift:89 | `Int(text)` accepts every digit string whose value fits in 64 bits, with that value; anything it accepts is non-empty and ends in a digit |
| `Decimal.DigitsValueOfDecimal` | Sources/LoggingAnalyticsFirebase/Logger+Analytics.swift:62 | the digits printed for `n` denote `n` |
| `Decimal.ParseIntOfDecimal` | Sources/LoggingAnalyticsFirebase/Logger+Analytics.swift:89 | parsing what `"\(code)"` printed gives back the same `Int`, negative codes included |
| `Decimal.ParseIntSigned` | Sources/LoggingAnalyticsFirebase/Logger+Analytics.swift:89 | on a digit run, zero-padded or not, with or without a leading `+` or `-`, `Int(text)` gives its signed value, and `nil` when that value is outside the 64-bit range |
| `Decimal.ParseIntRejectsNonDigit` | Sources/LoggingAnalyticsFirebase/Logger+Analytics.swift:89 | a character that is neither a digit nor a leading sign makes `Int(text)` fail, so the code falls back to 0 |
| `Decimal.ParseIntRejectsEmptyDigits` | Sources/LoggingAnalyticsFirebase/Logger+Analytics.swift:89 | `""`, `"+"` and `"-"` do not parse |
| `LoggerAnalytics.ScreenMetadata` | Sources/LoggingAnalyticsFirebase/Logger+Analytics.swift:28-33 | a screen is encoded under exactly the two keys `screenName` and `screenClass` |
| `LoggerAnalytics.ErrorMetadata` | Sources/LoggingAnalyticsFirebase/Logger+Analytics.swift:59-67 | an analytics error is always encoded under exactly the five keys `domain`, `code`, `description`, `failureReason`, `recoverySuggestion`; absent values are written as `""`, never omitted |
| `LoggerAnalytics.BridgedErrorMetadata` | Sources/LoggingAnalyticsFirebase/Logger+Analytics.swift:71-80 | a Swift `Error` is encoded under the same five keys |
| `LoggerAnalytics.ToNSError` | Sources/LoggingAnalyticsFirebase/Logger+Analytics.swift:87-99 | `nserror` is total, and its user info always holds exactly the three localized keys |
| `LoggerAnalytics.ScreenName` | Sources/LoggingAnalyticsFirebase/Logger+Analytics.swift:101-103 | `screenName` is present exactly when the `screenName` key is, and then it is that key's value |
| `LoggerAnalytics.ScreenClass` | Sources/LoggingAnalyticsFirebase/Logger+Analytics.swift:105-107 | `screenClass` is present exactly when the `screenClass` key is, and then it is that key's value |
| `LoggerAnalytics.IsSourceAnalyticsError` | Sources/LoggingAnalyticsFirebase/Logger+Analytics.swift:120-122 | a source that passes the error-tag test is neither the event tag nor the screen tag |
| `LoggerAnalytics.IsSourceAnalyticsEvent` | Sources/LoggingAnalyticsFirebase/Logger+Analytics.swift:124-126 | a source that passes the event-tag test is neither the error tag nor the screen tag |
| `LoggerAnalytics.IsSourceAnalyticsScreen` | Sources/LoggingAnalyticsFirebase/Logger+Analytics.swift:128-130 | a source that passes the screen-tag test is neither the error tag nor the event tag |
| `LoggerAnalytics.IsSourceAnalytics` | Sources/LoggingAnalyticsFirebase/Logger+Analytics.swift:114-118 | a source is an analytics source iff it is one of the three tags |
| `LoggerAnalytics.AtMostOneSource` | Sources/LoggingAnalyticsFirebase/Logger+Analytics.swift:151-154 | the three tags are distinct, so at most one specific tag test holds |
| `LoggerAnalytics.ErrorMessage` | Sources/LoggingAnalyticsFirebase/Logger+Analytics.swift:159 | an error record's message is the domain followed by `[code]`, and `Int(_:)` reads the code back from between the brackets |
| `LoggerAnalytics.RecordAnalyticsError` | Sources/LoggingAnalyticsFirebase/Logger+Analytics.swift:157-160 | `record(error)` logs at `.error` with source `AnalyticsError`, message `domain[code]` and exactly the error's own encoded metadata (`ErrorMetadata`), with its five keys |
| `LoggerAnalytics.RecordAnalyticsEvent` | Sources/LoggingAnalyticsFirebase/Logger+Analytics.swift:162-165 | `record(event)` logs at `.info` with source `AnalyticsEvent`, the event name as message and its attributes as metadata |
| `LoggerAnalytics.RecordAnalyticsScreen` | Sources/LoggingAnalyticsFirebase/Logger+Analytics.swift:167-169 | `record(screen)` logs `"Screen View"` at `.info` with source `AnalyticsScreen` and the two screen keys |
| `LoggerAnalytics.RecordScreen` | Sources/LoggingAnalyticsFirebase/Logger+Analytics.swift:171-173 | `recordScreen(n, screenClass: c)` emits the same record as `record(AnalyticsScreen(n, c))` |
| `LoggerAnalytics.LogError` | Sources/LoggingAnalyticsFirebase/Logger+Analytics.swift:138-142 | `error(someError)` logs at `.error` with message `domain[code]` and exactly the error's encoded metadata (`BridgedErrorMetadata`), with its five keys |
| `LoggerAnalytics.ScreenRoundTrip` | Sources/LoggingAnalyticsFirebase/Logger+Analytics.swift:101-107 | decoding a screen's metadata gives back its name and class |
| `LoggerAnalytics.NSErrorDefaults` | Sources/LoggingAnalyticsFirebase/Logger+Analytics.swift:88-97 | a missing domain decodes to `""`; a missing or unparsable code decodes to 0; a parsable one decodes to its value; each user-info text is the metadata value or `""` |
| `LoggerAnalytics.NSErrorOfEmpty` | Sources/LoggingAnalyticsFirebase/Logger+Analytics.swift:87-99 | empty metadata decodes to domain `""`, code 0 and three empty texts |
| `LoggerAnalytics.ErrorRoundTrip` | Sources/LoggingAnalyticsFirebase/Logger+Analytics.swift:59-99 | an analytics error's metadata decodes to its own domain and code, with its texts (or `""` where absent) in the user info |
| `LoggerAnalytics.BridgedErrorRoundTrip` | Sources/LoggingAnalyticsFirebase/Logger+Analytics.swift:71-99 | a Swift error's metadata decodes to its own domain, code, description and localized texts |
| `FirebaseLogging.ScreenViewParameters` | Sources/LoggingAnalyticsFirebase/FirebaseLogHandler.swift:38-42 | the screen-view event always carries exactly the two Firebase screen parameters |
| `FirebaseLogging.Route` | Sources/LoggingAnalyticsFirebase/FirebaseLogHandler.swift:26-47 | an analytics event is logged only for event or screen sources; a crash report is sent only when metadata is present and the source is the error tag or the level is `.error` |
| `FirebaseLogging.RouteEvent` | Sources/LoggingAnalyticsFirebase/FirebaseLogHandler.swift:35-36 | an event record is forwarded with its message and metadata verbatim, at every level, `.error` included |
| `FirebaseLogging.RouteScreen` | Sources/LoggingAnalyticsFirebase/FirebaseLogHandler.swift:37-42 | a screen record becomes one screen-view event whose name and class come from metadata, each `""` when the key or the whole metadata is missing |
| `FirebaseLogging.RouteRecordsErrorIff` | Sources/LoggingAnalyticsFirebase/FirebaseLogHandler.swift:43-45 | a crash report is sent iff the source is neither event nor screen, the source is the error tag or the level is `.error`, and metadata is present; it carries the metadata's `nserror` |
| `FirebaseLogging.RouteLogsEventIff` | Sources/LoggingAnalyticsFirebase/FirebaseLogHandler.swift:35-42 | an analytics event is logged iff the source is the event or the screen tag |
| `FirebaseLogging.RouteErrorWithoutPayload` | Sources/LoggingAnalyticsFirebase/FirebaseLogHandler.swift:44 | in the error branch, empty metadata is still reported as domain `""` and code 0; `nil` metadata gives no call |
| `FirebaseLogging.RouteCriticalIsNoOp` | Sources/LoggingAnalyticsFirebase/FirebaseLogHandler.swift:43 | a `.critical` record with a non-analytics source makes no vendor call |
| `FirebaseLogging.RecordEventRoutes` | Sources/LoggingAnalyticsFirebase/Logger+Analytics.swift:162-165 | `record(event)` ends as an analytics event with the event's name and attributes |
| `FirebaseLogging.RecordScreenRoutes` | Sources/LoggingAnalyticsFirebase/Logger+Analytics.swift:171-173 | `recordScreen(n, screenClass: c)` ends as one screen-view event carrying `n` and `c` |
| `FirebaseLogging.RecordErrorRoutes` | Sources/LoggingAnalyticsFirebase/Logger+Analytics.swift:157-160 | `record(error)` ends as a crash report with the error's domain, code and texts |
| `FirebaseLogging.LogErrorRoutes` | Sources/LoggingAnalyticsFirebase/Logger+Analytics.swift:138-142 | `error(someError)` from an ordinary source ends as a crash report with the error's domain, code and texts |
| `FirebaseLogging.Assign` | Sources/LoggingAnalyticsFirebase/FirebaseLogHandler.swift:58-60 | after `metadata[key] = value` the key reads back `value` (`nil` removes it) and every other key is unchanged |
| `FirebaseLogging.FirebaseLogHandler.constructor` | Sources/LoggingAnalyticsFirebase/FirebaseLogHandler.swift:22-49 | a new handler has level `.info` (the initialiser at :22) and an empty bag (the initialiser at :49); `init(label:)` at :24 ignores its label |
| `FirebaseLogging.FirebaseLogHandler.SetLogLevel` | Sources/LoggingAnalyticsFirebase/FirebaseLogHandler.swift:22 | setting `logLevel` changes only the level |
| `FirebaseLogging.FirebaseLogHandler.Get` | Sources/LoggingAnalyticsFirebase/FirebaseLogHandler.swift:55-57 | the subscript getter returns the stored value, or `nil` when the key is absent |
| `FirebaseLogging.FirebaseLogHandler.Set` | Sources/LoggingAnalyticsFirebase/FirebaseLogHandler.swift:58-60 | the subscript setter makes the key read back the value just set, removes it for `nil`, and leaves other keys and the level unchanged |
| `FirebaseLogging.FirebaseLogHandler.Log` | Sources/LoggingAnalyticsFirebase/FirebaseLogHandler.swift:35-46 | `log` makes the routing decision from the record alone; the handler's level and metadata bag, and the file, function and line, play no part |

## Left out

- Firebase SDK calls: `Analytics.logEvent` and `Crashlytics.crashlytics().record` are vendor code. They are the returned `Action`; delivery is not modelled.
- NSError bridging: `error as NSError`, its `description` and its localized failure reason and recovery suggestion belong to the Foundation runtime. They are inputs (`BridgedError`).
- NSError construction: `NSError(domain:code:userInfo:)` is a plain record of its three arguments.
- The swift-log facade: filtering by `logLevel` and `@autoclosure` evaluation.
- The default `source` of `error(_: Error)`: the facade derives it from the file of the call, which lies inside this library. It is a parameter of `LogError`.
- `Logger.MetadataValue`'s nested array and dictionary cases: every value is its `description`, a string.
- Swift `Int` is modelled as 64 bits. `Int(text)` is exact on that range and rejects values outside it; there is no wrap-around to model.
- Assign, FirebaseLogHandler.Get, FirebaseLogHandler.Set: strings are compared as sequences of Unicode scalars, while Swift compares `String` values and dictionary keys up to canonical equivalence (`"e\u{301}"` and `"\u{e9}"` are one key in Swift, two here). The promise that setting one key leaves every other key unchanged therefore holds for the bag's keys read as normalised strings. Routing, the codec and the tag tests are unaffected, because the reserved keys and the three tags are ASCII and no other spelling is canonically equivalent to them.
- Concurrency: the handler has no synchronisation, and logging from several threads is not modelled.
