/**
 * The parts of the swift-log facade that the Firebase backend sees: the log
 * levels, the metadata dictionary and the record handed to a log handler.
 * Every metadata value is modelled by its `description`, i.e. as a string.
 */
module Logging {
  import opened Wrappers

  /** `Logger.Level`, from least to most severe. */
  datatype Level = Trace | Debug | Info | Notice | Warning | Error | Critical

  /** `Logger.Metadata`: a dictionary from keys to (the descriptions of) values. */
  type Metadata = map<string, string>

  /** `dictionary[key]?.description`: the value stored under `key`, if any. */
  function Lookup(m: Metadata, key: string): (r: Option<string>)
    ensures r.Some? <==> key in m
    ensures r.Some? ==> r.value == m[key]
  {
    if key in m then Some(m[key]) else None
  }

  /**
   * One call of a log handler's `log(level:message:metadata:source:...)`.
   * `metadata` is `nil` when the caller attached none.
   */
  datatype LogRecord = LogRecord(level: Level, message: string, metadata: Option<Metadata>, source: string)
}
