/** The logging sink: every call appends one (level, message) entry, in call order. */
module Logging {

  datatype Level = Debug | Information | Error

  datatype LogEntry = LogEntry(level: Level, message: string)

  /** The `ILogger` the supervisor writes to. */
  class Logger {
    var entries: seq<LogEntry>

    constructor ()
      ensures entries == []
    {
      entries := [];
    }

    method Log(level: Level, message: string)
      modifies this
      ensures entries == old(entries) + [LogEntry(level, message)]
    {
      entries := entries + [LogEntry(level, message)];
    }
  }
}
