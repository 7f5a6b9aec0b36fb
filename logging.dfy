/** The logger as a sink that keeps every record written to it. */
module Logging {

  datatype Level = ErrorLevel | InfoLevel | DebugLevel

  /** The metadata objects the core attaches to a log record. */
  datatype Meta =
    | NoMeta
    | Registration(firstName: string, lastName: string, email: string, password: string)
    | CreatedUser(id: nat)

  datatype LogEntry = LogEntry(level: Level, message: string, meta: Meta)

  class Logger {
    var entries: seq<LogEntry>

    constructor ()
      ensures entries == []
    {
      entries := [];
    }

    method Log(e: LogEntry)
      modifies this
      ensures entries == old(entries) + [e]
    {
      entries := entries + [e];
    }
  }
}
