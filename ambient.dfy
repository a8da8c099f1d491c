/**
  The ambient logging state shared by both components: SLF4J's mapped
  diagnostic context (MDC) of the current thread, and a log sink that
  records every call together with the MDC it saw at that moment.
 */
module Ambient {

  /** The closed set of severities (LoggingUtils.LogLevel). */
  datatype Level = DEBUG | INFO | WARN | ERROR

  /**
    One log call as the sink received it: the severity, the message (a
    format string), the already rendered format arguments, and a snapshot
    of the MDC at the moment of the call.
   */
  datatype Record = Record(level: Level, message: string, args: seq<string>, mdc: map<string, string>)

  /** The thread's MDC: a mutable string-to-string map. */
  class Mdc {
    var m: map<string, string>

    constructor ()
      ensures m == map[]
    {
      m := map[];
    }

    /** `MDC.put(key, value)`. */
    method Put(key: string, value: string)
      modifies this
      ensures m == old(m)[key := value]
    {
      m := m[key := value];
    }

    /** `MDC.remove(key)`: a key that is not there is not an error. */
    method Remove(key: string)
      modifies this
      ensures m == old(m) - {key}
    {
      m := m - {key};
    }

    /** `MDC.clear()`. */
    method Clear()
      modifies this
      ensures m == map[]
    {
      m := map[];
    }
  }

  /** An SLF4J logger, seen only through what it has been asked to log. */
  class Logger {
    var records: seq<Record>

    constructor ()
      ensures records == []
    {
      records := [];
    }

    /**
      One call `logger.<level>(message, args...)`. The transport may throw
      (`throws`); such a call leaves no record and the exception propagates
      to the caller (`raised`). Otherwise exactly one record is appended,
      carrying the MDC as it is now.
     */
    method Log(level: Level, message: string, args: seq<string>, mdc: Mdc, throws: bool) returns (raised: bool)
      modifies this
      ensures raised == throws
      ensures records == old(records) + (if throws then [] else [Record(level, message, args, mdc.m)])
    {
      raised := throws;
      if !throws {
        records := records + [Record(level, message, args, mdc.m)];
      }
    }
  }
}
