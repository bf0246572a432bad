/** `library/logger.py`, the copy of `LoggerForDevOps` the rest of the
    repository imports. Every logging call drops every console and file
    handler from the shared logger and attaches the handler it has just
    built: the last call's handler replaces whatever stream handler was
    there, and, while only this class attaches handlers, the record it logs
    is written by that handler alone. */
module LibraryLogger {
  import opened Logging

  /** `__name__` of the module, the key under which `getLogger` finds the
      shared logger. */
  const LoggerName: string := "library.logger"

  /** The handler list a call leaves behind: the old list without its console
      and file handlers, followed by the call's own handler. */
  function Replaced(hs: seq<Handler>, h: Handler): (r: seq<Handler>)
    ensures |r| <= |hs| + 1 && h in r
  {
    WithoutStream(hs) + [h]
  }

  /** After a call, the call's handler is the last one attached, every other
      handler was attached before, and no other console or file handler is
      left, so at most one stream handler is attached at any time. */
  lemma ReplacedSingleStream(hs: seq<Handler>, h: Handler)
    ensures |Replaced(hs, h)| >= 1 && Replaced(hs, h)[|Replaced(hs, h)| - 1] == h
    ensures forall i :: 0 <= i < |Replaced(hs, h)| - 1 ==>
      Replaced(hs, h)[i] in hs && !IsStream(Replaced(hs, h)[i])
    ensures forall i, j :: 0 <= i < j < |Replaced(hs, h)| ==>
      !(IsStream(Replaced(hs, h)[i]) && IsStream(Replaced(hs, h)[j]))
  {
    var r := Replaced(hs, h);
    var w := WithoutStream(hs);
    forall i | 0 <= i < |r| - 1 ensures !IsStream(r[i]) {
      assert r[i] == w[i];
    }
  }

  /** Last one wins: a second call undoes the first one's attachment, so any
      series of calls leaves the same list as its last call alone would. */
  lemma ReplacedLastWins(hs: seq<Handler>, h1: Handler, h2: Handler)
    requires IsStream(h1)
    ensures Replaced(Replaced(hs, h1), h2) == Replaced(hs, h2)
  {
    var w := WithoutStream(hs);
    WithoutStreamAppend(w, [h1]);
    WithoutStreamNoStream(w);
    assert WithoutStream([h1]) == [];
  }

  /** Handlers that are neither console nor file handlers are never dropped
      and keep their order; the call's handler comes after them. */
  lemma ReplacedKeepsOthers(others: seq<Handler>, h: Handler)
    requires !AnyStream(others)
    ensures Replaced(others, h) == others + [h]
  {
    WithoutStreamNoStream(others);
  }

  /** Dropping stream handlers anywhere in the list before a call makes no
      difference to the list the call leaves. */
  lemma ReplacedIgnoresStreams(a: seq<Handler>, streams: seq<Handler>, b: seq<Handler>, h: Handler)
    requires forall i :: 0 <= i < |streams| ==> IsStream(streams[i])
    ensures Replaced(a + streams + b, h) == Replaced(a + b, h)
  {
    calc {
      WithoutStream(a + streams + b);
      { WithoutStreamAppend(a + streams, b); }
      WithoutStream(a + streams) + WithoutStream(b);
      { WithoutStreamAppend(a, streams); WithoutStreamOnlyStream(streams); }
      WithoutStream(a) + WithoutStream(b);
      { WithoutStreamAppend(a, b); }
      WithoutStream(a + b);
    }
  }

  /** When only this class attaches handlers (every attached handler is a
      console or file handler, as after construction), the record of a call
      is written once, by the handler that call built, in that handler's
      format. */
  lemma OnlyBuiltHandlerWrites(hs: seq<Handler>, h: Handler, rec: Record, asctime: string)
    requires forall i :: 0 <= i < |hs| ==> IsStream(hs[i])
    ensures Replaced(hs, h) == [h]
    ensures Deliver(Replaced(hs, h), rec, asctime)
         == [Emission(h, Render(h.format, rec, asctime), rec.excInfo, rec.stackInfo)]
  {
    WithoutStreamOnlyStream(hs);
  }

  /** The four file calls use four different files of the log directory. */
  lemma FileTargetsDistinct(pathLogs: string)
    ensures JoinPath(pathLogs, "debug.log") != JoinPath(pathLogs, "warning.log")
    ensures JoinPath(pathLogs, "debug.log") != JoinPath(pathLogs, "error.log")
    ensures JoinPath(pathLogs, "debug.log") != JoinPath(pathLogs, "critical.log")
    ensures JoinPath(pathLogs, "warning.log") != JoinPath(pathLogs, "error.log")
    ensures JoinPath(pathLogs, "warning.log") != JoinPath(pathLogs, "critical.log")
    ensures JoinPath(pathLogs, "error.log") != JoinPath(pathLogs, "critical.log")
  {
    JoinPathInjective(pathLogs, "debug.log", "warning.log");
    JoinPathInjective(pathLogs, "debug.log", "error.log");
    JoinPathInjective(pathLogs, "debug.log", "critical.log");
    JoinPathInjective(pathLogs, "warning.log", "error.log");
    JoinPathInjective(pathLogs, "warning.log", "critical.log");
    JoinPathInjective(pathLogs, "error.log", "critical.log");
  }

  /** `LoggerForDevOps` of library/logger.py. `built` records every handler
      a call of this object constructed, in order (a file handler opens its
      file when it is built). */
  class Router {
    const logger: Logger
    const pathLogs: string
    ghost var built: seq<Handler>

    /** The shared logger is looked up by the module's name, set to DEBUG and
        emptied of handlers; a logger another instance already uses is the
        same object. */
    constructor (registry: Registry, pathLogs: string)
      requires registry.Valid()
      modifies registry, if LoggerName in registry.loggers then {registry.loggers[LoggerName]} else {}
      ensures registry.Valid()
      ensures LoggerName in registry.loggers && registry.loggers[LoggerName] == logger
      ensures registry.loggers == old(registry.loggers)[LoggerName := logger]
      ensures LoggerName in old(registry.loggers) ==>
        logger == old(registry.loggers[LoggerName]) && logger.trace == old(registry.loggers[LoggerName].trace)
      ensures LoggerName !in old(registry.loggers) ==> fresh(logger) && logger.trace == []
      ensures logger.name == LoggerName && this.pathLogs == pathLogs && built == []
      ensures logger.level == LevelNo(DEBUG) && logger.handlers == []
      ensures forall l :: logger.IsEnabledFor(l)
    {
      var l := registry.GetLogger(LoggerName);
      l.SetLevel(DEBUG);
      logger := l;
      this.pathLogs := pathLogs;
      l.handlers := [];
      built := [];
    }

    /** The handler the latest call built. */
    ghost function Newest(): (h: Handler)
      reads this
      requires built != []
    {
      built[|built| - 1]
    }

    /** `_get_file_handler`: a file handler for `filename` in the log
        directory, appending, with the given formatter; `null` when the file
        cannot be opened. */
    method GetFileHandler(filename: string, format: Format, canOpen: bool) returns (h: Handler?)
      ensures h != null <==> canOpen
      ensures h != null ==> fresh(h) && h.target == LogFile(JoinPath(pathLogs, filename)) && h.format == format
    {
      if canOpen {
        h := new Handler(LogFile(JoinPath(pathLogs, filename)), format);
      } else {
        h := null;
      }
    }

    /** The tail every call shares: reassign the list without its console
        and file handlers, attach `h`, log `rec`. */
    method ReplaceAndLog(h: Handler, rec: Record, asctime: string)
      requires IsStream(h)
      modifies logger
      ensures logger.level == old(logger.level)
      ensures logger.handlers == Replaced(old(logger.handlers), h)
      ensures logger.trace == old(logger.trace) + logger.Emitted(rec, asctime)
    {
      logger.handlers := WithoutStream(logger.handlers);
      logger.AddHandler(h);
      logger.Log(rec, asctime);
    }

    /** `logging_info`: INFO to the console, as `LEVEL - MESSAGE`. */
    method LogInfo(message: string, asctime: string)
      modifies this, logger
      ensures built != [] && built == old(built) + [Newest()]
      ensures fresh(Newest()) && Newest().target == Console && Newest().format == LevelMessage
      ensures logger.level == old(logger.level)
      ensures logger.handlers == Replaced(old(logger.handlers), Newest())
      ensures logger.trace == old(logger.trace) + logger.Emitted(Record(INFO, message, false, false), asctime)
    {
      var h := new Handler(Console, LevelMessage);
      built := built + [h];
      ReplaceAndLog(h, Record(INFO, message, false, false), asctime);
    }

    /** `logging_debug`: DEBUG to `debug.log`, as `LEVEL - MESSAGE - TIMESTAMP`. */
    method LogDebug(message: string, asctime: string, canOpen: bool) returns (outcome: Outcome)
      modifies this, logger
      ensures outcome == if canOpen then Logged else OpenFailed(JoinPath(pathLogs, "debug.log"))
      ensures logger.level == old(logger.level)
      ensures !canOpen ==>
        built == old(built) && logger.handlers == old(logger.handlers) && logger.trace == old(logger.trace)
      ensures canOpen ==>
        && built != [] && built == old(built) + [Newest()] && fresh(Newest())
        && Newest().target == LogFile(JoinPath(pathLogs, "debug.log")) && Newest().format == LevelMessageTime
        && logger.handlers == Replaced(old(logger.handlers), Newest())
        && logger.trace == old(logger.trace) + logger.Emitted(Record(DEBUG, message, false, false), asctime)
    {
      var h := GetFileHandler("debug.log", LevelMessageTime, canOpen);
      if h == null {
        return OpenFailed(JoinPath(pathLogs, "debug.log"));
      }
      built := built + [h];
      ReplaceAndLog(h, Record(DEBUG, message, false, false), asctime);
      outcome := Logged;
    }

    /** `logging_warning`: WARNING to `warning.log`, without exception
        information. */
    method LogWarning(message: string, asctime: string, canOpen: bool) returns (outcome: Outcome)
      modifies this, logger
      ensures outcome == if canOpen then Logged else OpenFailed(JoinPath(pathLogs, "warning.log"))
      ensures logger.level == old(logger.level)
      ensures !canOpen ==>
        built == old(built) && logger.handlers == old(logger.handlers) && logger.trace == old(logger.trace)
      ensures canOpen ==>
        && built != [] && built == old(built) + [Newest()] && fresh(Newest())
        && Newest().target == LogFile(JoinPath(pathLogs, "warning.log")) && Newest().format == LevelMessageTime
        && logger.handlers == Replaced(old(logger.handlers), Newest())
        && logger.trace == old(logger.trace) + logger.Emitted(Record(WARNING, message, false, false), asctime)
    {
      var h := GetFileHandler("warning.log", LevelMessageTime, canOpen);
      if h == null {
        return OpenFailed(JoinPath(pathLogs, "warning.log"));
      }
      built := built + [h];
      ReplaceAndLog(h, Record(WARNING, message, false, false), asctime);
      outcome := Logged;
    }

    /** `logging_error`: ERROR to `error.log`, with exception information
        and the call stack. */
    method LogError(message: string, asctime: string, canOpen: bool) returns (outcome: Outcome)
      modifies this, logger
      ensures outcome == if canOpen then Logged else OpenFailed(JoinPath(pathLogs, "error.log"))
      ensures logger.level == old(logger.level)
      ensures !canOpen ==>
        built == old(built) && logger.handlers == old(logger.handlers) && logger.trace == old(logger.trace)
      ensures canOpen ==>
        && built != [] && built == old(built) + [Newest()] && fresh(Newest())
        && Newest().target == LogFile(JoinPath(pathLogs, "error.log")) && Newest().format == LevelMessageTime
        && logger.handlers == Replaced(old(logger.handlers), Newest())
        && logger.trace == old(logger.trace) + logger.Emitted(Record(ERROR, message, true, true), asctime)
    {
      var h := GetFileHandler("error.log", LevelMessageTime, canOpen);
      if h == null {
        return OpenFailed(JoinPath(pathLogs, "error.log"));
      }
      built := built + [h];
      ReplaceAndLog(h, Record(ERROR, message, true, true), asctime);
      outcome := Logged;
    }

    /** `logging_critical`: CRITICAL to `critical.log`, with exception
        information and the call stack. */
    method LogCritical(message: string, asctime: string, canOpen: bool) returns (outcome: Outcome)
      modifies this, logger
      ensures outcome == if canOpen then Logged else OpenFailed(JoinPath(pathLogs, "critical.log"))
      ensures logger.level == old(logger.level)
      ensures !canOpen ==>
        built == old(built) && logger.handlers == old(logger.handlers) && logger.trace == old(logger.trace)
      ensures canOpen ==>
        && built != [] && built == old(built) + [Newest()] && fresh(Newest())
        && Newest().target == LogFile(JoinPath(pathLogs, "critical.log")) && Newest().format == LevelMessageTime
        && logger.handlers == Replaced(old(logger.handlers), Newest())
        && logger.trace == old(logger.trace) + logger.Emitted(Record(CRITICAL, message, true, true), asctime)
    {
      var h := GetFileHandler("critical.log", LevelMessageTime, canOpen);
      if h == null {
        return OpenFailed(JoinPath(pathLogs, "critical.log"));
      }
      built := built + [h];
      ReplaceAndLog(h, Record(CRITICAL, message, true, true), asctime);
      outcome := Logged;
    }
  }

  /** A client: from the empty list a constructor leaves, an info call
      followed by a debug call leaves only the debug call's file handler,
      which alone writes the debug record. */
  method InfoThenDebug(r: Router, page: string, found: string, t0: string, t1: string)
    requires r.logger.level == LevelNo(DEBUG) && r.logger.handlers == [] && r.logger.trace == []
    modifies r, r.logger
  {
    r.LogInfo(page, t0);
    ghost var infoHandler := r.Newest();
    ghost var info := Record(INFO, page, false, false);
    ghost var infoLine := Emission(infoHandler, Render(LevelMessage, info, t0), false, false);
    OnlyBuiltHandlerWrites([], infoHandler, info, t0);
    assert r.logger.handlers == [infoHandler];
    assert r.logger.trace == [infoLine];
    var o := r.LogDebug(found, t1, true);
    ghost var debugHandler := r.Newest();
    ghost var debug := Record(DEBUG, found, false, false);
    ghost var debugLine := Emission(debugHandler, Render(LevelMessageTime, debug, t1), false, false);
    OnlyBuiltHandlerWrites([infoHandler], debugHandler, debug, t1);
    assert r.logger.handlers == Replaced([infoHandler], debugHandler) == [debugHandler];
    assert Deliver([debugHandler], debug, t1) == [debugLine];
    assert r.logger.trace == [infoLine] + [debugLine];
    assert debugHandler.target == LogFile(JoinPath(r.pathLogs, "debug.log"));
  }

  /** A client: a second instance shares the first one's logger, empties its
      list again and writes nothing. */
  method SecondInstanceEmpties(registry: Registry, pathLogs: string, page: string, t0: string)
    requires registry.Valid()
    modifies registry, registry.loggers.Values
  {
    var first := new Router(registry, pathLogs);
    first.LogInfo(page, t0);
    ghost var written := first.logger.trace;
    var second := new Router(registry, pathLogs);
    assert second.logger == first.logger && second.logger.handlers == [] && second.logger.trace == written;
  }
}
