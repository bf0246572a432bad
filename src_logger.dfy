/** `src/logger.py`, the older copy of `LoggerForDevOps`. Its calls never
    remove a handler: `not_has_handlers` attaches the console handler only
    while no stream handler is attached and a file handler only while no file
    handler is attached. Because a file handler is also a stream handler, the
    console is attached only to a list with no console or file handler (the
    empty list while only this class attaches handlers), the first file
    handler attached stays for good, and every record goes to every attached
    handler. */
module SrcLogger {
  import opened Logging

  /** `__name__` of the module, the key under which `getLogger` finds the
      shared logger. */
  const LoggerName: string := "src.logger"

  /** The list `not_has_handlers(console, file)` leaves; `null` stands for an
      argument left at `None`. The second check looks at the list as the
      first one left it. Handlers are only ever appended. */
  function Attached(hs: seq<Handler>, console: Handler?, file: Handler?): (r: seq<Handler>)
    ensures |hs| <= |r| <= |hs| + 2 && r[..|hs|] == hs
  {
    var afterConsole := if console != null && !AnyStream(hs) then AddedTo(hs, console) else hs;
    if file != null && !AnyFile(afterConsole) then AddedTo(afterConsole, file) else afterConsole
  }

  /** No two file handlers are attached. */
  ghost predicate AtMostOneFile(hs: seq<Handler>)
  {
    forall i, j :: 0 <= i < j < |hs| ==> !(IsFile(hs[i]) && IsFile(hs[j]))
  }

  /** No two console handlers are attached. */
  ghost predicate AtMostOneConsole(hs: seq<Handler>)
  {
    forall i, j :: 0 <= i < j < |hs| ==> !(hs[i].target.Console? && hs[j].target.Console?)
  }

  lemma AnyFileAppend(hs: seq<Handler>, h: Handler)
    ensures AnyFile(hs + [h]) <==> AnyFile(hs) || IsFile(h)
  {
    if IsFile(h) {
      assert (hs + [h])[|hs|] == h;
    }
    if AnyFile(hs) {
      var i :| 0 <= i < |hs| && IsFile(hs[i]);
      assert (hs + [h])[i] == hs[i];
    }
    if AnyFile(hs + [h]) {
      var i :| 0 <= i < |hs + [h]| && IsFile((hs + [h])[i]);
      if i < |hs| {
        assert hs[i] == (hs + [h])[i];
      }
    }
  }

  lemma AtMostOneFileAppend(hs: seq<Handler>, h: Handler)
    requires AtMostOneFile(hs)
    requires !AnyFile(hs) || !IsFile(h)
    ensures AtMostOneFile(hs + [h])
  {
    var r := hs + [h];
    forall i, j | 0 <= i < j < |r| ensures !(IsFile(r[i]) && IsFile(r[j])) {
      assert r[i] == hs[i];
      if j < |hs| {
        assert r[j] == hs[j];
      } else if IsFile(h) {
        assert !IsFile(hs[i]);
      }
    }
  }

  lemma AtMostOneConsoleAppend(hs: seq<Handler>, h: Handler)
    requires AtMostOneConsole(hs)
    requires !AnyStream(hs) || !h.target.Console?
    ensures AtMostOneConsole(hs + [h])
  {
    var r := hs + [h];
    forall i, j | 0 <= i < j < |r| ensures !(r[i].target.Console? && r[j].target.Console?) {
      assert r[i] == hs[i];
      if j < |hs| {
        assert r[j] == hs[j];
      } else if h.target.Console? {
        assert !IsStream(hs[i]);
      }
    }
  }

  /** At most one file handler is attached, whatever is passed: the console
      argument is attached only when no stream handler, hence no file
      handler, is present, and the file argument only when no file handler
      is. */
  lemma AttachedKeepsOneFile(hs: seq<Handler>, console: Handler?, file: Handler?)
    requires AtMostOneFile(hs)
    ensures AtMostOneFile(Attached(hs, console, file))
  {
    var mid := if console != null && !AnyStream(hs) then AddedTo(hs, console) else hs;
    if console != null && !AnyStream(hs) && console !in hs {
      assert !AnyFile(hs);
      AtMostOneFileAppend(hs, console);
    }
    if file != null && !AnyFile(mid) && file !in mid {
      AtMostOneFileAppend(mid, file);
    }
  }

  /** With the file argument a file handler, as every caller passes it, at
      most one console handler is attached. */
  lemma AttachedKeepsOneConsole(hs: seq<Handler>, console: Handler?, file: Handler?)
    requires AtMostOneConsole(hs)
    requires file == null || IsFile(file)
    ensures AtMostOneConsole(Attached(hs, console, file))
  {
    var mid := if console != null && !AnyStream(hs) then AddedTo(hs, console) else hs;
    if console != null && !AnyStream(hs) && console !in hs {
      AtMostOneConsoleAppend(hs, console);
    }
    if file != null && !AnyFile(mid) && file !in mid {
      AtMostOneConsoleAppend(mid, file);
    }
  }

  /** Once a file handler is attached nothing is ever attached again: not a
      later call's file handler, and not the console handler either, since the
      file handler already counts as a stream handler. */
  lemma FileAttachedFixesList(hs: seq<Handler>, console: Handler?, file: Handler?)
    requires AnyFile(hs)
    ensures Attached(hs, console, file) == hs
  {
    var i :| 0 <= i < |hs| && IsFile(hs[i]);
    assert IsStream(hs[i]);
  }

  /** When only console and file handlers are attached, the console handler of
      an `info` call is attached exactly when the list is empty. */
  lemma ConsoleOnlyWhenEmpty(hs: seq<Handler>, console: Handler)
    requires forall i :: 0 <= i < |hs| ==> IsStream(hs[i])
    ensures Attached(hs, console, null) == hs + [console] <==> hs == []
  {
    if hs != [] {
      assert IsStream(hs[0]);
      assert |Attached(hs, console, null)| == |hs|;
    }
  }

  /** First file wins: after one file handler has been attached, a later call
      for another file leaves the list as it was, so its record goes to the
      first call's file with the first call's formatter. */
  lemma FirstFileWins(hs: seq<Handler>, first: Handler, later: Handler, rec: Record, asctime: string)
    requires !AnyFile(hs) && first !in hs && IsFile(first)
    ensures Attached(hs, null, first) == hs + [first]
    ensures Attached(Attached(hs, null, first), null, later) == hs + [first]
    ensures Deliver(hs + [first], rec, asctime)
         == Deliver(hs, rec, asctime) + [Emission(first, Render(first.format, rec, asctime), rec.excInfo, rec.stackInfo)]
  {
    AnyFileAppend(hs, first);
    FileAttachedFixesList(hs + [first], null, later);
    DeliverSnoc(hs, first, rec, asctime);
  }

  /** The lists the calls of this class can build from an empty list:
      `[]`, one stream handler, or a console handler followed by a file
      handler. */
  ghost predicate Shaped(hs: seq<Handler>)
  {
    || hs == []
    || (|hs| == 1 && IsStream(hs[0]))
    || (|hs| == 2 && hs[0].target.Console? && IsFile(hs[1]))
  }

  /** Every call keeps the list in that shape, so it never holds more than two
      handlers, and a list of two is always console then file. */
  lemma AttachedShaped(hs: seq<Handler>, console: Handler?, file: Handler?)
    requires Shaped(hs)
    requires console == null || console.target.Console?
    requires file == null || IsFile(file)
    ensures Shaped(Attached(hs, console, file))
    ensures |Attached(hs, console, file)| <= 2
  {
    if hs == [] {
      var mid := if console != null then [console] else [];
      assert Attached(hs, console, file) == if file != null && !AnyFile(mid) then mid + [file] else mid;
      if console != null {
        assert !AnyFile(mid);
      }
    } else if |hs| == 1 {
      assert AnyStream(hs);
      if IsFile(hs[0]) {
        FileAttachedFixesList(hs, console, file);
      } else if file != null {
        assert !AnyFile(hs);
        assert Attached(hs, console, file) == hs + [file];
      }
    } else {
      FileAttachedFixesList(hs, console, file);
    }
  }

  /** Every record reaches every attached handler in list order: after `info`
      then `debug` from an empty list, both handlers are attached, and each
      later record is written to the console and to the file. */
  lemma InfoThenDebugBroadcasts(console: Handler, file: Handler, rec: Record, asctime: string)
    requires console.target.Console? && IsFile(file)
    ensures Attached(Attached([], console, null), null, file) == [console, file]
    ensures Deliver([console, file], rec, asctime)
         == [Emission(console, Render(console.format, rec, asctime), rec.excInfo, rec.stackInfo),
             Emission(file, Render(file.format, rec, asctime), rec.excInfo, rec.stackInfo)]
  {
    assert IsStream(console);
    assert Attached([], console, null) == [console];
    assert !AnyFile([console]);
    assert file != console;
  }

  /** The two files are different files of the log directory. */
  lemma FileTargetsDistinct(pathLogs: string)
    ensures JoinPath(pathLogs, "debug_and_warning.log") != JoinPath(pathLogs, "error_and_critical.log")
  {
    JoinPathInjective(pathLogs, "debug_and_warning.log", "error_and_critical.log");
  }

  /** `LoggerForDevOps` of src/logger.py. `built` records every handler a
      call of this object constructed, in order, attached or not (a file
      handler opens its file when it is built). */
  class Router {
    const logger: Logger
    const pathLogs: string
    ghost var built: seq<Handler>

    /** The shared logger is looked up by the module's name and set to DEBUG;
        its handlers are left alone, so an instance made after another one
        inherits the handlers that one attached. */
    constructor (registry: Registry, pathLogs: string)
      requires registry.Valid()
      modifies registry, if LoggerName in registry.loggers then {registry.loggers[LoggerName]} else {}
      ensures registry.Valid()
      ensures LoggerName in registry.loggers && registry.loggers[LoggerName] == logger
      ensures registry.loggers == old(registry.loggers)[LoggerName := logger]
      ensures LoggerName in old(registry.loggers) ==>
        logger == old(registry.loggers[LoggerName])
        && logger.handlers == old(registry.loggers[LoggerName].handlers)
        && logger.trace == old(registry.loggers[LoggerName].trace)
      ensures LoggerName !in old(registry.loggers) ==> fresh(logger) && logger.handlers == [] && logger.trace == []
      ensures logger.name == LoggerName && this.pathLogs == pathLogs && built == []
      ensures logger.level == LevelNo(DEBUG)
      ensures forall l :: logger.IsEnabledFor(l)
    {
      var l := registry.GetLogger(LoggerName);
      l.SetLevel(DEBUG);
      logger := l;
      this.pathLogs := pathLogs;
      built := [];
    }

    /** The handler the latest call built. */
    ghost function Newest(): (h: Handler)
      reads this
      requires built != []
    {
      built[|built| - 1]
    }

    /** `not_has_handlers`: attach `console` if no stream handler is
        attached, then `file` if no file handler is attached. */
    method NotHasHandlers(console: Handler?, file: Handler?)
      modifies logger
      ensures logger.level == old(logger.level) && logger.trace == old(logger.trace)
      ensures logger.handlers == Attached(old(logger.handlers), console, file)
    {
      if console != null && !AnyStream(logger.handlers) {
        logger.AddHandler(console);
      }
      if file != null && !AnyFile(logger.handlers) {
        logger.AddHandler(file);
      }
    }

    /** `get_file_handler`: a file handler for `filename` in the log
        directory, appending, with the given formatter; `null` when the file
        cannot be opened. */
    method GetFileHandler(filename: string, format: Format, canOpen: bool) returns (h: Handler?)
      ensures h != null <==> canOpen
      ensures h != null ==> fresh(h) && h.target == LogFile(JoinPath(pathLogs, filename)) && h.format == format
    {
      if canOpen {
        h := new Handler(LogFile(JoinPath(pathLogs, filename)), format);
      } else {
        h := null;
      }
    }

    /** `logging_info`: a console handler is built and offered; INFO goes to
        every attached handler. */
    method LogInfo(message: string, asctime: string)
      modifies this, logger
      ensures built != [] && built == old(built) + [Newest()]
      ensures fresh(Newest()) && Newest().target == Console && Newest().format == LevelMessage
      ensures logger.level == old(logger.level)
      ensures logger.handlers == Attached(old(logger.handlers), Newest(), null)
      ensures logger.trace == old(logger.trace) + logger.Emitted(Record(INFO, message, false, false), asctime)
    {
      var h := new Handler(Console, LevelMessage);
      built := built + [h];
      NotHasHandlers(h, null);
      logger.Log(Record(INFO, message, false, false), asctime);
    }

    /** `logging_debug`: a handler for `debug_and_warning.log` is built and
        offered; DEBUG goes to every attached handler. */
    method LogDebug(message: string, asctime: string, canOpen: bool) returns (outcome: Outcome)
      modifies this, logger
      ensures outcome == if canOpen then Logged else OpenFailed(JoinPath(pathLogs, "debug_and_warning.log"))
      ensures logger.level == old(logger.level)
      ensures !canOpen ==>
        built == old(built) && logger.handlers == old(logger.handlers) && logger.trace == old(logger.trace)
      ensures canOpen ==>
        && built != [] && built == old(built) + [Newest()] && fresh(Newest())
        && Newest().target == LogFile(JoinPath(pathLogs, "debug_and_warning.log"))
        && Newest().format == LevelMessageTime
        && logger.handlers == Attached(old(logger.handlers), null, Newest())
        && logger.trace == old(logger.trace) + logger.Emitted(Record(DEBUG, message, false, false), asctime)
    {
      var h := GetFileHandler("debug_and_warning.log", LevelMessageTime, canOpen);
      if h == null {
        return OpenFailed(JoinPath(pathLogs, "debug_and_warning.log"));
      }
      built := built + [h];
      NotHasHandlers(null, h);
      logger.Log(Record(DEBUG, message, false, false), asctime);
      outcome := Logged;
    }

    /** `logging_warning`: like `logging_debug`, at WARNING and with
        exception information. */
    method LogWarning(message: string, asctime: string, canOpen: bool) returns (outcome: Outcome)
      modifies this, logger
      ensures outcome == if canOpen then Logged else OpenFailed(JoinPath(pathLogs, "debug_and_warning.log"))
      ensures logger.level == old(logger.level)
      ensures !canOpen ==>
        built == old(built) && logger.handlers == old(logger.handlers) && logger.trace == old(logger.trace)
      ensures canOpen ==>
        && built != [] && built == old(built) + [Newest()] && fresh(Newest())
        && Newest().target == LogFile(JoinPath(pathLogs, "debug_and_warning.log"))
        && Newest().format == LevelMessageTime
        && logger.handlers == Attached(old(logger.handlers), null, Newest())
        && logger.trace == old(logger.trace) + logger.Emitted(Record(WARNING, message, true, false), asctime)
    {
      var h := GetFileHandler("debug_and_warning.log", LevelMessageTime, canOpen);
      if h == null {
        return OpenFailed(JoinPath(pathLogs, "debug_and_warning.log"));
      }
      built := built + [h];
      NotHasHandlers(null, h);
      logger.Log(Record(WARNING, message, true, false), asctime);
      outcome := Logged;
    }

    /** `logging_error`: a handler for `error_and_critical.log` is built and
        offered; ERROR goes to every attached handler with the call stack and,
        unless the caller says otherwise, exception information. */
    method LogError(message: string, asctime: string, canOpen: bool, excInfo: bool := true) returns (outcome: Outcome)
      modifies this, logger
      ensures outcome == if canOpen then Logged else OpenFailed(JoinPath(pathLogs, "error_and_critical.log"))
      ensures logger.level == old(logger.level)
      ensures !canOpen ==>
        built == old(built) && logger.handlers == old(logger.handlers) && logger.trace == old(logger.trace)
      ensures canOpen ==>
        && built != [] && built == old(built) + [Newest()] && fresh(Newest())
        && Newest().target == LogFile(JoinPath(pathLogs, "error_and_critical.log"))
        && Newest().format == LevelMessageTime
        && logger.handlers == Attached(old(logger.handlers), null, Newest())
        && logger.trace == old(logger.trace) + logger.Emitted(Record(ERROR, message, excInfo, true), asctime)
    {
      var h := GetFileHandler("error_and_critical.log", LevelMessageTime, canOpen);
      if h == null {
        return OpenFailed(JoinPath(pathLogs, "error_and_critical.log"));
      }
      built := built + [h];
      NotHasHandlers(null, h);
      logger.Log(Record(ERROR, message, excInfo, true), asctime);
      outcome := Logged;
    }

    /** `logging_critical`: like `logging_error`, at CRITICAL and always with
        exception information. */
    method LogCritical(message: string, asctime: string, canOpen: bool) returns (outcome: Outcome)
      modifies this, logger
      ensures outcome == if canOpen then Logged else OpenFailed(JoinPath(pathLogs, "error_and_critical.log"))
      ensures logger.level == old(logger.level)
      ensures !canOpen ==>
        built == old(built) && logger.handlers == old(logger.handlers) && logger.trace == old(logger.trace)
      ensures canOpen ==>
        && built != [] && built == old(built) + [Newest()] && fresh(Newest())
        && Newest().target == LogFile(JoinPath(pathLogs, "error_and_critical.log"))
        && Newest().format == LevelMessageTime
        && logger.handlers == Attached(old(logger.handlers), null, Newest())
        && logger.trace == old(logger.trace) + logger.Emitted(Record(CRITICAL, message, true, true), asctime)
    {
      var h := GetFileHandler("error_and_critical.log", LevelMessageTime, canOpen);
      if h == null {
        return OpenFailed(JoinPath(pathLogs, "error_and_critical.log"));
      }
      built := built + [h];
      NotHasHandlers(null, h);
      logger.Log(Record(CRITICAL, message, true, true), asctime);
      outcome := Logged;
    }
  }

  /** A client: a second instance made in the same process inherits the
      first one's file handler, so its error record lands in
      `debug_and_warning.log`, written with the debug call's formatter. */
  method DebugThenErrorAcrossInstances(registry: Registry, pathLogs: string, found: string, denied: string, t0: string, t1: string)
    requires registry.Valid() && LoggerName !in registry.loggers
    modifies registry, registry.loggers.Values
  {
    var first := new Router(registry, pathLogs);
    var o1 := first.LogDebug(found, t0, true);
    ghost var debugHandler := first.Newest();
    assert AddedTo([], debugHandler) == [debugHandler];
    assert first.logger.handlers == [debugHandler];
    var second := new Router(registry, pathLogs);
    assert second.logger == first.logger && second.logger.handlers == [debugHandler];
    ghost var before := second.logger.trace;
    ghost var error := Record(ERROR, denied, true, true);
    var o2 := second.LogError(denied, t1, true);
    FirstFileWins([], debugHandler, second.Newest(), error, t1);
    assert second.logger.handlers == Attached([debugHandler], null, second.Newest()) == [debugHandler];
    ghost var line := Emission(debugHandler, Render(LevelMessageTime, error, t1), true, true);
    assert Deliver([debugHandler], error, t1) == [line];
    assert second.logger.IsEnabledFor(ERROR);
    assert second.logger.trace == before + Deliver([debugHandler], error, t1) == before + [line];
    assert debugHandler.target == LogFile(JoinPath(pathLogs, "debug_and_warning.log"));
  }
}
