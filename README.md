# DevOps logger: handler-list management

This project models `LoggerForDevOps` from the devops-loggings repository in
Dafny. The class is a severity router over Python's `logging` package. Each
`logging_info/debug/warning/error/critical` call builds an output handler. It
then changes the handler list of a logger shared across the process, and logs
one record through that logger. The record goes to every handler left in the
list.

The repository holds two copies of the class, and they follow different rules:

- `library/logger.py` (module `LibraryLogger`) is the copy the rest of the
  repository imports. The constructor empties the shared list. Every call
  drops every console and file handler and then attaches its own handler, so
  the last call wins. Info goes to the console as `LEVEL - MESSAGE`. Debug,
  warning, error and critical go to `debug.log`, `warning.log`, `error.log`
  and `critical.log` in the log directory, as `LEVEL - MESSAGE - TIMESTAMP`.
- `src/logger.py` (module `SrcLogger`) never removes a handler.
  `not_has_handlers` attaches the console handler only while no stream
  handler is attached. It attaches a file handler only while no file handler
  is attached. A file handler is also a stream handler, so the console is
  attached only to a list with no console or file handler, which is the empty
  list while only this class attaches handlers. The first file handler
  attached stays for good. For example, after a debug call, a later error
  call writes its record to `debug_and_warning.log` with the debug call's
  formatter.

Module `Logging` models the parts of the standard library that both copies
rely on:

- `Handler` is a class, so `in` compares handler objects by identity, as
  Python does. Its `Target` is `Console`, a log file, or somewhere else.
  `Console` stands for every `StreamHandler` that is not a `FileHandler`; the
  ones built here write to standard error. The third kind stands for handlers
  of other classes attached by other code.
- `IsStream` holds of console and file handlers; `IsFile` holds of file
  handlers only. This encodes that `FileHandler` subclasses `StreamHandler`.
- `Logger` holds a level, a mutable `handlers` sequence and a ghost `trace`
  of the lines its handlers have written.
- `Registry` is `getLogger`'s table of loggers by name. Two routers made
  from the same registry therefore share one logger and one handler list.

Each router keeps a ghost `built` sequence of every handler its calls
constructed. A file handler opens its file when it is built, so `built` also
records the files the calls opened, including those of handlers that were
never attached.

Inputs from the outside world are parameters:

- `asctime`: the record's timestamp as the formatter prints it.
- `canOpen`: whether the `FileHandler` can open its file. When it cannot,
  the call returns `OpenFailed(path)` and changes nothing. In Python the
  `OSError` propagates to the caller.

Each router module ends with client methods that run the scenarios above through
the class methods:

- `LibraryLogger.InfoThenDebug`: info then debug, from the empty list a
  constructor leaves.
- `LibraryLogger.SecondInstanceEmpties`: a second instance empties the
  shared list the first one filled.
- `SrcLogger.DebugThenErrorAcrossInstances`: debug on one instance, then
  error on a second one.

On these points the model follows the code:

- Router instances share the name-keyed logger; they are not isolated from
  each other.
- In `library/logger.py`, warning carries no exception information
  (line 127), although its doc comment says it does.
- The library's file names are those in the code, not the names in its doc
  comments (lines 78, 105, 134, 163).
- A missing log directory surfaces as the error raised by opening the file,
  not as a separate configuration error.

## Model

| member | source | states |
|---|---|---|
| `Logging.WithoutStream` | library/logger.py:67-69 | the filter keeps exactly the handlers that are neither console nor file handlers: every kept handler was in the list and is not a stream handler, every such handler is kept, and no stream handler is left |
| `Logging.WithoutStreamAppend` | library/logger.py:67-69 | the filter commutes with concatenation, so the handlers it keeps stay in their old order |
| `Logging.WithoutStreamNoStream` | library/logger.py:67-69 | a list without console or file handlers passes the filter unchanged |
| `Logging.WithoutStreamOnlyStream` | library/logger.py:67-69 | a list of console and file handlers only is emptied by the filter |
| `Logging.IsFile` | src/logger.py:17 | `isinstance(h, FileHandler)` holds exactly of handlers that write to some file |
| `Logging.IsStream` | library/logger.py:68 | `isinstance(h, StreamHandler)` holds exactly of file handlers and console handlers, since `FileHandler` subclasses `StreamHandler` |
| `Logging.AnyStream` | src/logger.py:12-13 | the `any` over stream handlers is false of the empty list and true of every list that holds a file handler |
| `Logging.AnyFile` | src/logger.py:16-17 | the `any` over file handlers is false of the empty list, and true exactly when some attached stream handler writes somewhere other than the console |
| `Logging.AddedTo` | library/logger.py:70 | `addHandler` never drops or reorders a handler; it appends `h` exactly when that object is not already attached |
| `Logging.Logger.AddHandler` | src/logger.py:15 | the new list is `AddedTo` of the old one; level and trace are unchanged |
| `Logging.JoinPath` | library/logger.py:43-45 | `os.path.join`: an absolute name is the result; otherwise the result is the directory, with or without an added `/`, followed by the name, and the part before the name is empty or ends in `/`, so a relative name is the last path component |
| `Logging.JoinPathInjective` | library/logger.py:43-45 | two different relative file names give two different paths in the same directory |
| `Logging.Render` | src/logger.py:30-39 | both formatters start the line with the level name, ` - ` and the message; the untimed one writes exactly that, and the timed one ends the line with the timestamp |
| `Logging.RenderRoundTrip` | library/logger.py:64 | both layouts `LEVEL - MESSAGE` and `LEVEL - MESSAGE - TIMESTAMP` keep level and message: `Parse` reads both back from the rendered line |
| `Logging.DeliverSnoc` | src/logger.py:15 | a handler appended to the list writes its line after the lines of every handler attached before it |
| `Logging.Deliver` | src/logger.py:34 | the record goes to every attached handler in list order, one line each, rendered in that handler's own format, with the record's exception and stack flags |
| `Logging.Logger.Log` | library/logger.py:71 | the trace grows by `Deliver` over the current handlers when the logger's effective level lets the record through, and by nothing otherwise; level and handlers are unchanged |
| `Logging.Logger.SetLevel` | library/logger.py:22 | after `setLevel(l)` exactly the levels at or above `l` are enabled |
| `Logging.Registry.GetLogger` | src/logger.py:7 | `getLogger(name)` returns the logger already registered under the name, or registers a fresh one with no level and no handlers |
| `LibraryLogger.Router.constructor` | library/logger.py:21-24 | the shared logger is the one registered under the module name, and an existing one keeps the lines it has written; it is left at DEBUG, so all five levels are enabled, and its handler list is empty; no other logger changes |
| `LibraryLogger.Router.GetFileHandler` | library/logger.py:26-47 | a fresh file handler for the directory joined with `filename`, with the given formatter; none when the file cannot be opened |
| `LibraryLogger.Router.ReplaceAndLog` | library/logger.py:67-71 | the list becomes the old list without stream handlers followed by `h`, and the record is logged through the new list |
| `LibraryLogger.Router.LogInfo` | library/logger.py:63-71 | builds a fresh console handler with `LEVEL - MESSAGE`; the list becomes the filtered old list followed by it; the INFO record, without context, is delivered over the new list |
| `LibraryLogger.Router.LogDebug` | library/logger.py:87-98 | builds a fresh handler for `debug.log` with the timed layout, replaces the stream handlers with it and logs DEBUG without context; if the file cannot be opened, reports its path and changes nothing |
| `LibraryLogger.Router.LogWarning` | library/logger.py:116-127 | as debug, for `warning.log`, at WARNING, without exception information |
| `LibraryLogger.Router.LogError` | library/logger.py:145-156 | as debug, for `error.log`, at ERROR, with exception information and the call stack |
| `LibraryLogger.Router.LogCritical` | library/logger.py:174-185 | as debug, for `critical.log`, at CRITICAL, with exception information and the call stack |
| `LibraryLogger.Replaced` | library/logger.py:67-70 | the list a call leaves holds the call's handler and is at most one handler longer than the old list |
| `LibraryLogger.ReplacedSingleStream` | library/logger.py:67-70 | after any call, the call's handler is the last one, every other handler was attached before, and no other console or file handler is attached, so at most one stream handler is attached |
| `LibraryLogger.ReplacedLastWins` | library/logger.py:94-97 | a second call undoes the first call's attachment: two calls leave the list the second call alone would have left |
| `LibraryLogger.ReplacedKeepsOthers` | library/logger.py:123-126 | handlers that are neither console nor file handlers are never removed and keep their order, with the call's handler after them |
| `LibraryLogger.ReplacedIgnoresStreams` | library/logger.py:152-155 | stream handlers anywhere in the old list make no difference to the list a call leaves |
| `LibraryLogger.OnlyBuiltHandlerWrites` | library/logger.py:181-185 | when every attached handler is a console or file handler, as after construction, the list becomes just the call's handler, and the record is written once, by that handler, in its format |
| `LibraryLogger.FileTargetsDistinct` | library/logger.py:91-178 | the four file names of the debug, warning, error and critical calls (lines 91, 120, 149 and 178) give four pairwise different paths in the log directory |
| `SrcLogger.Attached` | src/logger.py:11-19 | `not_has_handlers` is append-only: the old list is a prefix of the new one, which is at most two handlers longer |
| `SrcLogger.Router.NotHasHandlers` | src/logger.py:11-19 | attaches `console` when no stream handler is attached, then `file` when no file handler is attached (the second check sees the first one's result); nothing else changes |
| `SrcLogger.AttachedKeepsOneFile` | src/logger.py:16-19 | whatever is passed, at most one file handler is ever attached |
| `SrcLogger.AttachedKeepsOneConsole` | src/logger.py:12-15 | with a file handler or nothing as the file argument, at most one console handler is ever attached |
| `SrcLogger.ConsoleOnlyWhenEmpty` | src/logger.py:12-15 | when only console and file handlers are attached, an info call attaches its console handler exactly when the list is empty |
| `SrcLogger.FileAttachedFixesList` | src/logger.py:12-19 | once a file handler is attached no call attaches anything, not even the console handler |
| `SrcLogger.FirstFileWins` | src/logger.py:40-45 | the first file handler attached stays: a later call for another file leaves the list unchanged, and that call's record is written by the first file handler in its format |
| `SrcLogger.AttachedShaped` | src/logger.py:11-19 | starting from an empty list, the list is always `[]`, one stream handler, or a console handler followed by a file handler, so it holds at most two handlers |
| `SrcLogger.InfoThenDebugBroadcasts` | src/logger.py:33-45 | after info then debug from an empty list, both handlers are attached, and every later record is written by the console and by the file, in that order |
| `SrcLogger.FileTargetsDistinct` | src/logger.py:41-63 | the file of the debug and warning calls (`debug_and_warning.log`, lines 41 and 52) and the file of the error and critical calls (`error_and_critical.log`, lines 63 and 74) are different paths |
| `SrcLogger.Router.constructor` | src/logger.py:6-9 | the shared logger is the one registered under the module name, left at DEBUG; its handlers and written lines are not touched, so a second instance inherits the handlers already attached; no other logger changes |
| `SrcLogger.Router.GetFileHandler` | src/logger.py:21-26 | a fresh file handler for the directory joined with `filename`, with the given formatter; none when the file cannot be opened |
| `SrcLogger.Router.LogInfo` | src/logger.py:28-34 | builds a fresh console handler with `LEVEL - MESSAGE`, offers it as `console`, and delivers the INFO record, without context, to every attached handler |
| `SrcLogger.Router.LogDebug` | src/logger.py:36-45 | builds a fresh handler for `debug_and_warning.log`, even when it will not be attached, offers it as `file`, and delivers DEBUG without context; if the file cannot be opened, reports its path and changes nothing |
| `SrcLogger.Router.LogWarning` | src/logger.py:47-56 | as debug, at WARNING, with exception information |
| `SrcLogger.Router.LogError` | src/logger.py:58-67 | as debug, for `error_and_critical.log`, at ERROR, with the call stack and with exception information as passed (default true) |
| `SrcLogger.Router.LogCritical` | src/logger.py:69-78 | as error, at CRITICAL, always with exception information and the call stack |

## Left out

- Real I/O is not modelled: creating and appending to files in UTF-8, and writing to standard error. Each write is a line in the logger's ghost `trace`; each opened file is a file handler in the router's `built` sequence.
- A failed write is not modelled. `StreamHandler.emit` catches the exception and calls `handleError`, which only reports it on standard error, and the call goes on; the model's `trace` records every line as written.
- Timestamp generation is not modelled. `asctime` is a parameter of each call.
- The exception and stack trailers that formatters append are not rendered. They are the record's `excInfo` and `stackInfo` flags.
- Logging.Logger.Log: propagation to parent loggers is not modelled. The record does reach the root logger, but no code in this repository attaches a handler to it, so nothing more is written.
- Logging.Logger.Log: handler levels and filters are not modelled. Every handler here is at `NOTSET` and has no filter, so these steps never turn a record away.
- Logging.Logger.Log: the `lastResort` handler is not modelled. It writes only when no handler is found. Every call here logs with at least one handler attached: a library call attaches its own, and a src call attaches its own handler to an empty list and never removes one.
- Logging.Logger.Log: `Logger.disabled` and `logging.disable` are not modelled; no code in this repository uses them.
- Logging.Registry.GetLogger: the logger hierarchy and placeholders are not modelled. A logger without a level defers to a root logger fixed at its default WARNING.
- Logging.JoinPath: only POSIX path rules are modelled, not Windows drive letters or separators.
- Logging.Target: `FileHandler` opens, and names in its `OSError`, `os.path.abspath` of the joined path. `LogFile` and `OpenFailed` carry the joined path as written, so two spellings of one directory (`logs` and `./logs`) are one file in Python but two targets in the model.
- Handlers that `library/logger.py` drops are never closed, which leaks file handles. Closing is resource cleanup and is not modelled.
- Locks and threads are not modelled; the code uses none.
- A handler's formatter is fixed when the model builds the handler. The source calls `setFormatter` right after building each handler, and nothing changes it later.
- `src/add_remove_elements.py`, `src/webdriver.py` and `selenium_testing.py` are not part of this model. They drive a browser and only call the logger.
- `logger_test.py` is not part of this model. It is an HTTP script, and its calls that pass `exc_info` to the library's `logging_error` and `logging_critical` would raise `TypeError` there.
