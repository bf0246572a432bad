/** The part of Python's standard `logging` package that the two
    `LoggerForDevOps` classes rely on: severity levels, handlers with their
    formatters, a logger holding a mutable list of handlers, and the
    process-wide name-keyed registry behind `logging.getLogger`.

    Two facts of the standard library drive everything else and are encoded
    here as definitions:
    - `FileHandler` is a subclass of `StreamHandler`, so `IsStream` holds of
      console and file handlers alike, while `IsFile` holds of file handlers only;
    - `getLogger(name)` hands out one object per name for the whole process. */
module Logging {

  datatype Option<T> = None | Some(value: T)

  /** The five severities used by the loggers, in ascending order. */
  datatype Level = DEBUG | INFO | WARNING | ERROR | CRITICAL

  /** `logging.NOTSET`: the level of a logger that has not been given one. */
  const NOTSET: int := 0

  /** The numeric value of each level in the standard library. */
  function LevelNo(l: Level): (n: int)
    ensures 10 <= n <= 50
  {
    match l
    case DEBUG => 10
    case INFO => 20
    case WARNING => 30
    case ERROR => 40
    case CRITICAL => 50
  }

  /** The `{levelname}` field of a record. */
  function LevelName(l: Level): (name: string)
  {
    match l
    case DEBUG => "DEBUG"
    case INFO => "INFO"
    case WARNING => "WARNING"
    case ERROR => "ERROR"
    case CRITICAL => "CRITICAL"
  }

  /** The two formatter layouts the loggers build:
      `"{levelname} - {message}"` and `"{levelname} - {message} - {asctime}"`. */
  datatype Format = LevelMessage | LevelMessageTime

  /** Where a handler writes: a console stream (any `StreamHandler` that is
      not a `FileHandler`; the ones these classes build write to standard
      error), a file opened in append mode (a `FileHandler`), or somewhere
      else (a handler of another class that some other code attached). */
  datatype Target = Console | LogFile(path: string) | Elsewhere

  /** A handler object. Handlers are compared by identity, as Python's
      `in` does for handler objects, so they are a class; what a handler is
      and how it formats never changes once it has been built. */
  class Handler {
    const target: Target
    const format: Format

    constructor (target: Target, format: Format)
      ensures this.target == target && this.format == format
    {
      this.target := target;
      this.format := format;
    }
  }

  /** `isinstance(h, logging.FileHandler)`: only a handler writing to a file. */
  predicate IsFile(h: Handler): (b: bool)
    ensures b <==> exists path :: h.target == LogFile(path)
  {
    h.target.LogFile?
  }

  /** `isinstance(h, logging.StreamHandler)`: since `FileHandler` subclasses
      `StreamHandler`, the stream handlers are the file handlers together with
      the console handlers. */
  predicate IsStream(h: Handler): (b: bool)
    ensures b <==> IsFile(h) || h.target == Console
  {
    h.target.Console? || h.target.LogFile?
  }

  /** `any(isinstance(h, StreamHandler) for h in hs)`: a list holding a file
      handler always has a stream handler. */
  predicate AnyStream(hs: seq<Handler>): (b: bool)
    ensures b ==> hs != []
    ensures (exists i :: 0 <= i < |hs| && IsFile(hs[i])) ==> b
  {
    exists i :: 0 <= i < |hs| && IsStream(hs[i])
  }

  /** `any(isinstance(h, FileHandler) for h in hs)`: a list holding a file
      handler is one holding a stream handler that writes to a file. */
  predicate AnyFile(hs: seq<Handler>): (b: bool)
    ensures b ==> hs != []
    ensures b <==> exists i :: 0 <= i < |hs| && IsStream(hs[i]) && hs[i].target != Console
  {
    exists i :: 0 <= i < |hs| && IsFile(hs[i])
  }

  /** The list comprehension `[h for h in hs if not isinstance(h, StreamHandler)]`:
      exactly the handlers that are neither console nor file handlers, in
      their original order (see WithoutStreamAppend and WithoutStreamNoStream). */
  function WithoutStream(hs: seq<Handler>): (r: seq<Handler>)
    ensures |r| <= |hs|
    ensures forall i :: 0 <= i < |r| ==> r[i] in hs && !IsStream(r[i])
    ensures forall i :: 0 <= i < |hs| && !IsStream(hs[i]) ==> hs[i] in r
    ensures !AnyStream(r)
  {
    if hs == [] then []
    else if IsStream(hs[0]) then WithoutStream(hs[1..])
    else [hs[0]] + WithoutStream(hs[1..])
  }

  /** The filter works element by element, so it respects concatenation:
      the handlers it keeps stay in the order they had. */
  lemma {:induction false} WithoutStreamAppend(a: seq<Handler>, b: seq<Handler>)
    ensures WithoutStream(a + b) == WithoutStream(a) + WithoutStream(b)
  {
    if a != [] {
      assert (a + b)[0] == a[0] && (a + b)[1..] == a[1..] + b;
      WithoutStreamAppend(a[1..], b);
      if !IsStream(a[0]) {
        assert WithoutStream(a + b) == [a[0]] + (WithoutStream(a[1..]) + WithoutStream(b));
      }
    } else {
      assert a + b == b;
    }
  }

  /** A list without console or file handlers passes the filter unchanged. */
  lemma {:induction false} WithoutStreamNoStream(hs: seq<Handler>)
    requires !AnyStream(hs)
    ensures WithoutStream(hs) == hs
  {
    if hs != [] {
      assert !IsStream(hs[0]);
      assert !AnyStream(hs[1..]) by {
        forall i | 0 <= i < |hs[1..]| ensures !IsStream(hs[1..][i]) {
          assert hs[1..][i] == hs[i + 1];
        }
      }
      WithoutStreamNoStream(hs[1..]);
    }
  }

  /** A list of console and file handlers only loses all of them to the filter. */
  lemma {:induction false} WithoutStreamOnlyStream(hs: seq<Handler>)
    requires forall i :: 0 <= i < |hs| ==> IsStream(hs[i])
    ensures WithoutStream(hs) == []
  {
    if hs != [] {
      assert IsStream(hs[0]);
      WithoutStreamOnlyStream(hs[1..]);
    }
  }

  /** `os.path.join(directory, name)` on a POSIX system: an absolute `name`
      replaces the directory, otherwise a `/` separates the two unless the
      directory is empty or already ends with one. Either way a relative
      `name` is the last component of the path. */
  function JoinPath(directory: string, name: string): (p: string)
    ensures name != [] && name[0] == '/' ==> p == name
    ensures name == [] || name[0] != '/' ==>
      exists prefix :: p == prefix + name
        && (prefix == directory || (directory != [] && directory[|directory| - 1] != '/' && prefix == directory + "/"))
        && (prefix == [] || prefix[|prefix| - 1] == '/')
  {
    if name != [] && name[0] == '/' then name
    else if directory == [] || directory[|directory| - 1] == '/' then directory + name
    else directory + "/" + name
  }

  /** Files of different relative names in the same directory have different
      paths, so the calls that use different file names never share a file. */
  lemma JoinPathInjective(directory: string, a: string, b: string)
    requires a != b
    requires a != [] && a[0] != '/' && b != [] && b[0] != '/'
    ensures JoinPath(directory, a) != JoinPath(directory, b)
  {
    var pa, pb := JoinPath(directory, a), JoinPath(directory, b);
    var sep := if directory == [] || directory[|directory| - 1] == '/' then directory else directory + "/";
    assert pa == sep + a && pb == sep + b;
    assert pa[|sep|..] == a && pb[|sep|..] == b;
  }

  /** The list `addHandler` leaves: `h` appended unless that object is
      already attached. It never drops or reorders a handler. */
  function AddedTo(hs: seq<Handler>, h: Handler): (r: seq<Handler>)
    ensures h in r && |hs| <= |r| && r[..|hs|] == hs
    ensures h in hs <==> r == hs
    ensures h !in hs <==> r == hs + [h]
  {
    if h in hs then hs else hs + [h]
  }

  /** How a logging call ends: the record was logged, or a `FileHandler`
      could not open its file and the `OSError` reached the caller. */
  datatype Outcome = Logged | OpenFailed(path: string)

  /** A log record: the severity, the message and whether exception
      information (`exc_info`) and the call stack (`stack_info`) are attached. */
  datatype Record = Record(level: Level, msg: string, excInfo: bool, stackInfo: bool)

  /** The first line a formatter produces for a record; `asctime` is the
      record's creation time as the formatter prints it. The exception and
      stack trailers are kept as the record's flags, not as text. */
  function Render(format: Format, rec: Record, asctime: string): (line: string)
    ensures LevelName(rec.level) + " - " + rec.msg <= line
    ensures format == LevelMessage <==> |line| == |LevelName(rec.level) + " - " + rec.msg|
    ensures format == LevelMessageTime ==> |asctime| <= |line| && line[|line| - |asctime|..] == asctime
  {
    match format
    case LevelMessage => LevelName(rec.level) + " - " + rec.msg
    case LevelMessageTime => LevelName(rec.level) + " - " + rec.msg + " - " + asctime
  }

  /** Reads the level name back from the head of a rendered line. */
  function ParseLevel(line: string): (r: Option<Level>)
    ensures r.Some? ==> LevelName(r.value) + " - " <= line
  {
    if LevelName(DEBUG) + " - " <= line then Some(DEBUG)
    else if LevelName(INFO) + " - " <= line then Some(INFO)
    else if LevelName(WARNING) + " - " <= line then Some(WARNING)
    else if LevelName(ERROR) + " - " <= line then Some(ERROR)
    else if LevelName(CRITICAL) + " - " <= line then Some(CRITICAL)
    else None
  }

  /** Reads the level and the message back from a line rendered with
      `format` at time `asctime`. */
  function Parse(format: Format, line: string, asctime: string): (parsed: Option<(Level, string)>)
  {
    match ParseLevel(line)
    case None => None
    case Some(l) =>
      var rest := line[|LevelName(l) + " - "|..];
      match format
      case LevelMessage => Some((l, rest))
      case LevelMessageTime =>
        var tail := " - " + asctime;
        if |tail| <= |rest| && rest[|rest| - |tail|..] == tail
        then Some((l, rest[..|rest| - |tail|]))
        else None
  }

  lemma LevelPrefix(l: Level, line: string)
    requires LevelName(l) + " - " <= line
    ensures ParseLevel(line) == Some(l)
  {
    assert line[0] == LevelName(l)[0];
  }

  /** Rendering loses neither the level nor the message: both can be read
      back from the line the handler writes. */
  lemma RenderRoundTrip(format: Format, rec: Record, asctime: string)
    ensures Parse(format, Render(format, rec, asctime), asctime) == Some((rec.level, rec.msg))
  {
    var line := Render(format, rec, asctime);
    var head := LevelName(rec.level) + " - ";
    assert line == head + (line[|head|..]);
    LevelPrefix(rec.level, line);
    var rest := line[|head|..];
    match format
    case LevelMessage =>
      assert rest == rec.msg;
    case LevelMessageTime =>
      assert rest == rec.msg + (" - " + asctime);
  }

  /** One line written by one handler. */
  datatype Emission = Emission(handler: Handler, text: string, excInfo: bool, stackInfo: bool)

  /** `Logger.callHandlers`: the record goes to every attached handler in list
      order, each rendering it with its own formatter. Handler levels are all
      `NOTSET`, so no handler turns a record away. */
  function Deliver(hs: seq<Handler>, rec: Record, asctime: string): (out: seq<Emission>)
    ensures |out| == |hs|
    ensures forall i :: 0 <= i < |hs| ==>
      out[i] == Emission(hs[i], Render(hs[i].format, rec, asctime), rec.excInfo, rec.stackInfo)
  {
    if hs == [] then []
    else [Emission(hs[0], Render(hs[0].format, rec, asctime), rec.excInfo, rec.stackInfo)]
         + Deliver(hs[1..], rec, asctime)
  }

  /** One more handler at the end of the list writes one more line, last. */
  lemma DeliverSnoc(hs: seq<Handler>, h: Handler, rec: Record, asctime: string)
    ensures Deliver(hs + [h], rec, asctime)
         == Deliver(hs, rec, asctime) + [Emission(h, Render(h.format, rec, asctime), rec.excInfo, rec.stackInfo)]
  {
    var d := Deliver(hs + [h], rec, asctime);
    assert d[..|hs|] == Deliver(hs, rec, asctime);
    assert d == d[..|hs|] + [d[|hs|]];
  }

  /** A `logging.Logger`: its own level, its mutable list of handlers, and
      the lines its handlers have written so far. */
  class Logger {
    const name: string
    var level: int
    var handlers: seq<Handler>
    ghost var trace: seq<Emission>

    constructor (name: string)
      ensures this.name == name && level == NOTSET && handlers == [] && trace == []
    {
      this.name := name;
      level := NOTSET;
      handlers := [];
      trace := [];
    }

    /** `getEffectiveLevel`: a logger without a level of its own defers to
        the root logger, taken at its default level WARNING. */
    function EffectiveLevel(): (threshold: int)
      reads this
    {
      if level == NOTSET then LevelNo(WARNING) else level
    }

    predicate IsEnabledFor(l: Level)
      reads this
    {
      LevelNo(l) >= EffectiveLevel()
    }

    method SetLevel(l: Level)
      modifies this
      ensures level == LevelNo(l) && handlers == old(handlers) && trace == old(trace)
      ensures forall l' :: IsEnabledFor(l') <==> LevelNo(l') >= LevelNo(l)
    {
      level := LevelNo(l);
    }

    /** `addHandler`: appends the handler unless that very object is attached. */
    method AddHandler(h: Handler)
      modifies this
      ensures level == old(level) && trace == old(trace)
      ensures handlers == AddedTo(old(handlers), h)
    {
      if h !in handlers {
        handlers := handlers + [h];
      }
    }

    /** The lines this logger writes for `rec`: one per attached handler if
        its level lets the record through, none otherwise. */
    ghost function Emitted(rec: Record, asctime: string): (lines: seq<Emission>)
      reads this
    {
      if IsEnabledFor(rec.level) then Deliver(handlers, rec, asctime) else []
    }

    /** `debug`, `info`, `warning`, `error`, `critical`: a record at an
        enabled level is delivered to every attached handler. */
    method Log(rec: Record, asctime: string)
      modifies this
      ensures level == old(level) && handlers == old(handlers)
      ensures trace == old(trace) + Emitted(rec, asctime)
    {
      if IsEnabledFor(rec.level) {
        trace := trace + Deliver(handlers, rec, asctime);
      }
    }
  }

  /** The logging manager's table of loggers, one per name. */
  class Registry {
    var loggers: map<string, Logger>

    ghost predicate Valid()
      reads this, loggers.Values
    {
      forall n :: n in loggers ==> loggers[n].name == n
    }

    constructor ()
      ensures Valid() && loggers == map[]
    {
      loggers := map[];
    }

    /** `logging.getLogger(name)`: the logger already registered under
        `name`, or a new one registered under it. */
    method GetLogger(name: string) returns (l: Logger)
      requires Valid()
      modifies this
      ensures Valid() && l.name == name
      ensures name in old(loggers) ==> l == old(loggers)[name] && loggers == old(loggers)
      ensures name !in old(loggers) ==>
        fresh(l) && l.level == NOTSET && l.handlers == [] && l.trace == []
        && loggers == old(loggers)[name := l]
    {
      if name in loggers {
        l := loggers[name];
      } else {
        l := new Logger(name);
        loggers := loggers[name := l];
      }
    }
  }
}
