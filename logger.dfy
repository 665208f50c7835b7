/**
 * The levelled logger (internal/logger/logger.go). The package-level `defaultLogger` is the `root`
 * object every operation is handed; a writer is a `Sink` that collects the lines printed to it.
 * Message formatting with `Sprintf` and the timestamp `log.LstdFlags` puts in front are left out:
 * a message arrives already formatted and a line is the prefix, a space and the message.
 */
module Logger {
  import opened Text

  /** `Level` is a Go `int`: any value can be converted to it. */
  type Level = int

  const LevelDebug: Level := 0
  const LevelInfo: Level := 1
  const LevelWarn: Level := 2
  const LevelError: Level := 3

  /** One of the four named levels. */
  predicate Named(l: Level) {
    LevelDebug <= l <= LevelError
  }

  /** `Level.String`. */
  function LevelString(l: Level): (name: string)
    ensures Named(l) <==> name != "UNKNOWN"
    ensures Named(l) ==> |name| >= 4 && forall i :: 0 <= i < |name| ==> 'A' <= name[i] <= 'Z'
  {
    if l == LevelDebug then "DEBUG"
    else if l == LevelInfo then "INFO"
    else if l == LevelWarn then "WARN"
    else if l == LevelError then "ERROR"
    else "UNKNOWN"
  }

  /** `ParseLevel`: case-insensitive, two spellings of warn, and Info for anything else. */
  function ParseLevel(s: string): (l: Level)
    ensures Named(l)
    ensures l == LevelDebug <==> ToLower(s) == "debug"
    ensures l == LevelWarn <==> ToLower(s) == "warn" || ToLower(s) == "warning"
    ensures l == LevelError <==> ToLower(s) == "error"
    ensures l == LevelInfo <==> ToLower(s) !in {"debug", "warn", "warning", "error"}
  {
    match ToLower(s)
    case "debug" => LevelDebug
    case "info" => LevelInfo
    case "warn" => LevelWarn
    case "warning" => LevelWarn
    case "error" => LevelError
    case _ => LevelInfo
  }

  /** Lower-casing a lower-cased string changes nothing. */
  lemma ToLowerIdempotent(s: string)
    ensures ToLower(ToLower(s)) == ToLower(s)
  {
    var t := ToLower(s);
    forall i | 0 <= i < |s|
      ensures ToLower(t)[i] == t[i]
    {
      assert t[i] == LowerChar(s[i]);
    }
  }

  /** The case of the input does not matter. */
  lemma ParseLevelIgnoresCase(s: string)
    ensures ParseLevel(ToLower(s)) == ParseLevel(s)
  {
    ToLowerIdempotent(s);
  }

  /** The lower-case form of an upper-case level name. */
  lemma LowerName(l: Level)
    requires Named(l)
    ensures ToLower(LevelString(l)) == ["debug", "info", "warn", "error"][l]
  {
    var name := LevelString(l);
    var lower := ["debug", "info", "warn", "error"][l];
    assert |lower| == |name|;
    forall i | 0 <= i < |name|
      ensures ToLower(name)[i] == lower[i]
    {
      assert ToLower(name)[i] == LowerChar(name[i]);
    }
  }

  /** `String` and `ParseLevel` round-trip on the four named levels. */
  lemma ParseLevelString(l: Level)
    requires Named(l)
    ensures ParseLevel(LevelString(l)) == l
  {
    LowerName(l);
  }

  /** `[LEVEL][component]`, or `[LEVEL]` without a component. */
  function Prefix(level: Level, component: string): string {
    "[" + LevelString(level) + "]" + (if component != "" then "[" + component + "]" else "")
  }

  /** The line `log` prints: the prefix, a space, the message. */
  function Line(level: Level, component: string, msg: string): string {
    Prefix(level, component) + " " + msg
  }

  /**
   * The level can be read back from a line: it is the bracketed word at the front, and the
   * component follows in brackets exactly when there is one.
   */
  lemma LineReadsBack(level: Level, component: string, msg: string)
    requires Named(level)
    ensures var line := Line(level, component, msg);
            var n := |LevelString(level)|;
            |line| > n + 1 && line[0] == '[' && line[n + 1] == ']'
            && ParseLevel(line[1..n + 1]) == level
            && (component == "" ==> line[n + 2..] == " " + msg)
            && (component != "" ==> line[n + 2..] == "[" + component + "] " + msg)
  {
    var line := Line(level, component, msg);
    var name := LevelString(level);
    var n := |name|;
    assert line == "[" + name + "]" + ((if component != "" then "[" + component + "]" else "") + " " + msg);
    assert line[1..n + 1] == name;
    ParseLevelString(level);
  }

  /** A destination writer: the lines printed to it, in order. */
  class Sink {
    var lines: seq<string>

    constructor ()
      ensures lines == []
    {
      lines := [];
    }
  }

  /** `Logger`; the mutex is left out. */
  class Logger {
    /** Copied at creation and never consulted: filtering reads the root's current level. */
    var level: Level
    /** The writer current when the logger was created. */
    var sink: Sink
    const component: string

    constructor (level: Level, sink: Sink, component: string)
      ensures this.level == level && this.sink == sink && this.component == component
    {
      this.level := level;
      this.sink := sink;
      this.component := component;
    }

    /** `log`: emitted iff the level is at least the global level at the time of the call. */
    method Log(root: Logger, level: Level, msg: string)
      modifies sink
      ensures sink.lines == old(sink.lines) + (if level >= root.level then [Line(level, component, msg)] else [])
    {
      if level < root.level {
        return;
      }
      sink.lines := sink.lines + [Line(level, component, msg)];
    }

    method Debug(root: Logger, msg: string)
      modifies sink
      ensures sink.lines == old(sink.lines) + (if root.level <= LevelDebug then [Line(LevelDebug, component, msg)] else [])
    {
      Log(root, LevelDebug, msg);
    }

    method Info(root: Logger, msg: string)
      modifies sink
      ensures sink.lines == old(sink.lines) + (if root.level <= LevelInfo then [Line(LevelInfo, component, msg)] else [])
    {
      Log(root, LevelInfo, msg);
    }

    method Warn(root: Logger, msg: string)
      modifies sink
      ensures sink.lines == old(sink.lines) + (if root.level <= LevelWarn then [Line(LevelWarn, component, msg)] else [])
    {
      Log(root, LevelWarn, msg);
    }

    method Error(root: Logger, msg: string)
      modifies sink
      ensures sink.lines == old(sink.lines) + (if root.level <= LevelError then [Line(LevelError, component, msg)] else [])
    {
      Log(root, LevelError, msg);
    }
  }

  /** The initial `defaultLogger`: Info, writing to standard error, no component. */
  method NewDefault(stderr: Sink) returns (root: Logger)
    ensures fresh(root)
    ensures root.level == LevelInfo && root.sink == stderr && root.component == ""
  {
    root := new Logger(LevelInfo, stderr, "");
  }

  /** `SetLevel`. */
  method SetLevel(root: Logger, level: Level)
    modifies root
    ensures root.level == level && root.sink == old(root.sink)
  {
    root.level := level;
  }

  /** `SetOutput`: later loggers write to `w`; loggers already created keep their writer. */
  method SetOutput(root: Logger, w: Sink)
    modifies root
    ensures root.sink == w && root.level == old(root.level)
  {
    root.sink := w;
  }

  /** `New`: a component logger that shares the writer current now. */
  method New(root: Logger, component: string) returns (l: Logger)
    ensures fresh(l)
    ensures l.level == root.level && l.sink == root.sink && l.component == component
  {
    l := new Logger(root.level, root.sink, component);
  }

  /**
   * A logger created before `SetLevel` and `SetOutput` filters by the new level but writes to the
   * writer it was created with.
   */
  method CreatedBefore(stderr: Sink, buf: Sink, msg: string) returns (errLines: seq<string>, bufLines: seq<string>)
    requires stderr != buf && stderr.lines == [] && buf.lines == []
    modifies stderr, buf
    ensures errLines == [Line(LevelWarn, "test", msg)]
    ensures bufLines == []
  {
    var root := NewDefault(stderr);
    var l := New(root, "test");
    SetOutput(root, buf);
    SetLevel(root, LevelWarn);
    l.Info(root, msg);
    l.Warn(root, msg);
    errLines := stderr.lines;
    bufLines := buf.lines;
  }
}
