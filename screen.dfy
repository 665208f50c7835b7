/**
 * The screenshot tool (internal/tools/screen/screen.go). The executables `exec.LookPath` finds are
 * the set `installed`; `os.TempDir()` and `time.Now().UnixNano()` are inputs; running a command,
 * `os.Stat` and `os.ReadFile` of the file it should have written are one `Outcome` per command,
 * given by the function `run`; base64 encoding is the function `encode`. Error messages are
 * abstracted to the kind of error.
 */
module Screen {
  import opened Basics
  import opened Text
  import opened Numerals

  const Auto := "auto"
  const Gnome := "gnome-screenshot"
  const Scrot := "scrot"
  const Grim := "grim"
  const Spectacle := "spectacle"
  const Maim := "maim"

  /** The order `detectBackend` tries the tools in when the backend is "auto". */
  const AutoOrder: seq<string> := [Gnome, Scrot, Grim, Spectacle, Maim]

  /** `Tool`. */
  datatype Tool = Tool(tempDir: string, backend: string)

  /** `New`. */
  function New(osTemp: string): (t: Tool)
    ensures t.tempDir == osTemp && t.backend == Auto
  {
    Tool(osTemp, Auto)
  }

  /** `NewWithConfig`: an empty directory is the OS temporary directory, an empty backend "auto". */
  function NewWithConfig(tempDir: string, backend: string, osTemp: string): (t: Tool)
    ensures tempDir != "" ==> t.tempDir == tempDir
    ensures tempDir == "" ==> t.tempDir == osTemp
    ensures backend != "" ==> t.backend == backend
    ensures t.backend != ""
  {
    Tool(if tempDir == "" then osTemp else tempDir, if backend == "" then Auto else backend)
  }

  /** `New` is `NewWithConfig` with both settings left empty, and a tool's own settings give it back. */
  lemma NewWithConfigDefaults(t: Tool, osTemp: string)
    ensures NewWithConfig("", "", osTemp) == New(osTemp)
    ensures t.tempDir != "" && t.backend != "" ==> NewWithConfig(t.tempDir, t.backend, osTemp) == t
  {
  }

  // ---------------------------------------------------------------------------------------------
  // Choosing the backend

  /**
   * What `detectBackend` returns: a named backend iff it is installed, and for "auto" the first
   * installed tool of `AutoOrder`; "" when there is none.
   */
  function Detected(t: Tool, installed: set<string>): (b: string)
    ensures t.backend != Auto && t.backend in installed ==> b == t.backend
    ensures t.backend != Auto && t.backend !in installed ==> b == ""
    ensures t.backend == Auto ==> (b == "" <==> forall j :: 0 <= j < |AutoOrder| ==> AutoOrder[j] !in installed)
    ensures b != "" ==> b in installed
  {
    if t.backend != Auto then
      if t.backend in installed then t.backend else ""
    else
      match FirstIn(AutoOrder, installed)
      case None => ""
      case Some(i) => AutoOrder[i]
  }

  /** For "auto", a detected backend is installed and no tool before it in `AutoOrder` is. */
  lemma AutoPrefersEarlier(t: Tool, installed: set<string>)
    requires t.backend == Auto && Detected(t, installed) != ""
    ensures exists i :: 0 <= i < |AutoOrder| && AutoOrder[i] == Detected(t, installed)
                        && forall j :: 0 <= j < i ==> AutoOrder[j] !in installed
  {
    var i := FirstIn(AutoOrder, installed).value;
    assert AutoOrder[i] == Detected(t, installed);
  }

  /** `detectBackend`: the loop over the tools, returning at the first one installed. */
  method DetectBackend(t: Tool, installed: set<string>) returns (b: string)
    ensures b == Detected(t, installed)
  {
    if t.backend != Auto {
      if t.backend in installed {
        return t.backend;
      }
      return "";
    }
    var backends := AutoOrder;
    var i := 0;
    while i < |backends|
      invariant 0 <= i <= |backends|
      invariant forall j :: 0 <= j < i ==> backends[j] !in installed
    {
      if backends[i] in installed {
        assert FirstIn(AutoOrder, installed) == Some(i);
        return backends[i];
      }
      i := i + 1;
    }
    return "";
  }

  /** `IsAvailable`; `GetAvailableBackend` is `Detected` itself. */
  predicate IsAvailable(t: Tool, installed: set<string>) {
    Detected(t, installed) != ""
  }

  /** A tool is available iff its named backend is installed, or for "auto" iff one of the five is. */
  lemma IsAvailableIff(t: Tool, installed: set<string>)
    ensures t.backend != Auto ==> (IsAvailable(t, installed) <==> t.backend != "" && t.backend in installed)
    ensures t.backend == Auto ==> (IsAvailable(t, installed) <==> exists j :: 0 <= j < |AutoOrder| && AutoOrder[j] in installed)
  {
  }

  // ---------------------------------------------------------------------------------------------
  // The commands

  /** A command line: the program and its arguments. */
  datatype Cmd = Cmd(name: string, args: seq<string>)

  /** Full screen, a selected area, or the active window. */
  datatype Mode = Full | Area | Window

  /** What a capture does with a backend: run a command, refuse, or fall back to `Capture`. */
  datatype Plan = Run(cmd: Cmd) | Refuse(error: ShotError) | Fallback

  datatype ShotError =
    | NotFound
    | Unsupported(backend: string)
    | GrimArea
    | AreaUnsupported(backend: string)
    | RunFailed(mode: Mode, backend: string)
    | NotCreated
    | ReadFailed

  /** The `switch` of `Capture`, `CaptureArea` or `CaptureWindow` on the backend. */
  function PlanFor(mode: Mode, backend: string, path: string): Plan {
    match mode
    case Full =>
      if backend == Gnome then Run(Cmd(Gnome, ["-f", path]))
      else if backend == Scrot then Run(Cmd(Scrot, [path]))
      else if backend == Grim then Run(Cmd(Grim, [path]))
      else if backend == Spectacle then Run(Cmd(Spectacle, ["-b", "-n", "-o", path]))
      else if backend == Maim then Run(Cmd(Maim, [path]))
      else Refuse(Unsupported(backend))
    case Area =>
      if backend == Gnome then Run(Cmd(Gnome, ["-a", "-f", path]))
      else if backend == Scrot then Run(Cmd(Scrot, ["-s", path]))
      else if backend == Grim then Refuse(GrimArea)
      else if backend == Spectacle then Run(Cmd(Spectacle, ["-b", "-r", "-n", "-o", path]))
      else if backend == Maim then Run(Cmd(Maim, ["-s", path]))
      else Refuse(AreaUnsupported(backend))
    case Window =>
      if backend == Gnome then Run(Cmd(Gnome, ["-w", "-f", path]))
      else if backend == Scrot then Run(Cmd(Scrot, ["-u", path]))
      else if backend == Spectacle then Run(Cmd(Spectacle, ["-b", "-a", "-n", "-o", path]))
      else if backend == Maim then Run(Cmd("sh", ["-c", "maim -i $(xdotool getactivewindow) " + path]))
      else Fallback
  }

  /**
   * Every command runs the backend itself and ends with the file path, except the window capture
   * of maim, which is a shell command line that ends with it.
   */
  lemma PlanWritesPath(mode: Mode, backend: string, path: string)
    requires PlanFor(mode, backend, path).Run?
    ensures var cmd := PlanFor(mode, backend, path).cmd;
            |cmd.args| > 0
            && if mode == Window && backend == Maim
               then cmd.name == "sh" && |cmd.args| == 2 && cmd.args[0] == "-c" && HasSuffix(cmd.args[1], path)
               else cmd.name == backend && cmd.args[|cmd.args| - 1] == path
  {
    if mode == Window && backend == Maim {
      var line := "maim -i $(xdotool getactivewindow) " + path;
      assert line[|line| - |path|..] == path;
    }
  }

  /** Go's `strings.HasSuffix`. */
  predicate HasSuffix(s: string, p: string) {
    |p| <= |s| && s[|s| - |p|..] == p
  }

  /** Which backends each mode supports: all five for the full screen, all but grim for an area. */
  lemma PlanRefusals(mode: Mode, backend: string, path: string)
    ensures mode == Full ==> (PlanFor(mode, backend, path).Run? <==> backend in AutoOrder)
    ensures mode == Area ==> (PlanFor(mode, backend, path).Run? <==> backend in AutoOrder && backend != Grim)
    ensures mode == Area && backend == Grim ==> PlanFor(mode, backend, path) == Refuse(GrimArea)
    ensures mode == Window ==> (PlanFor(mode, backend, path) == Fallback <==> backend !in [Gnome, Scrot, Spectacle, Maim])
    ensures mode != Window ==> !PlanFor(mode, backend, path).Fallback?
  {
  }

  // ---------------------------------------------------------------------------------------------
  // Capturing

  /** What happened when a command was run: it failed, wrote no file, wrote an unreadable one, or wrote `data`. */
  datatype Outcome = RunFails | NoFile | Unreadable | Wrote(data: seq<bv8>)

  /** `ScreenshotResult`. */
  datatype ScreenshotResult = ScreenshotResult(filePath: string, base64: string)

  /** A capture: the commands run, in order, and the result. */
  datatype Capture = Capture(ran: seq<Cmd>, result: Result)

  datatype Result = Shot(shot: ScreenshotResult) | Failed(error: ShotError)

  /** The file a capture at `now` writes. */
  function ShotPath(t: Tool, now: int): string {
    PathJoin(t.tempDir, "bobik-screenshot-" + IntToString(now) + ".png")
  }

  /** Running the planned command, then checking and reading its file. */
  function Execute(mode: Mode, backend: string, cmd: Cmd, path: string, run: Cmd -> Outcome, encode: seq<bv8> -> string): (c: Capture)
    ensures c.ran == [cmd]
    ensures c.result.Shot? <==> run(cmd).Wrote?
    ensures c.result.Shot? ==> c.result.shot == ScreenshotResult(path, encode(run(cmd).data))
  {
    match run(cmd)
    case RunFails => Capture([cmd], Failed(RunFailed(mode, backend)))
    case NoFile => Capture([cmd], Failed(NotCreated))
    case Unreadable => Capture([cmd], Failed(ReadFailed))
    case Wrote(data) => Capture([cmd], Shot(ScreenshotResult(path, encode(data))))
  }

  /** `Capture`. */
  function CaptureScreen(t: Tool, installed: set<string>, now: int, run: Cmd -> Outcome, encode: seq<bv8> -> string): Capture {
    var backend := Detected(t, installed);
    if backend == "" then Capture([], Failed(NotFound))
    else
      var path := ShotPath(t, now);
      match PlanFor(Full, backend, path)
      case Run(cmd) => Execute(Full, backend, cmd, path, run, encode)
      case Refuse(e) => Capture([], Failed(e))
      case Fallback => Capture([], Failed(Unsupported(backend)))
  }

  /** `CaptureArea`. */
  function CaptureArea(t: Tool, installed: set<string>, now: int, run: Cmd -> Outcome, encode: seq<bv8> -> string): Capture {
    var backend := Detected(t, installed);
    if backend == "" then Capture([], Failed(NotFound))
    else
      var path := ShotPath(t, now);
      match PlanFor(Area, backend, path)
      case Run(cmd) => Execute(Area, backend, cmd, path, run, encode)
      case Refuse(e) => Capture([], Failed(e))
      case Fallback => Capture([], Failed(AreaUnsupported(backend)))
  }

  /** `CaptureWindow`; the fallback to `Capture` reads the clock again, at `later`. */
  function CaptureWindow(t: Tool, installed: set<string>, now: int, later: int, run: Cmd -> Outcome, encode: seq<bv8> -> string): Capture {
    var backend := Detected(t, installed);
    if backend == "" then Capture([], Failed(NotFound))
    else
      var path := ShotPath(t, now);
      match PlanFor(Window, backend, path)
      case Run(cmd) => Execute(Window, backend, cmd, path, run, encode)
      case Refuse(e) => Capture([], Failed(e))
      case Fallback => CaptureScreen(t, installed, later, run, encode)
  }

  /** Without a backend every capture fails without running anything. */
  lemma NoBackendFails(t: Tool, installed: set<string>, now: int, later: int, run: Cmd -> Outcome, encode: seq<bv8> -> string)
    requires !IsAvailable(t, installed)
    ensures CaptureScreen(t, installed, now, run, encode) == Capture([], Failed(NotFound))
    ensures CaptureArea(t, installed, now, run, encode) == Capture([], Failed(NotFound))
    ensures CaptureWindow(t, installed, now, later, run, encode) == Capture([], Failed(NotFound))
  {
  }

  /** An area capture with grim fails without running anything. */
  lemma GrimAreaFails(t: Tool, installed: set<string>, now: int, run: Cmd -> Outcome, encode: seq<bv8> -> string)
    requires Detected(t, installed) == Grim
    ensures CaptureArea(t, installed, now, run, encode) == Capture([], Failed(GrimArea))
  {
  }

  /** A window capture with a backend its `switch` does not list (grim, or any other) is a full capture. */
  lemma WindowFallsBack(t: Tool, installed: set<string>, now: int, later: int, run: Cmd -> Outcome, encode: seq<bv8> -> string)
    requires IsAvailable(t, installed)
    requires Detected(t, installed) !in [Gnome, Scrot, Spectacle, Maim]
    ensures CaptureWindow(t, installed, now, later, run, encode) == CaptureScreen(t, installed, later, run, encode)
  {
    PlanRefusals(Window, Detected(t, installed), ShotPath(t, now));
  }

  /**
   * A full capture succeeds iff a backend is installed, its `switch` knows it, and its one command
   * wrote a readable file; the result is that file in the temporary directory and its encoding.
   */
  lemma CaptureSucceeds(t: Tool, installed: set<string>, now: int, run: Cmd -> Outcome, encode: seq<bv8> -> string)
    ensures var c := CaptureScreen(t, installed, now, run, encode);
            var backend := Detected(t, installed);
            var plan := PlanFor(Full, backend, ShotPath(t, now));
            (c.result.Shot? <==> backend != "" && plan.Run? && run(plan.cmd).Wrote?)
            && (c.result.Shot? ==>
                  c.ran == [plan.cmd] && c.result.shot == ScreenshotResult(ShotPath(t, now), encode(run(plan.cmd).data)))
  {
  }

  // ---------------------------------------------------------------------------------------------
  // Cleaning up

  datatype RemoveError = FileMissing

  /** `Cleanup` over the set of existing files: the new set and the error `os.Remove` gives. */
  function Cleanup(result: Option<ScreenshotResult>, files: set<string>): (r: (set<string>, Option<RemoveError>))
    ensures result.None? || result.value.filePath == "" ==> r == (files, None)
    ensures result.Some? && result.value.filePath != "" ==> r.0 == files - {result.value.filePath}
    ensures r.1.Some? <==> result.Some? && result.value.filePath != "" && result.value.filePath !in files
  {
    if result.None? || result.value.filePath == "" then (files, None)
    else if result.value.filePath in files then (files - {result.value.filePath}, None)
    else (files, Some(FileMissing))
  }

  /** Cleaning up twice removes nothing more than once, and the second time reports the missing file. */
  lemma CleanupTwice(result: Option<ScreenshotResult>, files: set<string>)
    ensures var once := Cleanup(result, files).0;
            Cleanup(result, once).0 == once
            && (Cleanup(result, once).1.Some? <==> result.Some? && result.value.filePath != "")
  {
  }
}
