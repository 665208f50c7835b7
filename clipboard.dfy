/**
 * The clipboard service (internal/tools/clipboard/clipboard.go). The executables `exec.LookPath`
 * finds are the set `installed`. The desktop clipboard itself is the `Board` the tools read and
 * write; whether a tool fails when it runs is an input. Error messages are abstracted to the kind
 * of error.
 */
module Clipboard {
  import opened Basics
  import opened Text

  const Xclip := "xclip"
  const Xsel := "xsel"
  const WlPaste := "wl-paste"
  const WlCopy := "wl-copy"

  /** `Service`: the tool that reads and the tool that writes; "" when there is none. */
  datatype Service = Service(readCmd: string, writeCmd: string)

  /** `New`: xclip, else xsel, else the Wayland pair wl-paste/wl-copy, else nothing. */
  function New(installed: set<string>): (s: Service)
    ensures Xclip in installed ==> s == Service(Xclip, Xclip)
    ensures Xclip !in installed && Xsel in installed ==> s == Service(Xsel, Xsel)
    ensures Xclip !in installed && Xsel !in installed && WlPaste in installed ==> s == Service(WlPaste, WlCopy)
    ensures s.readCmd == "" <==> Xclip !in installed && Xsel !in installed && WlPaste !in installed
    ensures s.readCmd == "" <==> s.writeCmd == ""
  {
    if Xclip in installed then Service(Xclip, Xclip)
    else if Xsel in installed then Service(Xsel, Xsel)
    else if WlPaste in installed then Service(WlPaste, WlCopy)
    else Service("", "")
  }

  /** `IsAvailable`: judged by the read tool alone. */
  predicate IsAvailable(s: Service) {
    s.readCmd != ""
  }

  /** A command line: the program and its arguments. */
  datatype Cmd = Cmd(name: string, args: seq<string>)

  datatype ClipError = NoTool | UnknownCommand(name: string) | ExecFailed

  /** The `switch` of `Read`. */
  function ReadCommand(readCmd: string): (c: Option<Cmd>)
    ensures c.Some? <==> readCmd in {Xclip, Xsel, WlPaste}
    ensures c.Some? ==> c.value.name == readCmd
  {
    if readCmd == Xclip then Some(Cmd(Xclip, ["-selection", "clipboard", "-o"]))
    else if readCmd == Xsel then Some(Cmd(Xsel, ["--clipboard", "--output"]))
    else if readCmd == WlPaste then Some(Cmd(WlPaste, []))
    else None
  }

  /** The `switch` of `Write`; the content goes to the command on standard input. */
  function WriteCommand(writeCmd: string): (c: Option<Cmd>)
    ensures c.Some? <==> writeCmd in {Xclip, Xsel, WlCopy}
    ensures c.Some? ==> c.value.name == writeCmd
  {
    if writeCmd == Xclip then Some(Cmd(Xclip, ["-selection", "clipboard"]))
    else if writeCmd == Xsel then Some(Cmd(Xsel, ["--clipboard", "--input"]))
    else if writeCmd == WlCopy then Some(Cmd(WlCopy, []))
    else None
  }

  /** Every service `New` picks has a known command for both directions, or none at all. */
  lemma NewCommandsKnown(installed: set<string>)
    ensures var s := New(installed);
            IsAvailable(s) <==> ReadCommand(s.readCmd).Some? && WriteCommand(s.writeCmd).Some?
  {
  }

  /** The desktop clipboard. */
  class Board {
    var text: string

    constructor (text: string)
      ensures this.text == text
    {
      this.text := text;
    }
  }

  /** An answer of `Read`: the text, or an error. */
  datatype Reply = Content(text: string) | Error(error: ClipError)

  /** What `Read` answers for the clipboard holding `text` when the tool fails or not. */
  function ReadReply(s: Service, text: string, fails: bool): (r: Reply)
    ensures s.readCmd == "" ==> r == Error(NoTool)
    ensures r.Content? <==> ReadCommand(s.readCmd).Some? && !fails
    ensures r.Content? ==> Trimmed(r.text) && r.text == TrimSpace(text)
  {
    if s.readCmd == "" then Error(NoTool)
    else match ReadCommand(s.readCmd)
      case None => Error(UnknownCommand(s.readCmd))
      case Some(_) => if fails then Error(ExecFailed) else Content(TrimSpace(text))
  }

  /** `Read`: the command it runs, if any, and the answer. */
  method Read(s: Service, board: Board, fails: bool) returns (ran: Option<Cmd>, r: Reply)
    ensures ran == (if s.readCmd == "" then None else ReadCommand(s.readCmd))
    ensures r == ReadReply(s, board.text, fails)
  {
    if s.readCmd == "" {
      return None, Error(NoTool);
    }
    ran := ReadCommand(s.readCmd);
    if ran.None? {
      return ran, Error(UnknownCommand(s.readCmd));
    }
    if fails {
      return ran, Error(ExecFailed);
    }
    r := Content(TrimSpace(board.text));
  }

  /** What `Write` reports: `None` is success. */
  function WriteError(s: Service, fails: bool): (e: Option<ClipError>)
    ensures s.writeCmd == "" ==> e == Some(NoTool)
    ensures e.None? <==> WriteCommand(s.writeCmd).Some? && !fails
  {
    if s.writeCmd == "" then Some(NoTool)
    else if WriteCommand(s.writeCmd).None? then Some(UnknownCommand(s.writeCmd))
    else if fails then Some(ExecFailed)
    else None
  }

  /** `Write`: the command it runs and what it is given on standard input; the clipboard holds the content on success. */
  method Write(s: Service, board: Board, content: string, fails: bool) returns (ran: Option<(Cmd, string)>, e: Option<ClipError>)
    modifies board
    ensures e == WriteError(s, fails)
    ensures ran.Some? <==> s.writeCmd != "" && WriteCommand(s.writeCmd).Some?
    ensures ran.Some? ==> ran.value == (WriteCommand(s.writeCmd).value, content)
    ensures board.text == if e.None? then content else old(board.text)
  {
    if s.writeCmd == "" {
      return None, Some(NoTool);
    }
    var cmd := WriteCommand(s.writeCmd);
    if cmd.None? {
      return None, Some(UnknownCommand(s.writeCmd));
    }
    ran := Some((cmd.value, content));
    if fails {
      return ran, Some(ExecFailed);
    }
    board.text := content;
    e := None;
  }

  /** Writing a text without surrounding whitespace and reading it back gives the text. */
  lemma WriteThenRead(installed: set<string>, content: string)
    requires IsAvailable(New(installed)) && Trimmed(content)
    ensures WriteError(New(installed), false).None?
    ensures ReadReply(New(installed), content, false) == Content(content)
  {
    TrimSpaceOfTrimmed(content);
  }

  /** The round trip of the integration test, on one board. */
  method RoundTrip(installed: set<string>, board: Board, content: string) returns (r: Reply)
    requires IsAvailable(New(installed)) && Trimmed(content)
    modifies board
    ensures r == Content(content)
  {
    var s := New(installed);
    var _, e := Write(s, board, content, false);
    WriteThenRead(installed, content);
    var _, reply := Read(s, board, false);
    r := reply;
  }
}
