/**
 * The command cycle of the orchestrator (internal/orchestrator/orchestrator.go): wake word, then
 * transcript, LLM, parse of `ACTION: X | ARG: Y`, dispatch to one of seven handlers, and the drain of
 * the audio channel.
 *
 * The collaborators behind Go interfaces (notifier, LLM, note store, clock, TTS, clipboard, screen,
 * vision model) are abstract: every call made to them is recorded, in order, in the orchestrator's
 * `trace`, and what they answer during one cycle is the `Replies` value given to the cycle. The
 * speech engine is the `Stt` module, run over the frames taken off the audio channel. The
 * context memory, the timer registry and the audio channel are the concrete objects of the other
 * modules. Which optional collaborators are wired (non-nil in Go) is the `Wiring` value.
 */
module Orchestrator {
  import opened Basics
  import opened Text
  import opened Numerals
  import opened OrchestratorContext
  import Timer
  import AudioFeed
  import Calc
  import Stt

  /** `StateIdle`, `StateListening`, `StateThinking`, as reported to `OnStateChange`. */
  datatype State = Idle | Listening | Thinking

  /** One call made to an abstract collaborator. */
  datatype Event =
    | StateChange(state: State)
    | Notification(title: string, message: string)
    | Speech(text: string)
    | LlmRequest(context: string, input: string)
    | NoteAppend(content: string)
    | NoteRewrite(content: string)
    | NoteDelete
    | ClipboardRead
    | ClipboardWrite(content: string)
    | ScreenCapture
    | WindowCapture
    | VisionRequest(prompt: string, image: string)
    | ScreenCleanup(path: string)

  /** Which optional collaborators are present: `TTS`, `Clipboard`, `Calc`, `Screen`, `VisionLLM`, `OnStateChange`. */
  datatype Wiring = Wiring(tts: bool, clipboard: bool, calculator: bool, screen: bool, vision: bool, observer: bool)

  /** A screenshot: the base64 image and the file it was saved in. */
  datatype Shot = Shot(image: string, path: string)

  /** The calculator's pure collaborators: Go's expression parser, `strconv.ParseFloat` and `FormatResult`. */
  datatype Arithmetic = Arithmetic(parse: Calc.ExprParser, parseFloat: Calc.FloatParser, format: Calc.Value -> string)

  /**
   * What the collaborators answer during one cycle; `None` and `false` are errors. A cycle runs at
   * most one handler, so one answer per kind of call is enough. `transcript` is what `Transcribe`
   * returned: the pure cycle functions take it as given, while `HandleCommand` computes it from the
   * frames it receives.
   */
  datatype Replies = Replies(
    transcript: Option<string>,
    llmOutput: Option<string>,
    noteStored: bool,
    noteDeleted: bool,
    clock: string,
    clipboardContent: Option<string>,
    clipboardStored: bool,
    shot: Option<Shot>,
    vision: Option<string>,
    arithmetic: Arithmetic)

  /**
   * The speech engine's side of one turn: whether each recogniser can be created and what it reports,
   * the wake-word one and the command one, the command recogniser's final result, how `Transcribe`'s
   * loop ends, and how many queued frames arrive before its 7-second timer fires.
   */
  datatype Hearing = Hearing(
    wakeCreated: bool,
    wakeRecognise: Stt.Recogniser,
    created: bool,
    recognise: Stt.Recogniser,
    finalResult: seq<seq<byte>> -> Option<string>,
    end: Stt.StreamEnd,
    inTime: nat)

  /** How many of the `queued` frames `Transcribe` takes off the channel. */
  function Heard(queued: seq<AudioFeed.Frame>, h: Hearing): nat {
    Stt.Taken(|queued|, h.created, h.end, h.inTime)
  }

  /** The transcript `Transcribe` returns when the channel holds `queued`. */
  function Transcript(queued: seq<AudioFeed.Frame>, h: Hearing): Option<string> {
    Stt.Transcription(queued[..Heard(queued, h)], h.end, h.created, h.recognise, h.finalResult)
  }

  /** What a handler does to the timer registry. */
  datatype TimerOp = KeepTimers | StartTimer(duration: int) | StopAllTimers

  /** The observable effect of one handler: the calls it makes, the memory entry it adds, its timer operation. */
  datatype Effect = Effect(events: seq<Event>, entry: Option<ContextEntry>, timers: TimerOp)

  /** The name every voice timer is started under. */
  const VoiceTimer := "Голосовой таймер"

  const NanosPerSecond := 1_000_000_000

  /** The wake word the recogniser listens for. */
  const WakeWord := "эй бобик"

  // ---------------------------------------------------------------------------------------------
  // Parsing the LLM answer

  /** One `|` segment, trimmed and split at its first `:` into a trimmed key and value. */
  function Field(part: string): (kv: Option<(string, string)>)
    ensures kv.None? <==> !Contains(TrimSpace(part), ":")
    ensures kv.Some? ==> Trimmed(kv.value.0) && Trimmed(kv.value.1)
  {
    var sub := SplitFirst(TrimSpace(part), ":");
    if |sub| < 2 then None else Some((TrimSpace(sub[0]), TrimSpace(sub[1])))
  }

  /** One iteration of the loop of `parseLLMOutput`: an `ACTION` or `ARG` field replaces the current value. */
  function Step(acc: (string, string), f: Option<(string, string)>): (string, string) {
    (if f.Some? && f.value.0 == "ACTION" then f.value.1 else acc.0,
     if f.Some? && f.value.0 == "ARG" then f.value.1 else acc.1)
  }

  /** The loop of `parseLLMOutput` from the current `(action, arg)` on. */
  function Scan(parts: seq<string>, acc: (string, string)): (string, string)
    decreases |parts|
  {
    if parts == [] then acc else Scan(parts[1..], Step(acc, Field(parts[0])))
  }

  /** `parseLLMOutput`. */
  function ParseLLMOutput(output: string): (string, string) {
    Scan(Split(output, '|'), ("", ""))
  }

  /** Reference reading: the value of the last segment whose key is `key`, or `default` if there is none. */
  function LastValue(parts: seq<string>, key: string, default: string): string
    decreases |parts|
  {
    if parts == [] then default
    else
      var f := Field(parts[|parts| - 1]);
      if f.Some? && f.value.0 == key then f.value.1 else LastValue(parts[..|parts| - 1], key, default)
  }

  lemma {:induction false} ScanSnoc(parts: seq<string>, p: string, acc: (string, string))
    ensures Scan(parts + [p], acc) == Step(Scan(parts, acc), Field(p))
    decreases |parts|
  {
    if parts == [] {
      assert [] + [p] == [p];
    } else {
      assert (parts + [p])[1..] == parts[1..] + [p];
      ScanSnoc(parts[1..], p, Step(acc, Field(parts[0])));
    }
  }

  lemma {:induction false} ScanIsLastValue(parts: seq<string>, acc: (string, string))
    ensures Scan(parts, acc) == (LastValue(parts, "ACTION", acc.0), LastValue(parts, "ARG", acc.1))
    decreases |parts|
  {
    if parts != [] {
      var init := parts[..|parts| - 1];
      var last := parts[|parts| - 1];
      assert parts == init + [last];
      ScanSnoc(init, last, acc);
      ScanIsLastValue(init, acc);
    }
  }

  /**
   * The parser's meaning: the action is the value of the last `ACTION` segment and the argument the
   * value of the last `ARG` segment, each `""` when there is none; segments without `:` count for nothing.
   */
  lemma ParseLLMOutputMeaning(output: string)
    ensures ParseLLMOutput(output) == (LastValue(Split(output, '|'), "ACTION", ""), LastValue(Split(output, '|'), "ARG", ""))
  {
    ScanIsLastValue(Split(output, '|'), ("", ""));
  }

  /** Appending a segment that has no `:` (and no `|`) to the answer changes nothing. */
  lemma ParseIgnoresSegmentWithoutColon(output: string, segment: string)
    requires forall i :: 0 <= i < |segment| ==> segment[i] != '|' && segment[i] != ':'
    ensures ParseLLMOutput(output + "|" + segment) == ParseLLMOutput(output)
  {
    SplitSnoc(output, '|', segment);
    FieldWithoutColon(segment);
    ScanSnoc(Split(output, '|'), segment, ("", ""));
  }

  /** A segment without `:` is no field. */
  lemma FieldWithoutColon(segment: string)
    requires forall i :: 0 <= i < |segment| ==> segment[i] != ':'
    ensures Field(segment).None?
  {
    var t := TrimSpace(segment);
    forall k | 0 <= k < |t|
      ensures t[k] != ':'
    {
      TrimSpaceInside(segment, k);
    }
    AbsentCharNotContained(t, ':');
  }

  /** Every character of the trimmed string is a character of the original, at a shifted position. */
  lemma TrimSpaceInside(s: string, k: nat)
    requires k < |TrimSpace(s)|
    ensures |s| - |TrimLeft(s)| + k < |s| && TrimSpace(s)[k] == s[|s| - |TrimLeft(s)| + k]
  {
    var l := TrimLeft(s);
    assert TrimSpace(s)[k] == l[k];
  }

  /** A segment whose trimmed text is `key:rest`, with no `:` in `key`, reads as the trimmed key and rest. */
  lemma FieldSplit(part: string, key: string, rest: string)
    requires TrimSpace(part) == key + ":" + rest
    requires forall i :: 0 <= i < |key| ==> key[i] != ':'
    ensures Field(part) == Some((TrimSpace(key), TrimSpace(rest)))
  {
    var t := TrimSpace(part);
    assert t[|key|] == ':';
    assert OccursAt(t, ":", |key|) by {
      assert t[|key|..|key| + 1] == ":";
    }
    var sub := SplitFirst(t, ":");
    assert |sub| == 2;
    assert forall i :: 0 <= i < |key| ==> t[i] == key[i] != ':';
    assert |sub[0]| == |key|;
    assert sub[0] == t[..|key|] == key;
    assert sub[1] == t[|key| + 1..] == rest;
  }

  /** A segment `key:value` with a trimmed key without `:` and a trimmed value reads as that pair. */
  lemma FieldOfKeyValue(key: string, value: string)
    requires |key| > 0 && Trimmed(key) && forall i :: 0 <= i < |key| ==> key[i] != ':'
    requires Trimmed(value)
    ensures Field(key + ":" + value) == Some((key, value))
  {
    var s := key + ":" + value;
    assert s[0] == key[0];
    if |value| > 0 {
      assert s[|s| - 1] == value[|value| - 1];
    }
    TrimSpaceOfTrimmed(s);
    FieldSplit(s, key, value);
    TrimSpaceOfTrimmed(key);
    TrimSpaceOfTrimmed(value);
  }

  /** A final `ACTION:` segment decides the action, whatever came before it. */
  lemma ParseLastActionWins(output: string, value: string)
    requires forall i :: 0 <= i < |value| ==> value[i] != '|'
    requires Trimmed(value)
    ensures ParseLLMOutput(output + "|" + ("ACTION:" + value)).0 == value
  {
    var segment := "ACTION:" + value;
    ActionSegmentHasNoBar(value);
    SplitSnoc(output, '|', segment);
    var parts := Split(output, '|');
    assert Split(output + "|" + segment, '|') == parts + [segment];
    assert "ACTION" + ":" == "ACTION:";
    assert segment == "ACTION" + ":" + value;
    FieldOfKeyValue("ACTION", value);
    var acc := ("", "");
    ScanSnoc(parts, segment, acc);
    var f := Field(segment);
    assert f == Some(("ACTION", value));
    assert Step(Scan(parts, acc), f).0 == value;
  }

  lemma ActionSegmentHasNoBar(value: string)
    requires forall i :: 0 <= i < |value| ==> value[i] != '|'
    ensures forall i :: 0 <= i < |"ACTION:" + value| ==> ("ACTION:" + value)[i] != '|'
  {
    var segment := "ACTION:" + value;
    forall i | 0 <= i < |segment|
      ensures segment[i] != '|'
    {
      if i >= 7 {
        assert segment[i] == value[i - 7];
      }
    }
  }

  /** No character of `s` is `c`. */
  predicate Free(s: string, c: char) {
    forall i :: 0 <= i < |s| ==> s[i] != c
  }

  /** `s` is made of spaces only. */
  predicate Blank(s: string) {
    forall i :: 0 <= i < |s| ==> s[i] == ' '
  }

  /**
   * The answer format the system prompt asks for reads back as its action and argument; only the
   * first `:` of each segment splits, so an argument keeps any `:` of its own.
   */
  lemma ParseActionArg(action: string, arg: string)
    requires |action| > 0 && Trimmed(action) && Free(action, '|') && Free(action, ':')
    requires |arg| > 0 && Trimmed(arg) && Free(arg, '|')
    ensures ParseLLMOutput("ACTION: " + action + " | ARG: " + arg) == (action, arg)
  {
    var first := "ACTION: " + action + " ";
    var second := " ARG: " + arg;
    AnswerSegments(action, arg);
    ParseTwoSegments("ACTION: " + action + " | ARG: " + arg, first, second);
    FieldOfFirst(action);
    FieldOfSecond(arg);
  }

  lemma ParseTwoSegments(output: string, first: string, second: string)
    requires Split(output, '|') == [first, second]
    ensures ParseLLMOutput(output) == Step(Step(("", ""), Field(first)), Field(second))
  {
    assert [first, second] == [first] + [second];
    ScanSnoc([first], second, ("", ""));
  }

  /** The two `|` segments of the prompted answer format. */
  lemma AnswerSegments(action: string, arg: string)
    requires Free(action, '|') && Free(arg, '|')
    ensures Split("ACTION: " + action + " | ARG: " + arg, '|') == ["ACTION: " + action + " ", " ARG: " + arg]
  {
    var first := "ACTION: " + action + " ";
    var second := " ARG: " + arg;
    assert " | ARG: " == " " + "|" + " ARG: ";
    assert "ACTION: " + action + " | ARG: " + arg == first + "|" + second;
    assert Free(first, '|') by {
      forall i | 0 <= i < |first|
        ensures first[i] != '|'
      {
        if 8 <= i < 8 + |action| {
          assert first[i] == action[i - 8];
        }
      }
    }
    assert Free(second, '|') by {
      forall i | 0 <= i < |second|
        ensures second[i] != '|'
      {
        if i >= 6 {
          assert second[i] == arg[i - 6];
        }
      }
    }
    SplitNoSep(first, '|');
    SplitSnoc(first, '|', second);
  }

  lemma FieldOfFirst(action: string)
    requires |action| > 0 && Trimmed(action) && Free(action, ':')
    ensures Field("ACTION: " + action + " ") == Some(("ACTION", action))
  {
    assert Free("ACTION", ':') && Trimmed("ACTION");
    assert Blank(" ") && Blank("");
    assert "" + "ACTION" + ":" + " " + action + " " == "ACTION: " + action + " ";
    FieldPadded("", "ACTION", " ", action, " ");
  }

  lemma FieldOfSecond(arg: string)
    requires |arg| > 0 && Trimmed(arg)
    ensures Field(" ARG: " + arg) == Some(("ARG", arg))
  {
    assert Free("ARG", ':') && Trimmed("ARG");
    assert Blank(" ") && Blank("");
    assert " " + "ARG" + ":" + " " + arg + "" == " ARG: " + arg;
    FieldPadded(" ", "ARG", " ", arg, "");
  }

  /** Blanks around the segment and after its `:` do not reach the key or the value. */
  lemma FieldPadded(pre: string, key: string, mid: string, value: string, post: string)
    requires Blank(pre) && Blank(mid) && Blank(post)
    requires |key| > 0 && Trimmed(key) && Free(key, ':')
    requires |value| > 0 && Trimmed(value)
    ensures Field(pre + key + ":" + mid + value + post) == Some((key, value))
  {
    PaddedTrim(pre, key, mid, value, post);
    FieldOf(pre + key + ":" + mid + value + post, key, mid + value, value);
  }

  lemma PaddedTrim(pre: string, key: string, mid: string, value: string, post: string)
    requires Blank(pre) && Blank(mid) && Blank(post)
    requires |key| > 0 && Trimmed(key)
    requires |value| > 0 && Trimmed(value)
    ensures TrimSpace(pre + key + ":" + mid + value + post) == key + ":" + (mid + value)
    ensures TrimSpace(mid + value) == value
  {
    Regroup(pre, key, mid, value, post);
    TrimSpaceAround(pre, key + ":" + (mid + value), post);
    TrimSpaceAround(mid, value, "");
  }

  lemma Regroup(pre: string, key: string, mid: string, value: string, post: string)
    requires |key| > 0 && |value| > 0
    ensures pre + key + ":" + mid + value + post == pre + (key + ":" + (mid + value)) + post
    ensures (key + ":" + (mid + value))[0] == key[0]
    ensures (key + ":" + (mid + value))[|key| + 1 + |mid| + |value| - 1] == value[|value| - 1]
    ensures mid + value + "" == mid + value
  {
  }

  lemma FieldOf(part: string, key: string, rest: string, value: string)
    requires TrimSpace(part) == key + ":" + rest
    requires Free(key, ':') && Trimmed(key)
    requires TrimSpace(rest) == value
    ensures Field(part) == Some((key, value))
  {
    FieldSplit(part, key, rest);
    TrimSpaceOfTrimmed(key);
  }

  // ---------------------------------------------------------------------------------------------
  // The context block of the prompt

  /** `- Команда: %s, Действие: %s\n` for one history entry. */
  function ContextLine(e: ContextEntry): string {
    "- Команда: " + e.command + ", Действие: " + e.action
  }

  /** The `contextStr` loop: one line per history entry, oldest first, each ended by a newline. */
  function ContextBlock(history: seq<ContextEntry>): (block: string)
    ensures history == [] <==> block == ""
    decreases |history|
  {
    if history == [] then "" else ContextLine(history[0]) + "\n" + ContextBlock(history[1..])
  }

  predicate NoNewline(s: string) {
    forall i :: 0 <= i < |s| ==> s[i] != '\n'
  }

  /**
   * The block reads back as exactly one line per entry, in order, followed by the empty remainder
   * after the last newline, as long as no command or action holds a newline itself.
   */
  lemma {:induction false} ContextBlockLines(history: seq<ContextEntry>)
    requires forall k :: 0 <= k < |history| ==> NoNewline(history[k].command) && NoNewline(history[k].action)
    ensures Split(ContextBlock(history), '\n') == seq(|history|, k requires 0 <= k < |history| => ContextLine(history[k])) + [""]
    decreases |history|
  {
    if history == [] {
      assert Split("", '\n') == [""];
    } else {
      var line := ContextLine(history[0]);
      assert NoNewline(line) by {
        var c := history[0].command;
        var a := history[0].action;
        assert line == "- Команда: " + c + ", Действие: " + a;
        forall i | 0 <= i < |line|
          ensures line[i] != '\n'
        {
          var n1 := |"- Команда: "|;
          var n2 := n1 + |c|;
          var n3 := n2 + |", Действие: "|;
          if i < n1 {
          } else if i < n2 {
            assert line[i] == c[i - n1];
          } else if i < n3 {
          } else {
            assert line[i] == a[i - n3];
          }
        }
      }
      SplitCons(line, '\n', ContextBlock(history[1..]));
      ContextBlockLines(history[1..]);
    }
  }


  // ---------------------------------------------------------------------------------------------
  // The texts the handlers show, speak and remember

  const Bobik := "Bobik"
  const BobikError := "Bobik Error"
  const ListeningText := "Listening..."
  const LlmFailed := "LLM failed"
  const NotUnderstood := "Не понял команду"

  const UpdatePrefix := "UPDATE:"
  const NoteSaveFailed := "Failed to save note"
  const NoteSaved := "Заметка сохранена"
  const NoteWritten := "Записал"
  const SavedNote := "Saved note"
  const UpdatedNote := "Updated last note"

  const TimeError := "Ошибка времени"
  const TimerStarted := "Таймер запущен"

  const TimeTitle := "Bobik Time"
  const NowPrefix := "Сейчас "
  const ReportedTime := "Reported current time"

  const NothingToCancel := "Нечего отменять"
  const CancelledPrefix := "Отменено: "
  const CancelledText := "Отменено"
  const NoteItem := "заметка"
  const TimersSuffix := " таймер(ов)"

  const ClipboardMissing := "Буфер обмена недоступен"
  const ClipboardReadFailed := "Не удалось прочитать буфер"
  const ClipboardTitle := "Буфер обмена"
  const InClipboard := "В буфере: "
  const ReadClipboard := "Read clipboard"
  const ClipboardEmpty := "Буфер пуст"
  const ClipboardNoteFailed := "Не удалось сохранить заметку"
  const ClipboardNoted := "Буфер сохранен в заметку"
  const Saved := "Сохранено"
  const SavedClipboard := "Saved clipboard to note"
  const WritePrefix := "write:"
  const ClipboardWriteFailed := "Не удалось записать в буфер"
  const ClipboardWritten := "Скопировано в буфер"
  const Copied := "Скопировано"
  const WroteClipboard := "Wrote to clipboard: "
  const UnknownClipboardOp := "Неизвестная операция с буфером"

  const CalcMissing := "Калькулятор недоступен"
  const PercentSeparator := "%:"
  const CalcFailed := "Ошибка вычисления"
  const CannotCount := "Не могу посчитать"
  const ResultTitle := "Результат"

  const ScreenMissing := "Скриншоты недоступны"
  const VisionMissing := "Vision модель не настроена"
  const TakingShot := "Делаю скриншот..."
  const OneSecond := "Секунду"
  const ShotFailed := "Не удалось сделать скриншот"
  const Analysing := "Анализирую изображение..."
  const AnalysisFailed := "Ошибка анализа изображения"
  const CouldNotAnalyse := "Не удалось проанализировать"
  const ScreenTitle := "Экран"
  const ScreenAnalysis := "Screen analysis: "
  const ReadPrompt := "Прочитай весь текст, который ты видишь на этом скриншоте. Выведи только текст, без комментариев."
  const WindowPrompt := "Опиши содержимое этого окна. Что это за программа? Что на экране?"
  const DescribePrompt := "Опиши что ты видишь на этом скриншоте. Кратко, 2-3 предложения."

  // ---------------------------------------------------------------------------------------------
  // The handlers, as effects

  /** `speak`: a spoken text, only when a TTS service is wired. */
  function Spoken(w: Wiring, text: string): seq<Event> {
    if w.tts then [Speech(text)] else []
  }

  /** `OnStateChange`, only when an observer is wired. */
  function Signalled(w: Wiring, s: State): seq<Event> {
    if w.observer then [StateChange(s)] else []
  }

  function NoteContent(arg: string): string {
    if HasPrefix(arg, UpdatePrefix) then TrimSpace(TrimPrefix(arg, UpdatePrefix)) else arg
  }

  /** `handleNoteAction`, `stored` being the note store's answer. */
  function NoteEffect(w: Wiring, rawInput: string, arg: string, stored: bool): Effect {
    var isUpdate := HasPrefix(arg, UpdatePrefix);
    var content := NoteContent(arg);
    var call := if isUpdate then NoteRewrite(content) else NoteAppend(content);
    if !stored then Effect([call, Notification(BobikError, NoteSaveFailed)], None, KeepTimers)
    else
      var desc := if isUpdate then UpdatedNote else SavedNote;
      Effect([call, Notification(Bobik, NoteSaved)] + Spoken(w, NoteWritten),
             Some(ContextEntry(rawInput, desc + ": " + content)), KeepTimers)
  }

  /** `handleTimerAction`: `time.Duration(seconds) * time.Second` wraps around in 64 bits. */
  function TimerEffect(w: Wiring, rawInput: string, arg: string): Effect {
    match Atoi(arg)
    case None => Effect([Notification(BobikError, TimeError)], None, KeepTimers)
    case Some(seconds) =>
      Effect([Notification(Bobik, "Таймер запущен на " + IntToString(seconds) + " сек")] + Spoken(w, TimerStarted),
             Some(ContextEntry(rawInput, "Set timer for " + IntToString(seconds) + " seconds")),
             StartTimer(Wrap64(seconds * NanosPerSecond)))
  }

  /** `handleTimeAction`, `clock` being what the clock reports. */
  function TimeEffect(w: Wiring, rawInput: string, clock: string): Effect {
    Effect([Notification(TimeTitle, clock)] + Spoken(w, NowPrefix + clock),
           Some(ContextEntry(rawInput, ReportedTime)), KeepTimers)
  }

  function CancelsNote(arg: string): bool {
    var a := ToLower(TrimSpace(arg));
    a == "note" || a == "all"
  }

  function CancelsTimers(arg: string): bool {
    var a := ToLower(TrimSpace(arg));
    a == "timer" || a == "all"
  }

  /** The items of the "Отменено: …" message, `activeTimers` being the registry's size before `CancelAll`. */
  function Cancelled(arg: string, deleted: bool, activeTimers: nat): seq<string> {
    (if CancelsNote(arg) && deleted then [NoteItem] else [])
    + (if CancelsTimers(arg) && activeTimers > 0 then [NatToString(activeTimers) + TimersSuffix] else [])
  }

  /** `handleCancelAction`, `deleted` being the note store's answer to `DeleteLastNote`. */
  function CancelEffect(w: Wiring, rawInput: string, arg: string, deleted: bool, activeTimers: nat): Effect {
    var calls := if CancelsNote(arg) then [NoteDelete] else [];
    var op := if CancelsTimers(arg) then StopAllTimers else KeepTimers;
    var report := CancelReport(w, rawInput, Cancelled(arg, deleted, activeTimers));
    Effect(calls + report.events, report.entry, op)
  }

  /** The end of `handleCancelAction`, once the cancelled items are known. */
  function CancelReport(w: Wiring, rawInput: string, items: seq<string>): Effect {
    if items == [] then
      Effect([Notification(Bobik, NothingToCancel)] + Spoken(w, NothingToCancel), None, KeepTimers)
    else
      var msg := CancelledPrefix + Join(items, ", ");
      Effect([Notification(Bobik, msg)] + Spoken(w, CancelledText), Some(ContextEntry(rawInput, msg)), KeepTimers)
  }

  /** `handleClipboardAction`. */
  function ClipboardEffect(w: Wiring, rawInput: string, arg: string, r: Replies): Effect {
    if !w.clipboard then Effect([Notification(BobikError, ClipboardMissing)], None, KeepTimers)
    else ClipboardOp(w, rawInput, TrimSpace(arg), r)
  }

  /** The `switch` of `handleClipboardAction` on the trimmed argument `a`. */
  function ClipboardOp(w: Wiring, rawInput: string, a: string, r: Replies): Effect {
    if a == "read" then ClipboardShow(w, rawInput, r.clipboardContent)
    else if a == "note" then ClipboardToNote(w, rawInput, r.clipboardContent, r.noteStored)
    else if HasPrefix(a, WritePrefix) then ClipboardStore(w, rawInput, TrimSpace(TrimPrefix(a, WritePrefix)), r.clipboardStored)
    else Effect([Notification(Bobik, UnknownClipboardOp)], None, KeepTimers)
  }

  /** `read`: the content, cut to 100 characters plus "..." when longer. */
  function ClipboardShow(w: Wiring, rawInput: string, content: Option<string>): Effect {
    match content
    case None => Effect([ClipboardRead, Notification(BobikError, ClipboardReadFailed)], None, KeepTimers)
    case Some(c) =>
      var display := Ellipsize(c, 100);
      Effect([ClipboardRead, Notification(ClipboardTitle, display)] + Spoken(w, InClipboard + display),
             Some(ContextEntry(rawInput, ReadClipboard)), KeepTimers)
  }

  /** `note`: a non-empty content is appended to the daily note. */
  function ClipboardToNote(w: Wiring, rawInput: string, content: Option<string>, stored: bool): Effect {
    match content
    case None => Effect([ClipboardRead, Notification(BobikError, ClipboardReadFailed)], None, KeepTimers)
    case Some(c) =>
      if c == "" then Effect([ClipboardRead, Notification(Bobik, ClipboardEmpty)], None, KeepTimers)
      else if !stored then Effect([ClipboardRead, NoteAppend(c), Notification(BobikError, ClipboardNoteFailed)], None, KeepTimers)
      else
        Effect([ClipboardRead, NoteAppend(c), Notification(Bobik, ClipboardNoted)] + Spoken(w, Saved),
               Some(ContextEntry(rawInput, SavedClipboard)), KeepTimers)
  }

  /** `write:`, `content` being the trimmed text after the prefix. */
  function ClipboardStore(w: Wiring, rawInput: string, content: string, stored: bool): Effect {
    if !stored then Effect([ClipboardWrite(content), Notification(BobikError, ClipboardWriteFailed)], None, KeepTimers)
    else
      Effect([ClipboardWrite(content), Notification(Bobik, ClipboardWritten)] + Spoken(w, Copied),
             Some(ContextEntry(rawInput, WroteClipboard + content)), KeepTimers)
  }

  /** The number `handleCalcAction` computes from its trimmed argument, or `None` on any error. */
  function Calculate(a: string, arith: Arithmetic): Option<Calc.Value> {
    if Contains(a, PercentSeparator) then
      var parts := SplitFirst(a, PercentSeparator);
      var percent := arith.parseFloat(TrimSpace(parts[0]));
      var value := arith.parseFloat(TrimSpace(parts[1]));
      if percent.Some? && value.Some? then Some(Calc.Num(Calc.Percentage(percent.value, value.value))) else None
    else
      match Calc.Eval(a, arith.parse, arith.parseFloat)
      case Ok(v) => Some(v)
      case Error(_) => None
  }

  /** `handleCalcAction`. */
  function CalcEffect(w: Wiring, rawInput: string, arg: string, arith: Arithmetic): Effect {
    if !w.calculator then Effect([Notification(BobikError, CalcMissing)], None, KeepTimers)
    else CalcReport(w, rawInput, TrimSpace(arg), Calculate(TrimSpace(arg), arith), arith.format)
  }

  /** What `handleCalcAction` reports for the trimmed argument `a` and its result. */
  function CalcReport(w: Wiring, rawInput: string, a: string, result: Option<Calc.Value>, format: Calc.Value -> string): Effect {
    match result
    case None => Effect([Notification(BobikError, CalcFailed)] + Spoken(w, CannotCount), None, KeepTimers)
    case Some(v) =>
      var formatted := format(v);
      Effect([Notification(ResultTitle, formatted)] + Spoken(w, formatted),
             Some(ContextEntry(rawInput, "Calculated: " + a + " = " + formatted)), KeepTimers)
  }

  /** The question put to the vision model for a lower-cased, trimmed screen argument. */
  function VisionPrompt(a: string): string {
    if a == "read" then ReadPrompt
    else if a == "window" then WindowPrompt
    else DescribePrompt
  }

  /** `handleScreenAction`. */
  function ScreenEffect(w: Wiring, rawInput: string, arg: string, r: Replies): Effect {
    if !w.screen then Effect([Notification(BobikError, ScreenMissing)] + Spoken(w, ScreenMissing), None, KeepTimers)
    else if !w.vision then Effect([Notification(BobikError, VisionMissing)] + Spoken(w, VisionMissing), None, KeepTimers)
    else ScreenShot(w, rawInput, ToLower(TrimSpace(arg)), r.shot, r.vision)
  }

  /** The calls before the screenshot is taken, `a` being the lower-cased trimmed argument. */
  function ScreenOpening(w: Wiring, a: string): seq<Event> {
    [Notification(Bobik, TakingShot)] + Spoken(w, OneSecond) + [if a == "window" then WindowCapture else ScreenCapture]
  }

  /** `handleScreenAction` after its guards. */
  function ScreenShot(w: Wiring, rawInput: string, a: string, shot: Option<Shot>, vision: Option<string>): Effect {
    var rest := match shot
      case None => Effect([Notification(BobikError, ShotFailed)] + Spoken(w, ShotFailed), None, KeepTimers)
      case Some(s) => ShotAnalysis(w, rawInput, a, s, vision);
    Effect(ScreenOpening(w, a) + rest.events, rest.entry, KeepTimers)
  }

  /** Everything after a successful capture. */
  function ShotAnalysis(w: Wiring, rawInput: string, a: string, s: Shot, vision: Option<string>): Effect {
    var report := AnalysisReport(w, rawInput, vision, s.path);
    Effect([Notification(Bobik, Analysing), VisionRequest(VisionPrompt(a), s.image)] + report.events, report.entry, KeepTimers)
  }

  /** What follows the vision model's answer; the deferred `Cleanup` of the screenshot file is the last call. */
  function AnalysisReport(w: Wiring, rawInput: string, vision: Option<string>, path: string): Effect {
    match vision
    case None =>
      Effect([Notification(BobikError, AnalysisFailed)] + Spoken(w, CouldNotAnalyse) + [ScreenCleanup(path)], None, KeepTimers)
    case Some(response) =>
      var answer := TrimSpace(response);
      var display := Ellipsize(answer, 200);
      Effect([Notification(ScreenTitle, display)] + Spoken(w, TakeAtMost(answer, 150)) + [ScreenCleanup(path)],
             Some(ContextEntry(rawInput, ScreenAnalysis + display)), KeepTimers)
  }

  /** The `switch action` of `handleCommand`. */
  function Dispatch(w: Wiring, text: string, action: string, arg: string, r: Replies, activeTimers: nat): Effect {
    if action == "NOTE" then NoteEffect(w, text, arg, r.noteStored)
    else if action == "TIMER" then TimerEffect(w, text, arg)
    else if action == "TIME" then TimeEffect(w, text, r.clock)
    else if action == "CANCEL" then CancelEffect(w, text, arg, r.noteDeleted, activeTimers)
    else if action == "CLIPBOARD" then ClipboardEffect(w, text, arg, r)
    else if action == "CALC" then CalcEffect(w, text, arg, r.arithmetic)
    else if action == "SCREEN" then ScreenEffect(w, text, arg, r)
    else Effect([Notification(Bobik, NotUnderstood)], None, KeepTimers)
  }

  /** One `handleCommand`: its effect, and whether it reached the drain of the audio channel. */
  datatype Cycle = Cycle(effect: Effect, drained: bool)

  /** The calls every cycle starts with. */
  function Opening(w: Wiring): seq<Event> {
    Signalled(w, Listening) + [Notification(Bobik, ListeningText)]
  }

  /** The calls up to the LLM request, for the trimmed transcript `text`. */
  function Asked(w: Wiring, history: seq<ContextEntry>, text: string): seq<Event> {
    Opening(w) + Request(w, history, text)
  }

  /** The calls that put the trimmed transcript `text` and the remembered context to the LLM. */
  function Request(w: Wiring, history: seq<ContextEntry>, text: string): seq<Event> {
    Signalled(w, Thinking) + [LlmRequest(ContextBlock(history), text)]
  }

  /** `handleCommand`, `history` being the memory's entries and `activeTimers` the registry's size at its start. */
  function Command(w: Wiring, r: Replies, history: seq<ContextEntry>, activeTimers: nat): Cycle {
    if r.transcript.None? || TrimSpace(r.transcript.value) == "" then Cycle(Effect(Opening(w), None, KeepTimers), false)
    else
      var x := Exchange(w, r, history, TrimSpace(r.transcript.value), activeTimers);
      Cycle(Effect(Opening(w) + x.effect.events, x.effect.entry, x.effect.timers), x.drained)
  }

  /** `handleCommand` from the request to the LLM on, `text` being the non-empty trimmed transcript. */
  function Exchange(w: Wiring, r: Replies, history: seq<ContextEntry>, text: string, activeTimers: nat): Cycle {
    match r.llmOutput
    case None => Cycle(Effect(Request(w, history, text) + [Notification(BobikError, LlmFailed)], None, KeepTimers), false)
    case Some(output) =>
      var (action, arg) := ParseLLMOutput(output);
      var e := Dispatch(w, text, action, arg, r, activeTimers);
      Cycle(Effect(Request(w, history, text) + e.events, e.entry, e.timers), true)
  }

  /** The registry after a timer operation. */
  function ApplyTimerOp(active: map<string, int>, op: TimerOp): map<string, int> {
    match op
    case KeepTimers => active
    case StartTimer(d) => active[VoiceTimer := d]
    case StopAllTimers => map[]
  }

  function EntryList(entry: Option<ContextEntry>): seq<ContextEntry> {
    if entry.Some? then [entry.value] else []
  }

  // ---------------------------------------------------------------------------------------------
  // Properties of the cycle

  /** Listening is always signalled first, before anything else happens. */
  lemma CommandOpens(w: Wiring, r: Replies, history: seq<ContextEntry>, activeTimers: nat)
    ensures var c := Command(w, r, history, activeTimers);
            |c.effect.events| >= |Opening(w)| && c.effect.events[..|Opening(w)|] == Opening(w)
  {
    if r.transcript.None? || TrimSpace(r.transcript.value) == "" {
      PrefixOfConcat(Opening(w), []);
      assert Opening(w) + [] == Opening(w);
    } else {
      PrefixOfConcat(Opening(w), Exchange(w, r, history, TrimSpace(r.transcript.value), activeTimers).effect.events);
    }
  }

  lemma AppendAssoc<T>(a: seq<T>, b: seq<T>, c: seq<T>)
    ensures a + b + c == a + (b + c)
  {
  }

  lemma AppendTwo<T>(a: seq<T>, x: T, y: T)
    ensures a + [x] + [y] == a + [x, y]
  {
  }

  lemma PrefixOfConcat<T>(a: seq<T>, b: seq<T>)
    ensures |a + b| >= |a| && (a + b)[..|a|] == a
  {
  }

  /**
   * The two early returns of `handleCommand`: an empty or failed transcript stops before Thinking
   * with no LLM call, an LLM error notifies "LLM failed"; neither touches memory or timers, and
   * neither reaches the drain: only the frames `Transcribe` received are gone from the audio channel.
   * Exactly the cycles with an LLM answer reach the drain.
   */
  lemma CommandEarlyOutcomes(w: Wiring, r: Replies, history: seq<ContextEntry>, activeTimers: nat)
    ensures r.transcript.None? || TrimSpace(r.transcript.value) == ""
            ==> Command(w, r, history, activeTimers) == Cycle(Effect(Opening(w), None, KeepTimers), false)
    ensures r.transcript.Some? && TrimSpace(r.transcript.value) != "" && r.llmOutput.None?
            ==> Command(w, r, history, activeTimers)
                == Cycle(Effect(Asked(w, history, TrimSpace(r.transcript.value)) + [Notification(BobikError, LlmFailed)], None, KeepTimers), false)
  {
    if r.transcript.Some? {
      AppendAssoc(Opening(w), Request(w, history, TrimSpace(r.transcript.value)), [Notification(BobikError, LlmFailed)]);
    }
  }

  /** The audio queue is drained exactly when an assistant reply was dispatched. */
  lemma CommandDrains(w: Wiring, r: Replies, history: seq<ContextEntry>, activeTimers: nat)
    ensures Command(w, r, history, activeTimers).drained
            <==> r.transcript.Some? && TrimSpace(r.transcript.value) != "" && r.llmOutput.Some?
  {
  }

  lemma CommandDispatches(w: Wiring, r: Replies, history: seq<ContextEntry>, activeTimers: nat)
    requires r.transcript.Some? && TrimSpace(r.transcript.value) != "" && r.llmOutput.Some?
    ensures var text := TrimSpace(r.transcript.value);
            var parsed := ParseLLMOutput(r.llmOutput.value);
            var e := Dispatch(w, text, parsed.0, parsed.1, r, activeTimers);
            Command(w, r, history, activeTimers) == Cycle(Effect(Asked(w, history, text) + e.events, e.entry, e.timers), true)
  {
    var text := TrimSpace(r.transcript.value);
    var parsed := ParseLLMOutput(r.llmOutput.value);
    var e := Dispatch(w, text, parsed.0, parsed.1, r, activeTimers);
    assert Exchange(w, r, history, text, activeTimers) == Cycle(Effect(Request(w, history, text) + e.events, e.entry, e.timers), true);
    AppendAssoc(Opening(w), Request(w, history, text), e.events);
  }

  /** An answer without an `ACTION` segment reaches the default branch: "Не понял команду", nothing remembered. */
  lemma NoActionNotUnderstood(w: Wiring, r: Replies, history: seq<ContextEntry>, activeTimers: nat)
    requires r.transcript.Some? && TrimSpace(r.transcript.value) != "" && r.llmOutput.Some?
    requires forall k :: 0 <= k < |Split(r.llmOutput.value, '|')|
               ==> Field(Split(r.llmOutput.value, '|')[k]).None? || Field(Split(r.llmOutput.value, '|')[k]).value.0 != "ACTION"
    ensures Command(w, r, history, activeTimers)
            == Cycle(Effect(Asked(w, history, TrimSpace(r.transcript.value)) + [Notification(Bobik, NotUnderstood)], None, KeepTimers), true)
  {
    var parts := Split(r.llmOutput.value, '|');
    ParseLLMOutputMeaning(r.llmOutput.value);
    NoKeyNoValue(parts, "ACTION");
    var text := TrimSpace(r.transcript.value);
    var parsed := ParseLLMOutput(r.llmOutput.value);
    assert parsed.0 == "";
    DefaultBranch(w, text, parsed.1, r, activeTimers);
    CommandDispatches(w, r, history, activeTimers);
  }

  /** The empty action matches no case of the switch. */
  lemma DefaultBranch(w: Wiring, text: string, arg: string, r: Replies, activeTimers: nat)
    ensures Dispatch(w, text, "", arg, r, activeTimers) == Effect([Notification(Bobik, NotUnderstood)], None, KeepTimers)
  {
  }

  lemma {:induction false} NoKeyNoValue(parts: seq<string>, key: string)
    requires forall k :: 0 <= k < |parts| ==> Field(parts[k]).None? || Field(parts[k]).value.0 != key
    ensures LastValue(parts, key, "") == ""
    decreases |parts|
  {
    if parts != [] {
      NoKeyNoValue(parts[..|parts| - 1], key);
    }
  }

  /** NOTE: `UPDATE:` rewrites with the trimmed remainder, anything else appends as is, and only a stored note is remembered. */
  lemma NoteOutcomes(w: Wiring, rawInput: string, arg: string, stored: bool)
    ensures var e := NoteEffect(w, rawInput, arg, stored);
            e.timers == KeepTimers && (e.entry.Some? <==> stored)
    ensures HasPrefix(arg, UpdatePrefix) ==> NoteEffect(w, rawInput, arg, stored).events[0] == NoteRewrite(TrimSpace(arg[7..]))
    ensures HasPrefix(arg, UpdatePrefix) && stored
            ==> NoteEffect(w, rawInput, arg, stored).entry == Some(ContextEntry(rawInput, UpdatedNote + ": " + TrimSpace(arg[7..])))
    ensures !HasPrefix(arg, UpdatePrefix) ==> NoteEffect(w, rawInput, arg, stored).events[0] == NoteAppend(arg)
    ensures !HasPrefix(arg, UpdatePrefix) && stored
            ==> NoteEffect(w, rawInput, arg, stored).entry == Some(ContextEntry(rawInput, SavedNote + ": " + arg))
  {
    if HasPrefix(arg, UpdatePrefix) {
      assert TrimPrefix(arg, UpdatePrefix) == arg[7..];
    }
  }

  /** TIMER: a non-integer starts nothing and remembers nothing; an integer N starts the voice timer for N seconds. */
  lemma TimerOutcomes(w: Wiring, rawInput: string, arg: string)
    ensures Atoi(arg).None? ==> TimerEffect(w, rawInput, arg) == Effect([Notification(BobikError, TimeError)], None, KeepTimers)
    ensures Atoi(arg).Some? ==> TimerEffect(w, rawInput, arg).timers == StartTimer(Wrap64(Atoi(arg).value * NanosPerSecond))
    ensures Atoi(arg).Some?
            ==> TimerEffect(w, rawInput, arg).entry == Some(ContextEntry(rawInput, "Set timer for " + IntToString(Atoi(arg).value) + " seconds"))
  {
  }

  /** A timer argument of up to nine billion seconds gives exactly that many seconds, without wrap-around. */
  lemma TimerDurationExact(w: Wiring, rawInput: string, seconds: int)
    requires -9_000_000_000 <= seconds <= 9_000_000_000
    ensures TimerEffect(w, rawInput, IntToString(seconds)).timers == StartTimer(seconds * NanosPerSecond)
  {
    AtoiIntToString(seconds);
  }

  /** TIME reports the clock and remembers "Reported current time". */
  lemma TimeOutcome(w: Wiring, rawInput: string, clock: string)
    ensures var e := TimeEffect(w, rawInput, clock);
            e.events[0] == Notification(TimeTitle, clock) && e.entry == Some(ContextEntry(rawInput, ReportedTime))
            && e.timers == KeepTimers
  {
  }

  /**
   * CANCEL: only `note`/`all` (any case, surrounding blanks ignored) ask the store to delete, only
   * `timer`/`all` stop the timers, and an entry is remembered iff something was actually cancelled.
   */
  lemma CancelOutcomes(w: Wiring, rawInput: string, arg: string, deleted: bool, activeTimers: nat)
    ensures var e := CancelEffect(w, rawInput, arg, deleted, activeTimers);
            (NoteDelete in e.events <==> CancelsNote(arg))
            && (e.timers == StopAllTimers <==> CancelsTimers(arg))
            && (e.timers == KeepTimers <==> !CancelsTimers(arg))
            && (e.entry.Some? <==> (CancelsNote(arg) && deleted) || (CancelsTimers(arg) && activeTimers > 0))
    ensures var e := CancelEffect(w, rawInput, arg, deleted, activeTimers);
            e.entry == None ==> Notification(Bobik, NothingToCancel) in e.events
  {
    var e := CancelEffect(w, rawInput, arg, deleted, activeTimers);
    if !CancelsNote(arg) {
      assert NoteDelete !in e.events;
    }
  }

  /** An argument other than note/timer/all cancels nothing. */
  lemma CancelUnknownArgument(w: Wiring, rawInput: string, arg: string, deleted: bool, activeTimers: nat)
    requires var a := ToLower(TrimSpace(arg)); a != "note" && a != "timer" && a != "all"
    ensures CancelEffect(w, rawInput, arg, deleted, activeTimers)
            == Effect([Notification(Bobik, NothingToCancel)] + Spoken(w, NothingToCancel), None, KeepTimers)
  {
  }

  /** `all` with a deleted note and `n` live timers: one entry naming both. */
  lemma CancelAllMessage(w: Wiring, rawInput: string, arg: string, n: nat)
    requires CancelsNote(arg) && CancelsTimers(arg) && n > 0
    ensures CancelEffect(w, rawInput, arg, true, n).entry
            == Some(ContextEntry(rawInput, CancelledPrefix + (NoteItem + ", " + (NatToString(n) + TimersSuffix))))
    ensures CancelEffect(w, rawInput, arg, true, n).timers == StopAllTimers
  {
    assert Cancelled(arg, true, n) == [NoteItem, NatToString(n) + TimersSuffix];
    JoinPair(NoteItem, NatToString(n) + TimersSuffix, ", ");
  }

  /** " ALL " asks for both cancellations. */
  lemma AllInAnyCase()
    ensures CancelsNote(" ALL ") && CancelsTimers(" ALL ")
  {
    TrimAllExample();
    LowerAllExample();
  }

  lemma TrimAllExample()
    ensures TrimSpace(" ALL ") == "ALL"
  {
    var core := "ALL";
    assert Trimmed(core) && Blank(" ");
    assert " " + core + " " == " ALL ";
    TrimSpaceAround(" ", core, " ");
  }

  lemma LowerAllExample()
    ensures ToLower("ALL") == "all"
  {
    var l := ToLower("ALL");
    assert l[0] == LowerChar('A') == 'a';
    assert l[1] == LowerChar('L') == 'l';
    assert l[2] == LowerChar('L') == 'l';
  }

  /** CLIPBOARD without a clipboard service only reports that it is missing. */
  lemma ClipboardUnwired(w: Wiring, rawInput: string, arg: string, r: Replies)
    requires !w.clipboard
    ensures ClipboardEffect(w, rawInput, arg, r) == Effect([Notification(BobikError, ClipboardMissing)], None, KeepTimers)
  {
  }

  /** The trimmed argument selects the case: `read`, `note`, `write:` and anything else. */
  lemma ClipboardCases(w: Wiring, rawInput: string, arg: string, r: Replies)
    requires w.clipboard
    ensures var a := TrimSpace(arg);
            var e := ClipboardEffect(w, rawInput, arg, r);
            (a == "read" ==> e == ClipboardShow(w, rawInput, r.clipboardContent))
            && (a == "note" ==> e == ClipboardToNote(w, rawInput, r.clipboardContent, r.noteStored))
            && (HasPrefix(a, WritePrefix) ==> e == ClipboardStore(w, rawInput, TrimSpace(a[6..]), r.clipboardStored))
            && (a != "read" && a != "note" && !HasPrefix(a, WritePrefix)
                ==> e == Effect([Notification(Bobik, UnknownClipboardOp)], None, KeepTimers))
  {
    var a := TrimSpace(arg);
    if HasPrefix(a, WritePrefix) {
      assert a != "read" && a != "note" by {
        assert a[..6] == WritePrefix;
      }
      assert TrimPrefix(a, WritePrefix) == a[6..];
    }
  }

  /** `read` shows content over 100 characters as its first 100 plus "...", and remembers "Read clipboard". */
  lemma ClipboardShowTruncates(w: Wiring, rawInput: string, content: string)
    ensures var e := ClipboardShow(w, rawInput, Some(content));
            e.events[1] == Notification(ClipboardTitle, if |content| > 100 then content[..100] + "..." else content)
            && e.entry == Some(ContextEntry(rawInput, ReadClipboard))
  {
  }

  /** Every clipboard case remembers at most its success, and never touches the timers. */
  lemma ClipboardRemembersSuccessOnly(w: Wiring, rawInput: string, content: Option<string>, text: string, stored: bool)
    ensures ClipboardShow(w, rawInput, content).entry.Some? <==> content.Some?
    ensures ClipboardToNote(w, rawInput, content, stored).entry.Some? <==> content.Some? && content.value != "" && stored
    ensures ClipboardToNote(w, rawInput, content, stored).entry.Some? ==> NoteAppend(content.value) in ClipboardToNote(w, rawInput, content, stored).events
    ensures ClipboardStore(w, rawInput, text, stored).entry.Some? <==> stored
    ensures ClipboardShow(w, rawInput, content).timers == ClipboardToNote(w, rawInput, content, stored).timers
            == ClipboardStore(w, rawInput, text, stored).timers == KeepTimers
  {
  }

  /** CALC: an unwired calculator or any failure remembers nothing. */
  lemma CalcOutcomes(w: Wiring, rawInput: string, arg: string, arith: Arithmetic)
    ensures CalcEffect(w, rawInput, arg, arith).entry.Some? <==> w.calculator && Calculate(TrimSpace(arg), arith).Some?
    ensures CalcEffect(w, rawInput, arg, arith).timers == KeepTimers
  {
  }

  /** An argument `p%:v` computes `v*p/100`: the percentage form splits at its first `%:`. */
  lemma PercentageArgument(p: string, v: string, arith: Arithmetic)
    requires !Contains(p, PercentSeparator)
    requires arith.parseFloat(TrimSpace(p)).Some? && arith.parseFloat(TrimSpace(v)).Some?
    ensures Calculate(p + PercentSeparator + v, arith)
            == Some(Calc.Num(Calc.Percentage(arith.parseFloat(TrimSpace(p)).value, arith.parseFloat(TrimSpace(v)).value)))
  {
    SplitAtFirst(p, PercentSeparator, v);
  }

  /** Splitting `p%:v` at its first `%:`, when `p` holds none, gives back `p` and `v`. */
  lemma SplitAtFirst(p: string, sep: string, v: string)
    requires sep == PercentSeparator && !Contains(p, sep)
    ensures Contains(p + sep + v, sep)
    ensures SplitFirst(p + sep + v, sep) == [p, v]
  {
    var a := p + sep + v;
    assert a[|p|..|p| + 2] == sep;
    assert OccursAt(a, sep, |p|);
    var parts := SplitFirst(a, sep);
    var n := |parts[0]|;
    assert n <= |p|;
    assert OccursAt(a, sep, n) by {
      assert a == parts[0] + sep + parts[1];
      assert a[n..n + 2] == sep;
    }
    if n < |p| {
      NoEarlySeparator(p, sep, v, n);
    }
    assert parts[0] == a[..|p|] == p;
    assert parts[1] == a[|p| + 2..] == v;
  }

  /** No `%:` of `p%:v` starts inside `p` when `p` holds none. */
  lemma NoEarlySeparator(p: string, sep: string, v: string, k: nat)
    requires sep == PercentSeparator && !Contains(p, sep) && k < |p|
    ensures !OccursAt(p + sep + v, sep, k)
  {
    var a := p + sep + v;
    if k + 2 <= |p| {
      assert a[k..k + 2] == p[k..k + 2];
      assert !OccursAt(p, sep, k);
    } else {
      assert a[k + 1] == '%';
    }
  }

  /**
   * SCREEN: after a successful capture the screenshot is always cleaned up, as the very last call,
   * whether the vision model answers or fails; without a capture there is no cleanup at all.
   */
  lemma ScreenCleanupAlways(w: Wiring, rawInput: string, a: string, shot: Option<Shot>, vision: Option<string>)
    ensures var e := ScreenShot(w, rawInput, a, shot, vision);
            shot.Some? ==> e.events[|e.events| - 1] == ScreenCleanup(shot.value.path)
    ensures var e := ScreenShot(w, rawInput, a, shot, vision);
            shot.None? ==> forall p :: ScreenCleanup(p) !in e.events
    ensures var e := ScreenShot(w, rawInput, a, shot, vision);
            e.entry.Some? <==> shot.Some? && vision.Some?
  {
  }

  /** Without a screen or a vision service SCREEN only reports what is missing. */
  lemma ScreenGuards(w: Wiring, rawInput: string, arg: string, r: Replies)
    ensures !w.screen ==> ScreenEffect(w, rawInput, arg, r).entry == None
                          && ScreenEffect(w, rawInput, arg, r).events[0] == Notification(BobikError, ScreenMissing)
    ensures w.screen && !w.vision ==> ScreenEffect(w, rawInput, arg, r).entry == None
                                      && ScreenEffect(w, rawInput, arg, r).events[0] == Notification(BobikError, VisionMissing)
    ensures w.screen && w.vision ==> ScreenEffect(w, rawInput, arg, r) == ScreenShot(w, rawInput, ToLower(TrimSpace(arg)), r.shot, r.vision)
  {
  }

  /** SCREEN remembers the answer as shown: at most 200 characters plus "...". */
  lemma ScreenTruncation(w: Wiring, rawInput: string, response: string, path: string)
    ensures var answer := TrimSpace(response);
            AnalysisReport(w, rawInput, Some(response), path).entry == Some(ContextEntry(rawInput, ScreenAnalysis + Ellipsize(answer, 200)))
            && (|answer| <= 200 ==> Ellipsize(answer, 200) == answer)
            && (|answer| > 200 ==> |Ellipsize(answer, 200)| == 203 && Ellipsize(answer, 200)[..200] == answer[..200])
  {
  }

  /**
   * After a successful analysis the spoken report is the answer cut to 150 characters, present only
   * with a TTS service; "Секунду", spoken before the capture, is stated by `ScreenCaptureKind`.
   */
  lemma ScreenSpeech(w: Wiring, rawInput: string, response: string, path: string)
    ensures var e := AnalysisReport(w, rawInput, Some(response), path);
            var answer := TrimSpace(response);
            (forall t :: Speech(t) in e.events ==> t == TakeAtMost(answer, 150))
            && (w.tts <==> Speech(TakeAtMost(answer, 150)) in e.events)
  {
    var answer := TrimSpace(response);
    var pre := [Notification(ScreenTitle, Ellipsize(answer, 200))];
    var post := [ScreenCleanup(path)];
    assert AnalysisReport(w, rawInput, Some(response), path).events == pre + Spoken(w, TakeAtMost(answer, 150)) + post;
    OnlySpoken(pre, w, TakeAtMost(answer, 150), post);
  }

  /** Between calls that speak nothing, a `speak` call is the only speech. */
  lemma OnlySpoken(pre: seq<Event>, w: Wiring, text: string, post: seq<Event>)
    requires forall i :: 0 <= i < |pre| ==> !pre[i].Speech?
    requires forall i :: 0 <= i < |post| ==> !post[i].Speech?
    ensures forall t :: Speech(t) in pre + Spoken(w, text) + post ==> t == text
    ensures Speech(text) in pre + Spoken(w, text) + post <==> w.tts
  {
    var all := pre + Spoken(w, text) + post;
    forall t | Speech(t) in all
      ensures t == text
    {
      var i :| 0 <= i < |all| && all[i] == Speech(t);
    }
    if w.tts {
      assert all[|pre|] == Speech(text);
    }
  }

  /**
   * Before the capture the user is told a screenshot is being taken and, with a TTS service,
   * hears "Секунду"; then "window" uses the window capture, every other argument the full screen.
   */
  lemma ScreenCaptureKind(w: Wiring, a: string)
    ensures var o := ScreenOpening(w, a);
            |o| == (if w.tts then 3 else 2) && o[0] == Notification(Bobik, TakingShot)
            && (w.tts ==> o[1] == Speech(OneSecond))
            && o[|o| - 1] == (if a == "window" then WindowCapture else ScreenCapture)
  {
  }

  /** A cycle adds at most one memory entry, and only a dispatched one adds any. */
  lemma CommandRemembersAtMostOnce(w: Wiring, r: Replies, history: seq<ContextEntry>, activeTimers: nat)
    ensures var c := Command(w, r, history, activeTimers);
            |EntryList(c.effect.entry)| <= 1 && (c.effect.entry.Some? ==> c.drained)
  {
  }

  /** Only TIMER and CANCEL act on the timer registry. */
  lemma DispatchTimers(w: Wiring, text: string, action: string, arg: string, r: Replies, activeTimers: nat)
    ensures Dispatch(w, text, action, arg, r, activeTimers).timers
            == if action == "TIMER" then TimerEffect(w, text, arg).timers
               else if action == "CANCEL" then CancelEffect(w, text, arg, r.noteDeleted, activeTimers).timers
               else KeepTimers
  {
    ClipboardKeepsTimers(w, text, arg, r);
    CalcKeepsTimers(w, text, arg, r.arithmetic);
    ScreenKeepsTimers(w, text, arg, r);
  }

  lemma ClipboardKeepsTimers(w: Wiring, rawInput: string, arg: string, r: Replies)
    ensures ClipboardEffect(w, rawInput, arg, r).timers == KeepTimers
  {
    if w.clipboard {
      ClipboardOpKeepsTimers(w, rawInput, TrimSpace(arg), r);
    }
  }

  lemma ClipboardOpKeepsTimers(w: Wiring, rawInput: string, a: string, r: Replies)
    ensures ClipboardOp(w, rawInput, a, r).timers == KeepTimers
  {
    var show := ClipboardShow(w, rawInput, r.clipboardContent);
    var toNote := ClipboardToNote(w, rawInput, r.clipboardContent, r.noteStored);
    var store := ClipboardStore(w, rawInput, TrimSpace(TrimPrefix(a, WritePrefix)), r.clipboardStored);
    if a == "read" {
      assert ClipboardOp(w, rawInput, a, r) == show;
    } else if a == "note" {
      assert ClipboardOp(w, rawInput, a, r) == toNote;
    } else if HasPrefix(a, WritePrefix) {
      assert ClipboardOp(w, rawInput, a, r) == store;
    }
  }

  lemma CalcKeepsTimers(w: Wiring, rawInput: string, arg: string, arith: Arithmetic)
    ensures CalcEffect(w, rawInput, arg, arith).timers == KeepTimers
  {
  }

  lemma ScreenKeepsTimers(w: Wiring, rawInput: string, arg: string, r: Replies)
    ensures ScreenEffect(w, rawInput, arg, r).timers == KeepTimers
  {
  }

  // ---------------------------------------------------------------------------------------------
  // The orchestrator object

  class Orchestrator {
    const wiring: Wiring
    const memory: ContextMemory
    const timers: Timer.Timer
    const audio: AudioFeed.AudioQueue
    /** Every call made to an abstract collaborator, oldest first. */
    var trace: seq<Event>

    ghost predicate Valid()
      reads this, memory, audio
    {
      memory.Valid() && memory.maxSize >= 1 && audio.Valid()
    }

    constructor (wiring: Wiring, memory: ContextMemory, timers: Timer.Timer, audio: AudioFeed.AudioQueue)
      requires memory.Valid() && memory.maxSize >= 1 && audio.Valid()
      ensures Valid()
      ensures this.wiring == wiring && this.memory == memory && this.timers == timers && this.audio == audio
      ensures trace == []
    {
      this.wiring := wiring;
      this.memory := memory;
      this.timers := timers;
      this.audio := audio;
      trace := [];
    }

    method Notify(title: string, message: string)
      requires Valid()
      modifies this
      ensures Valid()
      ensures trace == old(trace) + [Notification(title, message)]
    {
      trace := trace + [Notification(title, message)];
    }

    /** `speak`. */
    method Speak(text: string)
      requires Valid()
      modifies this
      ensures Valid()
      ensures trace == old(trace) + Spoken(wiring, text)
    {
      if wiring.tts {
        trace := trace + [Speech(text)];
      }
    }

    method Signal(s: State)
      requires Valid()
      modifies this
      ensures Valid()
      ensures trace == old(trace) + Signalled(wiring, s)
    {
      if wiring.observer {
        trace := trace + [StateChange(s)];
      }
    }

    method Call(e: Event)
      requires Valid()
      modifies this
      ensures Valid()
      ensures trace == old(trace) + [e]
    {
      trace := trace + [e];
    }

    method Remember(command: string, action: string)
      requires Valid()
      modifies memory
      ensures Valid()
      ensures memory.added == old(memory.added) + [ContextEntry(command, action)]
    {
      memory.Add(command, action);
    }

    /** `handleNoteAction`; `stored` is the note store's answer. */
    method HandleNote(rawInput: string, arg: string, stored: bool)
      requires Valid()
      modifies this, memory
      ensures Valid()
      ensures var e := NoteEffect(wiring, rawInput, arg, stored);
              trace == old(trace) + e.events && memory.added == old(memory.added) + EntryList(e.entry)
    {
      var isUpdate := false;
      var noteContent := arg;
      if HasPrefix(arg, UpdatePrefix) {
        isUpdate := true;
        noteContent := TrimPrefix(arg, UpdatePrefix);
        noteContent := TrimSpace(noteContent);
      }
      ghost var e := NoteEffect(wiring, rawInput, arg, stored);
      assert noteContent == NoteContent(arg);
      ghost var call := if isUpdate then NoteRewrite(noteContent) else NoteAppend(noteContent);
      if isUpdate {
        Call(NoteRewrite(noteContent));
      } else {
        Call(NoteAppend(noteContent));
      }
      assert trace == old(trace) + [call];
      if !stored {
        Notify(BobikError, NoteSaveFailed);
        assert e.events == [call, Notification(BobikError, NoteSaveFailed)];
        return;
      }
      var actionDesc := SavedNote;
      if isUpdate {
        actionDesc := UpdatedNote;
      }
      Remember(rawInput, actionDesc + ": " + noteContent);
      Notify(Bobik, NoteSaved);
      Speak(NoteWritten);
    }

    /** `handleTimerAction`. */
    method HandleTimer(rawInput: string, arg: string)
      requires Valid()
      modifies this, memory, timers
      ensures Valid()
      ensures var e := TimerEffect(wiring, rawInput, arg);
              trace == old(trace) + e.events && memory.added == old(memory.added) + EntryList(e.entry)
              && timers.active == ApplyTimerOp(old(timers.active), e.timers) && timers.fired == old(timers.fired)
    {
      var seconds := Atoi(arg);
      if seconds.None? {
        Notify(BobikError, TimeError);
        return;
      }
      var duration := Wrap64(seconds.value * NanosPerSecond);
      timers.Start(VoiceTimer, duration);
      Remember(rawInput, "Set timer for " + IntToString(seconds.value) + " seconds");
      Notify(Bobik, "Таймер запущен на " + IntToString(seconds.value) + " сек");
      Speak(TimerStarted);
    }

    /** `handleTimeAction`; `currentTime` is what the clock reports. */
    method HandleTime(rawInput: string, currentTime: string)
      requires Valid()
      modifies this, memory
      ensures Valid()
      ensures var e := TimeEffect(wiring, rawInput, currentTime);
              trace == old(trace) + e.events && memory.added == old(memory.added) + EntryList(e.entry)
    {
      Notify(TimeTitle, currentTime);
      Speak(NowPrefix + currentTime);
      Remember(rawInput, ReportedTime);
    }

    /** `handleCancelAction`; `deleted` is the note store's answer to `DeleteLastNote`. */
    method HandleCancel(rawInput: string, arg: string, deleted: bool, ghost activeTimers: nat)
      requires Valid() && activeTimers == |timers.active|
      modifies this, memory, timers
      ensures Valid()
      ensures var e := CancelEffect(wiring, rawInput, arg, deleted, activeTimers);
              trace == old(trace) + e.events && memory.added == old(memory.added) + EntryList(e.entry)
              && timers.active == ApplyTimerOp(old(timers.active), e.timers) && timers.fired == old(timers.fired)
    {
      var cancelled := CancelItems(arg, deleted, activeTimers);
      ghost var calls := trace[|old(trace)|..];
      ghost var report := CancelReport(wiring, rawInput, cancelled);
      ReportCancellation(rawInput, cancelled);
      AppendAssoc(old(trace), calls, report.events);
    }

    /** The deletion and the stopping of timers that `handleCancelAction` asks for, and what they cancelled. */
    method CancelItems(arg: string, deleted: bool, ghost activeTimers: nat) returns (cancelled: seq<string>)
      requires Valid() && activeTimers == |timers.active|
      modifies this, timers
      ensures Valid()
      ensures cancelled == Cancelled(arg, deleted, activeTimers)
      ensures trace == old(trace) + (if CancelsNote(arg) then [NoteDelete] else [])
      ensures timers.active == (if CancelsTimers(arg) then map[] else old(timers.active)) && timers.fired == old(timers.fired)
    {
      var a := ToLower(TrimSpace(arg));
      cancelled := [];
      if a == "note" || a == "all" {
        Call(NoteDelete);
        if deleted {
          cancelled := cancelled + [NoteItem];
        }
      }
      if a == "timer" || a == "all" {
        var count := timers.CancelAll();
        if count > 0 {
          cancelled := cancelled + [NatToString(count) + TimersSuffix];
        }
      }
    }

    /** The message at the end of `handleCancelAction`. */
    method ReportCancellation(rawInput: string, cancelled: seq<string>)
      requires Valid()
      modifies this, memory
      ensures Valid()
      ensures var e := CancelReport(wiring, rawInput, cancelled);
              trace == old(trace) + e.events && memory.added == old(memory.added) + EntryList(e.entry)
    {
      if |cancelled| == 0 {
        Notify(Bobik, NothingToCancel);
        Speak(NothingToCancel);
        return;
      }
      var msg := CancelledPrefix + Join(cancelled, ", ");
      Remember(rawInput, msg);
      Notify(Bobik, msg);
      Speak(CancelledText);
    }

    /** `handleClipboardAction`; `r` holds the clipboard's and the note store's answers. */
    method HandleClipboard(rawInput: string, arg: string, r: Replies)
      requires Valid()
      modifies this, memory
      ensures Valid()
      ensures var e := ClipboardEffect(wiring, rawInput, arg, r);
              trace == old(trace) + e.events && memory.added == old(memory.added) + EntryList(e.entry)
    {
      if !wiring.clipboard {
        Notify(BobikError, ClipboardMissing);
        return;
      }
      var a := TrimSpace(arg);
      RunClipboardOp(rawInput, a, r);
    }

    /** The `switch` of `handleClipboardAction` on the trimmed argument `a`. */
    method RunClipboardOp(rawInput: string, a: string, r: Replies)
      requires Valid()
      modifies this, memory
      ensures Valid()
      ensures var e := ClipboardOp(wiring, rawInput, a, r);
              trace == old(trace) + e.events && memory.added == old(memory.added) + EntryList(e.entry)
    {
      if a == "read" {
        ShowClipboard(rawInput, r.clipboardContent);
      } else if a == "note" {
        ClipboardIntoNote(rawInput, r.clipboardContent, r.noteStored);
      } else if HasPrefix(a, WritePrefix) {
        var content := TrimPrefix(a, WritePrefix);
        content := TrimSpace(content);
        StoreClipboard(rawInput, content, r.clipboardStored);
      } else {
        Notify(Bobik, UnknownClipboardOp);
      }
    }

    /** The `read` case. */
    method ShowClipboard(rawInput: string, content: Option<string>)
      requires Valid()
      modifies this, memory
      ensures Valid()
      ensures var e := ClipboardShow(wiring, rawInput, content);
              trace == old(trace) + e.events && memory.added == old(memory.added) + EntryList(e.entry)
    {
      Call(ClipboardRead);
      if content.None? {
        Notify(BobikError, ClipboardReadFailed);
        return;
      }
      var display := content.value;
      if |display| > 100 {
        display := display[..100] + "...";
      }
      Notify(ClipboardTitle, display);
      Speak(InClipboard + display);
      Remember(rawInput, ReadClipboard);
    }

    /** The `note` case; `stored` is the note store's answer. */
    method ClipboardIntoNote(rawInput: string, content: Option<string>, stored: bool)
      requires Valid()
      modifies this, memory
      ensures Valid()
      ensures var e := ClipboardToNote(wiring, rawInput, content, stored);
              trace == old(trace) + e.events && memory.added == old(memory.added) + EntryList(e.entry)
    {
      Call(ClipboardRead);
      if content.None? {
        Notify(BobikError, ClipboardReadFailed);
        return;
      }
      var c := content.value;
      if c == "" {
        Notify(Bobik, ClipboardEmpty);
        return;
      }
      Call(NoteAppend(c));
      if !stored {
        Notify(BobikError, ClipboardNoteFailed);
        return;
      }
      Notify(Bobik, ClipboardNoted);
      Speak(Saved);
      Remember(rawInput, SavedClipboard);
    }

    /** The `write:` case; `stored` is the clipboard's answer. */
    method StoreClipboard(rawInput: string, content: string, stored: bool)
      requires Valid()
      modifies this, memory
      ensures Valid()
      ensures var e := ClipboardStore(wiring, rawInput, content, stored);
              trace == old(trace) + e.events && memory.added == old(memory.added) + EntryList(e.entry)
    {
      Call(ClipboardWrite(content));
      if !stored {
        Notify(BobikError, ClipboardWriteFailed);
        return;
      }
      Notify(Bobik, ClipboardWritten);
      Speak(Copied);
      Remember(rawInput, WroteClipboard + content);
    }

    /** `handleCalcAction`; `arith` holds the calculator's pure collaborators. */
    method HandleCalc(rawInput: string, arg: string, arith: Arithmetic)
      requires Valid()
      modifies this, memory
      ensures Valid()
      ensures var e := CalcEffect(wiring, rawInput, arg, arith);
              trace == old(trace) + e.events && memory.added == old(memory.added) + EntryList(e.entry)
    {
      if !wiring.calculator {
        Notify(BobikError, CalcMissing);
        return;
      }
      var a := TrimSpace(arg);
      var result: Calc.Value := Calc.Num(0.0);
      var failed := false;
      if Contains(a, PercentSeparator) {
        var parts := SplitFirst(a, PercentSeparator);
        if |parts| == 2 {
          var percent := arith.parseFloat(TrimSpace(parts[0]));
          var value := arith.parseFloat(TrimSpace(parts[1]));
          if percent.Some? && value.Some? {
            result := Calc.Num(Calc.Percentage(percent.value, value.value));
          } else {
            failed := true;
          }
        }
      } else {
        var evaluated := Calc.Eval(a, arith.parse, arith.parseFloat);
        if evaluated.Ok? {
          result := evaluated.value;
        } else {
          failed := true;
        }
      }
      assert failed <==> Calculate(a, arith).None?;
      assert !failed ==> Calculate(a, arith) == Some(result);
      ReportCalculation(rawInput, a, if failed then None else Some(result), arith.format);
    }

    /** The report at the end of `handleCalcAction`. */
    method ReportCalculation(rawInput: string, a: string, result: Option<Calc.Value>, format: Calc.Value -> string)
      requires Valid()
      modifies this, memory
      ensures Valid()
      ensures var e := CalcReport(wiring, rawInput, a, result, format);
              trace == old(trace) + e.events && memory.added == old(memory.added) + EntryList(e.entry)
    {
      if result.None? {
        Notify(BobikError, CalcFailed);
        Speak(CannotCount);
        return;
      }
      var formatted := format(result.value);
      Notify(ResultTitle, formatted);
      Speak(formatted);
      Remember(rawInput, "Calculated: " + a + " = " + formatted);
    }

    /** `handleScreenAction`; `r` holds the screen's and the vision model's answers. */
    method HandleScreen(rawInput: string, arg: string, r: Replies)
      requires Valid()
      modifies this, memory
      ensures Valid()
      ensures var e := ScreenEffect(wiring, rawInput, arg, r);
              trace == old(trace) + e.events && memory.added == old(memory.added) + EntryList(e.entry)
    {
      if !wiring.screen {
        Notify(BobikError, ScreenMissing);
        Speak(ScreenMissing);
        return;
      }
      if !wiring.vision {
        Notify(BobikError, VisionMissing);
        Speak(VisionMissing);
        return;
      }
      var a := ToLower(TrimSpace(arg));
      TakeShot(rawInput, a, r.shot, r.vision);
    }

    /** `handleScreenAction` after its guards, `a` being the lower-cased trimmed argument. */
    method TakeShot(rawInput: string, a: string, shot: Option<Shot>, vision: Option<string>)
      requires Valid()
      modifies this, memory
      ensures Valid()
      ensures var e := ScreenShot(wiring, rawInput, a, shot, vision);
              trace == old(trace) + e.events && memory.added == old(memory.added) + EntryList(e.entry)
    {
      Notify(Bobik, TakingShot);
      Speak(OneSecond);
      if a == "window" {
        Call(WindowCapture);
      } else {
        Call(ScreenCapture);
      }
      AppendAssoc(old(trace), [Notification(Bobik, TakingShot)], Spoken(wiring, OneSecond));
      AppendAssoc(old(trace), [Notification(Bobik, TakingShot)] + Spoken(wiring, OneSecond),
                  [if a == "window" then WindowCapture else ScreenCapture]);
      ghost var opening := trace;
      if shot.None? {
        Notify(BobikError, ShotFailed);
        Speak(ShotFailed);
        AppendAssoc(opening, [Notification(BobikError, ShotFailed)], Spoken(wiring, ShotFailed));
        AppendAssoc(old(trace), ScreenOpening(wiring, a), [Notification(BobikError, ShotFailed)] + Spoken(wiring, ShotFailed));
        return;
      }
      AnalyseShot(rawInput, a, shot.value, vision);
      AppendAssoc(old(trace), ScreenOpening(wiring, a), ShotAnalysis(wiring, rawInput, a, shot.value, vision).events);
    }

    /** Everything after a successful capture, the deferred `Cleanup` included. */
    method AnalyseShot(rawInput: string, a: string, s: Shot, vision: Option<string>)
      requires Valid()
      modifies this, memory
      ensures Valid()
      ensures var e := ShotAnalysis(wiring, rawInput, a, s, vision);
              trace == old(trace) + e.events && memory.added == old(memory.added) + EntryList(e.entry)
    {
      var visionPrompt := DescribePrompt;
      if a == "read" {
        visionPrompt := ReadPrompt;
      } else if a == "window" {
        visionPrompt := WindowPrompt;
      }
      Notify(Bobik, Analysing);
      Call(VisionRequest(visionPrompt, s.image));
      AppendTwo(old(trace), Notification(Bobik, Analysing), VisionRequest(visionPrompt, s.image));
      assert visionPrompt == VisionPrompt(a);
      ReportAnalysis(rawInput, vision, s.path);
      AppendAssoc(old(trace), [Notification(Bobik, Analysing), VisionRequest(visionPrompt, s.image)],
                  AnalysisReport(wiring, rawInput, vision, s.path).events);
    }

    /** What `handleScreenAction` does with the vision model's answer, `Cleanup` last. */
    method ReportAnalysis(rawInput: string, vision: Option<string>, path: string)
      requires Valid()
      modifies this, memory
      ensures Valid()
      ensures var e := AnalysisReport(wiring, rawInput, vision, path);
              trace == old(trace) + e.events && memory.added == old(memory.added) + EntryList(e.entry)
    {
      if vision.None? {
        Notify(BobikError, AnalysisFailed);
        Speak(CouldNotAnalyse);
        Call(ScreenCleanup(path));
        AppendAssoc(old(trace), [Notification(BobikError, AnalysisFailed)], Spoken(wiring, CouldNotAnalyse));
        AppendAssoc(old(trace), [Notification(BobikError, AnalysisFailed)] + Spoken(wiring, CouldNotAnalyse), [ScreenCleanup(path)]);
        return;
      }
      var response := TrimSpace(vision.value);
      var displayText := response;
      if |displayText| > 200 {
        displayText := displayText[..200] + "...";
      }
      Notify(ScreenTitle, displayText);
      var speakText := response;
      if |speakText| > 150 {
        speakText := speakText[..150];
      }
      Speak(speakText);
      Remember(rawInput, ScreenAnalysis + displayText);
      Call(ScreenCleanup(path));
      AppendAssoc(old(trace), [Notification(ScreenTitle, displayText)], Spoken(wiring, speakText));
      AppendAssoc(old(trace), [Notification(ScreenTitle, displayText)] + Spoken(wiring, speakText), [ScreenCleanup(path)]);
    }

    /** The `switch action` of `handleCommand`. */
    method DispatchAction(text: string, action: string, arg: string, r: Replies, ghost activeTimers: nat)
      requires Valid() && activeTimers == |timers.active|
      modifies this, memory, timers
      ensures Valid()
      ensures var e := Dispatch(wiring, text, action, arg, r, activeTimers);
              trace == old(trace) + e.events && memory.added == old(memory.added) + EntryList(e.entry)
              && timers.active == ApplyTimerOp(old(timers.active), e.timers) && timers.fired == old(timers.fired)
    {
      DispatchTimers(wiring, text, action, arg, r, activeTimers);
      if action == "NOTE" {
        HandleNote(text, arg, r.noteStored);
      } else if action == "TIMER" {
        HandleTimer(text, arg);
      } else if action == "TIME" {
        HandleTime(text, r.clock);
      } else if action == "CANCEL" {
        HandleCancel(text, arg, r.noteDeleted, activeTimers);
      } else if action == "CLIPBOARD" {
        HandleClipboard(text, arg, r);
      } else if action == "CALC" {
        HandleCalc(text, arg, r.arithmetic);
      } else if action == "SCREEN" {
        HandleScreen(text, arg, r);
      } else {
        Notify(Bobik, NotUnderstood);
      }
    }

    /**
     * `handleCommand`: one command after the wake word. `Transcribe` takes its frames off the audio
     * channel and its transcript replaces `r.transcript`; `r` holds every other collaborator's answers.
     * The frames it did not take stay queued unless the cycle reaches the drain.
     */
    method HandleCommand(h: Hearing, r: Replies)
      requires Valid()
      modifies this, memory, timers, audio
      ensures Valid()
      ensures var c := Command(wiring, r.(transcript := Transcript(old(audio.frames), h)), old(memory.entries), |old(timers.active)|);
              trace == old(trace) + c.effect.events
              && memory.added == old(memory.added) + EntryList(c.effect.entry)
              && timers.active == ApplyTimerOp(old(timers.active), c.effect.timers)
              && timers.fired == old(timers.fired)
              && audio.frames == (if c.drained then [] else old(audio.frames)[Heard(old(audio.frames), h)..])
    {
      Signal(Listening);
      Notify(Bobik, ListeningText);
      AppendAssoc(old(trace), Signalled(wiring, Listening), [Notification(Bobik, ListeningText)]);
      var transcript := Listen(h);
      var said := r.(transcript := transcript);
      if transcript.None? {
        return;
      }
      var text := TrimSpace(transcript.value);
      if text == "" {
        return;
      }
      ghost var x := Exchange(wiring, said, memory.entries, text, |timers.active|);
      Converse(text, said, |timers.active|);
      AppendAssoc(old(trace), Opening(wiring), x.effect.events);
    }

    /** `o.STT.Transcribe(audioChan)`: the frames it takes off the channel, and its transcript. */
    method Listen(h: Hearing) returns (transcript: Option<string>)
      requires Valid()
      modifies audio
      ensures Valid()
      ensures transcript == Transcript(old(audio.frames), h)
      ensures audio.frames == old(audio.frames)[Heard(old(audio.frames), h)..]
    {
      var heard := audio.ReceiveMany(Heard(audio.frames, h));
      var text, failed := Stt.Transcribe(heard, h.end, h.created, h.recognise, h.finalResult);
      transcript := if failed then None else Some(text);
    }

    /** `handleCommand` from the request to the LLM on, for the non-empty trimmed transcript `text`. */
    method Converse(text: string, r: Replies, ghost activeTimers: nat)
      requires Valid() && activeTimers == |timers.active|
      modifies this, memory, timers, audio
      ensures Valid()
      ensures var x := Exchange(wiring, r, old(memory.entries), text, activeTimers);
              trace == old(trace) + x.effect.events
              && memory.added == old(memory.added) + EntryList(x.effect.entry)
              && timers.active == ApplyTimerOp(old(timers.active), x.effect.timers)
              && timers.fired == old(timers.fired)
              && audio.frames == (if x.drained then [] else old(audio.frames))
    {
      var history := Ask(text);
      if r.llmOutput.None? {
        Notify(BobikError, LlmFailed);
        AppendAssoc(old(trace), Request(wiring, history, text), [Notification(BobikError, LlmFailed)]);
        return;
      }
      ghost var parsed := ParseLLMOutput(r.llmOutput.value);
      ghost var e := Dispatch(wiring, text, parsed.0, parsed.1, r, activeTimers);
      ghost var x := Exchange(wiring, r, history, text, activeTimers);
      assert x == Cycle(Effect(Request(wiring, history, text) + e.events, e.entry, e.timers), true);
      Respond(text, r.llmOutput.value, r, activeTimers);
      AppendAssoc(old(trace), Request(wiring, history, text), e.events);
      assert trace == old(trace) + x.effect.events;
    }

    /** The thinking signal, then the request carrying the formatted context and the command. */
    method Ask(text: string) returns (history: seq<ContextEntry>)
      requires Valid()
      modifies this
      ensures Valid()
      ensures history == memory.entries
      ensures trace == old(trace) + Request(wiring, history, text)
    {
      Signal(Thinking);
      history := memory.GetHistory();
      var contextStr := ContextString(history);
      Call(LlmRequest(contextStr, text));
      AppendAssoc(old(trace), Signalled(wiring, Thinking), [LlmRequest(contextStr, text)]);
    }

    /** The end of `handleCommand`: the parsed answer is dispatched, then the audio channel drained. */
    method Respond(text: string, output: string, r: Replies, ghost activeTimers: nat)
      requires Valid() && activeTimers == |timers.active|
      modifies this, memory, timers, audio
      ensures Valid()
      ensures var parsed := ParseLLMOutput(output);
              var e := Dispatch(wiring, text, parsed.0, parsed.1, r, activeTimers);
              trace == old(trace) + e.events
              && memory.added == old(memory.added) + EntryList(e.entry)
              && timers.active == ApplyTimerOp(old(timers.active), e.timers)
              && timers.fired == old(timers.fired)
              && audio.frames == []
    {
      var parsed := ParseLLMOutput(output);
      DispatchAction(text, parsed.0, parsed.1, r, activeTimers);
      assert trace == old(trace) + Dispatch(wiring, text, parsed.0, parsed.1, r, activeTimers).events;
      ghost var t := trace;
      audio.Drain();
      assert trace == t;
    }

    /**
     * One turn of `Start`'s loop: `ListenForWakeWord` takes frames off the audio channel, and a
     * detection runs `handleCommand` on the frames left, then signals Idle. A recogniser that cannot
     * be created takes nothing and the loop goes round again; without a detection the channel was
     * closed and every frame consumed.
     */
    method AfterWakeWord(h: Hearing, r: Replies)
      requires Valid()
      modifies this, memory, timers, audio
      ensures Valid()
      ensures var (detected, n) := Stt.Wake(old(audio.frames), h.wakeCreated, h.wakeRecognise, WakeWord);
              !detected ==> trace == old(trace) && memory.added == old(memory.added)
                            && timers.active == old(timers.active) && audio.frames == old(audio.frames)[n..]
      ensures var (detected, n) := Stt.Wake(old(audio.frames), h.wakeCreated, h.wakeRecognise, WakeWord);
              var rest := old(audio.frames)[n..];
              detected ==>
              var c := Command(wiring, r.(transcript := Transcript(rest, h)), old(memory.entries), |old(timers.active)|);
              trace == old(trace) + c.effect.events + Signalled(wiring, Idle)
              && memory.added == old(memory.added) + EntryList(c.effect.entry)
              && timers.active == ApplyTimerOp(old(timers.active), c.effect.timers)
              && audio.frames == (if c.drained then [] else rest[Heard(rest, h)..])
      ensures timers.fired == old(timers.fired)
    {
      var detected, failed, consumed := Stt.ListenForWakeWord(audio.frames, h.wakeCreated, h.wakeRecognise, WakeWord);
      var _ := audio.ReceiveMany(consumed);
      if detected {
        HandleCommand(h, r);
        Signal(Idle);
      }
    }
  }

  /** The `contextStr` loop of `handleCommand`. */
  method ContextString(history: seq<ContextEntry>) returns (s: string)
    ensures s == ContextBlock(history)
  {
    s := "";
    var i := 0;
    while i < |history|
      invariant 0 <= i <= |history|
      invariant s + ContextBlock(history[i..]) == ContextBlock(history)
    {
      assert history[i..][1..] == history[i + 1..];
      s := s + (ContextLine(history[i]) + "\n");
      i := i + 1;
    }
    assert history[i..] == [];
  }
}
