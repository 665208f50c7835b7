# hey-bobik, modelled in Dafny

Bobik is a voice assistant for the Linux desktop. A recorder goroutine feeds 16-bit audio frames into a bounded
channel. The recogniser waits for the wake phrase "эй бобик" and then transcribes the command. A local language model
is asked to answer in the form `ACTION: X | ARG: Y`, and the orchestrator dispatches the parsed action to one of seven
tools:
- NOTE: the daily note in an Obsidian vault;
- TIMER: a named countdown;
- TIME: the clock;
- CANCEL: undo the last note and/or stop the timers;
- CLIPBOARD: read, write, or copy into a note;
- CALC: a calculator;
- SCREEN: a screenshot read by a vision model.

A short rolling memory of (command, action) pairs feeds the next prompt.

This project models the orchestrator's command cycle and the decision rules of the tool packages, and proves what they
promise. It has one module per Go file:

| module | Go file | form |
|---|---|---|
| `OrchestratorContext` | internal/orchestrator/context.go | class `ContextMemory` over a `seq`, with a ghost record of every add |
| `Orchestrator` | internal/orchestrator/orchestrator.go | parser and per-handler effects as functions; class `Orchestrator` whose methods follow `handleCommand` and the `handle*Action` methods step by step |
| `AudioFeed` | internal/orchestrator/orchestrator.go (the channel) | class `AudioQueue`: non-blocking publish and drain |
| `Timer` | internal/tools/timer/timer.go | class `Timer` over the `active` map; firing is the explicit event `Fire` |
| `Obsidian` | internal/tools/obsidian/obsidian.go | class `Vault` over a map from path to content; methods proved equal to the functions `Appended`/`Rewritten` |
| `Calc` | internal/tools/calc/calc.go | pure: `Preprocess` and the recursive `EvalAST` over an expression datatype |
| `Stt` | internal/stt/stt.go | methods with loops over the frames received, against an abstract recogniser |
| `Logger` | internal/logger/logger.go | pure level functions; classes `Logger` and `Sink` for the global logger and writers |
| `Config` | internal/config/config.go | pure `Default` and `ApplyEnvOverrides`; `Load` as a loop with `break` |
| `Screen`, `Clipboard`, `Tts` | internal/tools/{screen,clipboard,tts} | pure tool selection and argument vectors; clipboard read/write as methods on a `Board` |

`Basics` (Option), `Text` (Go's `strings` functions, including `TrimSpace` with Go's Unicode notion of white space)
and `Numerals` (`strconv.Atoi`, `%d`, 64-bit wrap-around) are the small libraries the modules share.

The collaborators are modelled as follows:
- **Orchestrator calls.** Every call the orchestrator makes to an abstract collaborator is appended to its `trace`, in
  order. These are the notifier, `speak`, `OnStateChange`, the note store, the clipboard, the screen, the vision model
  and the LLM. What the collaborators answer during one cycle is a `Replies` value.
- **Concrete objects.** The context memory, the timer registry and the audio channel are the objects of the other modules.
- **Installed tools.** Executables found by `exec.LookPath` are a set `installed`.
- **Files.** Files are maps from paths to contents.
- **Environment.** The environment is a map from variable names to values.
- **Inputs.** The clock, the home and temporary directories, and base64 encoding are inputs. So are the command and
  file-system outcomes.

## Model

| member | source | states |
|---|---|---|
| OrchestratorContext.ContextMemory.constructor | internal/orchestrator/context.go:21-26 | a fresh memory is valid and has an empty history and nothing added |
| OrchestratorContext.ContextMemory.Add | internal/orchestrator/context.go:29-38 | the entry is recorded as added; memory stays the window of the last `maxSize` adds; requires `maxSize >= 1` (the Go slice `entries[1:]` panics for 0) |
| OrchestratorContext.Push | internal/orchestrator/context.go:33-37 | the new pair is last; length stays within `maxSize`; below capacity nothing is dropped, at capacity exactly the oldest entry is |
| OrchestratorContext.WindowPush | internal/orchestrator/context.go:33-37 | one push on the window of the adds so far gives the window of the adds including the new one |
| OrchestratorContext.PushAllWindow | internal/orchestrator/context.go:29-38 | any number of adds from a window state leaves the window (last `maxSize`) of everything added, oldest first |
| OrchestratorContext.FreshPushAll | internal/orchestrator/context.go:21-38 | from a fresh memory, M ≤ C adds give exactly the added pairs in order; M > C adds give the last C |
| OrchestratorContext.Window | internal/orchestrator/context.go:33-37 | the window is a suffix of the adds, of length min(M, C) |
| OrchestratorContext.ContextMemory.GetHistory | internal/orchestrator/context.go:41-48 | returns the entries (a value: later adds cannot change it); at most `maxSize`; all adds while under capacity, otherwise the last `maxSize` |
| AudioFeed.Publish | internal/orchestrator/orchestrator.go:207-211 | a full queue is left unchanged (frame dropped), otherwise the frame is appended at the tail; the bound is kept |
| AudioFeed.PublishKeepsPrefix | internal/orchestrator/orchestrator.go:207-211 | a publish never reorders or alters queued frames: the old queue is a prefix of the new |
| AudioFeed.AudioQueue.TryPublish | internal/orchestrator/orchestrator.go:207-211 | reports sent iff the queue was below capacity; new queue is `Publish` of the old |
| AudioFeed.AudioQueue.Receive | internal/orchestrator/orchestrator.go:311 | takes the oldest frame off a non-empty queue |
| AudioFeed.AudioQueue.ReceiveMany | internal/stt/stt.go:48-92 | the receives of the recogniser loops: `n` receives give the `n` oldest frames in order and leave the rest queued |
| AudioFeed.AudioQueue.Drain | internal/orchestrator/orchestrator.go:310-312 | the loop leaves the queue empty |
| Orchestrator.Field | internal/orchestrator/orchestrator.go:322-327 | a segment is a field iff its trimmed text contains `:`; key and value come out trimmed |
| Orchestrator.ParseLLMOutput | internal/orchestrator/orchestrator.go:315-336 | the parser as the loop over the `\|`-segments; `ParseLLMOutputMeaning` states what it computes |
| Orchestrator.ParseLLMOutputMeaning | internal/orchestrator/orchestrator.go:315-336 | the action is the value of the last `ACTION` segment and the argument that of the last `ARG` segment, each "" when absent |
| Orchestrator.ScanIsLastValue | internal/orchestrator/orchestrator.go:321-334 | the loop over the segments computes the last value of each key |
| Orchestrator.ScanSnoc | internal/orchestrator/orchestrator.go:321-334 | one more segment is one more loop step on the result so far |
| Orchestrator.ParseIgnoresSegmentWithoutColon | internal/orchestrator/orchestrator.go:323-325 | appending a segment with no `:` does not change the parse |
| Orchestrator.FieldWithoutColon | internal/orchestrator/orchestrator.go:322-325 | a segment without `:` is no field |
| Orchestrator.FieldSplit | internal/orchestrator/orchestrator.go:322-327 | a segment is split only at its first `:`; the rest keeps any later `:` |
| Orchestrator.ParseLastActionWins | internal/orchestrator/orchestrator.go:329-330 | a repeated `ACTION` key takes its last value |
| Orchestrator.ParseActionArg | internal/orchestrator/orchestrator.go:315-336 | the prompted format `ACTION: a \| ARG: b` reads back as (a, b), so `ARG: UPDATE: x` keeps `UPDATE: x` |
| Orchestrator.ContextBlock | internal/orchestrator/orchestrator.go:263-267 | the context string is empty iff the history is |
| Orchestrator.ContextBlockLines | internal/orchestrator/orchestrator.go:265-267 | the context block splits into exactly one `- Команда: …, Действие: …` line per entry, in order |
| Orchestrator.ContextString | internal/orchestrator/orchestrator.go:264-267 | the builder loop produces the context block |
| Orchestrator.CommandOpens | internal/orchestrator/orchestrator.go:240-243 | every cycle starts by signalling Listening and notifying "Listening..." |
| Orchestrator.CommandEarlyOutcomes | internal/orchestrator/orchestrator.go:246-281 | a failed or blank transcript stops before Thinking with no LLM call; an LLM error notifies "LLM failed"; neither dispatches, remembers, touches timers or drains |
| Orchestrator.CommandDrains | internal/orchestrator/orchestrator.go:289-312 | the audio queue is drained exactly when an LLM answer was dispatched |
| Orchestrator.CommandDispatches | internal/orchestrator/orchestrator.go:258-312 | with a non-blank transcript and an answer, the cycle is Thinking, the request, then the dispatched handler's effect |
| Orchestrator.NoActionNotUnderstood | internal/orchestrator/orchestrator.go:289-335 | an answer without an `ACTION` field reaches the default branch: "Не понял команду", nothing remembered |
| Orchestrator.DefaultBranch | internal/orchestrator/orchestrator.go:304-306 | the empty action notifies "Не понял команду" and changes nothing else |
| Orchestrator.CommandRemembersAtMostOnce | internal/orchestrator/orchestrator.go:289-307 | a cycle adds at most one memory entry, and only a dispatched cycle adds one |
| Orchestrator.DispatchTimers | internal/orchestrator/orchestrator.go:289-307 | only TIMER and CANCEL act on the timer registry |
| Orchestrator.NoteOutcomes | internal/orchestrator/orchestrator.go:338-367 | `UPDATE:` rewrites with the trimmed remainder and remembers "Updated last note: …"; otherwise it appends the argument and remembers "Saved note: …"; a storage error remembers nothing |
| Orchestrator.TimerOutcomes | internal/orchestrator/orchestrator.go:369-383 | a non-integer argument notifies "Ошибка времени" and starts nothing; an integer N starts "Голосовой таймер" for N×1s (64-bit) and remembers "Set timer for N seconds" |
| Orchestrator.TimerDurationExact | internal/orchestrator/orchestrator.go:370-378 | for arguments within ±9·10⁹ seconds the duration is exactly seconds×10⁹ ns |
| Orchestrator.TimeOutcome | internal/orchestrator/orchestrator.go:385-390 | TIME notifies the clock and remembers "Reported current time" |
| Orchestrator.CancelOutcomes | internal/orchestrator/orchestrator.go:392-424 | only note/all delete, only timer/all stop all timers; an entry is remembered iff something was cancelled, otherwise "Нечего отменять" |
| Orchestrator.CancelUnknownArgument | internal/orchestrator/orchestrator.go:393-418 | any other argument cancels nothing and remembers nothing |
| Orchestrator.CancelAllMessage | internal/orchestrator/orchestrator.go:398-421 | `all` with a deleted note and N timers remembers "Отменено: заметка, N таймер(ов)" |
| Orchestrator.AllInAnyCase | internal/orchestrator/orchestrator.go:393 | the argument is trimmed and lower-cased: " ALL " cancels both |
| Orchestrator.ClipboardUnwired | internal/orchestrator/orchestrator.go:427-430 | without a clipboard service only "Буфер обмена недоступен" is notified |
| Orchestrator.ClipboardCases | internal/orchestrator/orchestrator.go:432-485 | the trimmed argument selects read, note, `write:` (trimmed remainder) or the unknown-operation notice |
| Orchestrator.ClipboardShowTruncates | internal/orchestrator/orchestrator.go:443-449 | content over 100 characters is shown as its first 100 plus "..."; "Read clipboard" is remembered |
| Orchestrator.ClipboardRemembersSuccessOnly | internal/orchestrator/orchestrator.go:435-481 | each clipboard case remembers only on success; an empty clipboard is not noted; timers untouched |
| Orchestrator.CalcOutcomes | internal/orchestrator/orchestrator.go:488-527 | CALC remembers iff a calculator is wired and the computation succeeds |
| Orchestrator.PercentageArgument | internal/orchestrator/orchestrator.go:500-506 | `p%:v` splits at its first `%:` and computes `Percentage(p, v)` |
| Orchestrator.ScreenGuards | internal/orchestrator/orchestrator.go:539-550 | a missing screen or vision service is reported and nothing is remembered; otherwise the trimmed, lower-cased argument is used |
| Orchestrator.ScreenCaptureKind | internal/orchestrator/orchestrator.go:552-563 | the opening is the "Делаю скриншот..." notification, then "Секунду" spoken only with a TTS service, then the capture: the window for "window", the full screen otherwise |
| Orchestrator.ScreenCleanupAlways | internal/orchestrator/orchestrator.go:565-599 | after a successful capture the file is cleaned up as the last call whether or not vision succeeds; no cleanup without a capture; remembered iff both succeed |
| Orchestrator.ScreenTruncation | internal/orchestrator/orchestrator.go:601-619 | the remembered entry is "Screen analysis: " with the trimmed answer, which is kept whole up to 200 characters and otherwise cut to its first 200 plus "..." |
| Orchestrator.ScreenSpeech | internal/orchestrator/orchestrator.go:601-617 | after a successful analysis the spoken report is the trimmed answer cut to 150 characters, present iff TTS is wired ("Секунду" before the capture is stated by `ScreenCaptureKind`) |
| Orchestrator.NoteEffect | internal/orchestrator/orchestrator.go:338-367 | specification of `handleNoteAction`: its calls, entry and timer operation; `NoteOutcomes` states its cases |
| Orchestrator.TimerEffect | internal/orchestrator/orchestrator.go:369-383 | specification of `handleTimerAction`; `TimerOutcomes` and `TimerDurationExact` state its cases |
| Orchestrator.TimeEffect | internal/orchestrator/orchestrator.go:385-390 | specification of `handleTimeAction`; `TimeOutcome` states it |
| Orchestrator.CancelEffect | internal/orchestrator/orchestrator.go:392-424 | specification of `handleCancelAction`; `CancelOutcomes` and `CancelAllMessage` state its cases |
| Orchestrator.ClipboardEffect | internal/orchestrator/orchestrator.go:426-486 | specification of `handleClipboardAction`; `ClipboardCases` and `ClipboardRemembersSuccessOnly` state its cases |
| Orchestrator.CalcEffect | internal/orchestrator/orchestrator.go:488-527 | specification of `handleCalcAction`; `CalcOutcomes` and `PercentageArgument` state its cases |
| Orchestrator.ScreenEffect | internal/orchestrator/orchestrator.go:537-620 | specification of `handleScreenAction`; `ScreenGuards`, `ScreenCleanupAlways`, `ScreenTruncation` and `ScreenSpeech` state its cases |
| Orchestrator.Dispatch | internal/orchestrator/orchestrator.go:289-307 | specification of the `switch action`; `DispatchTimers` and `DefaultBranch` state it |
| Orchestrator.Command | internal/orchestrator/orchestrator.go:238-313 | specification of one `handleCommand` after the transcript; `CommandOpens`, `CommandEarlyOutcomes`, `CommandDrains` and `CommandRemembersAtMostOnce` state it |
| Orchestrator.Orchestrator.constructor | internal/orchestrator/orchestrator.go:95-110 | the orchestrator starts with an empty trace over the given memory, timers and channel |
| Orchestrator.Orchestrator.Speak | internal/orchestrator/orchestrator.go:530-534 | speech is recorded only when TTS is wired |
| Orchestrator.Orchestrator.HandleNote | internal/orchestrator/orchestrator.go:338-367 | the calls made and the memory entry added are those of `NoteEffect` |
| Orchestrator.Orchestrator.HandleTimer | internal/orchestrator/orchestrator.go:369-383 | calls, entry and the registry update (`Start` of the voice timer) as `TimerEffect` says |
| Orchestrator.Orchestrator.HandleTime | internal/orchestrator/orchestrator.go:385-390 | calls and entry as `TimeEffect` says |
| Orchestrator.Orchestrator.HandleCancel | internal/orchestrator/orchestrator.go:392-424 | calls, entry and registry (emptied by `CancelAll` for timer/all) as `CancelEffect` says |
| Orchestrator.Orchestrator.CancelItems | internal/orchestrator/orchestrator.go:395-412 | the cancelled items, the delete call only for note/all and the emptied registry only for timer/all |
| Orchestrator.Orchestrator.HandleClipboard | internal/orchestrator/orchestrator.go:426-486 | calls and entry as `ClipboardEffect` says |
| Orchestrator.Orchestrator.RunClipboardOp | internal/orchestrator/orchestrator.go:433-486 | once the utility is known present, calls and entry as `ClipboardOp` says for the trimmed argument |
| Orchestrator.Orchestrator.HandleCalc | internal/orchestrator/orchestrator.go:488-527 | calls and entry as `CalcEffect` says |
| Orchestrator.Orchestrator.HandleScreen | internal/orchestrator/orchestrator.go:537-620 | calls (including the deferred cleanup) and entry as `ScreenEffect` says |
| Orchestrator.Orchestrator.DispatchAction | internal/orchestrator/orchestrator.go:289-307 | the switch runs exactly the handler `Dispatch` selects |
| Orchestrator.Orchestrator.HandleCommand | internal/orchestrator/orchestrator.go:238-313 | `Transcribe` takes its frames off the channel (all of them when it closes, those in time otherwise, none when the recogniser cannot be created) and the cycle is `Command` on the transcript `Stt.Transcription` gives for them: trace, memory, timers as it says; the queue keeps the frames not taken on the early exits and is empty after a dispatch |
| Orchestrator.Orchestrator.Listen | internal/orchestrator/orchestrator.go:246-250 | `o.STT.Transcribe(audioChan)`: the channel loses exactly the first `Stt.Taken` frames, and the transcript is `Stt.Transcription` of those frames (none on a failure) |
| Orchestrator.Orchestrator.Ask | internal/orchestrator/orchestrator.go:258-276 | Thinking is signalled, then the LLM is asked with the current history's context block and the command |
| Orchestrator.Orchestrator.AfterWakeWord | internal/orchestrator/orchestrator.go:216-233 | `ListenForWakeWord` takes the frames `Stt.Wake` says off the channel; without a detection nothing else happens (the channel is then empty, or untouched when the recogniser cannot be created); with one, `handleCommand` runs on the frames left, then Idle is signalled |
| Timer.Timer.constructor | internal/tools/timer/timer.go:16-21 | a new registry has no active countdowns |
| Timer.Timer.Start | internal/tools/timer/timer.go:24-45 | the name becomes active with the new duration, replacing any previous one; all other names keep theirs |
| Timer.Timer.Fire | internal/tools/timer/timer.go:34-42 | only a live countdown can elapse; it leaves the active set, and the callback is invoked only if non-nil |
| Timer.Timer.Cancel | internal/tools/timer/timer.go:48-58 | returns true iff the name was active, and removes only that name |
| Timer.Timer.CancelAll | internal/tools/timer/timer.go:61-71 | returns the number active before the call and leaves none active |
| Timer.Timer.ActiveCount | internal/tools/timer/timer.go:74-78 | equals the size of the active set |
| Obsidian.AppendTouchesOnlyItsFile | internal/tools/obsidian/obsidian.go:28-57 | only the day's file (`Prefix + date + ".md"` in the vault) can change, whatever fails |
| Obsidian.AppendCreates | internal/tools/obsidian/obsidian.go:33-54 | a new day's file gets the front matter (with `source: Bobik`), then `## time\ncontent\n\n` |
| Obsidian.AppendExtends | internal/tools/obsidian/obsidian.go:38-54 | an existing file gets no header, only the entry appended |
| Obsidian.AppendKeepsPrefix | internal/tools/obsidian/obsidian.go:38-54 | prior content always survives as a prefix; success iff no call fails; an error adds nothing to an existing file |
| Obsidian.LastHeading | internal/tools/obsidian/obsidian.go:75-81 | the greatest index of a line starting with `## `, or -1 when none |
| Obsidian.FindLastHeading | internal/tools/obsidian/obsidian.go:75-81 | the backward loop with `break` finds `LastHeading` |
| Obsidian.RewriteFallsBack | internal/tools/obsidian/obsidian.go:65-85 | a missing file, or one without a `## ` line, is handled exactly as an append |
| Obsidian.RewriteReplacesLastEntry | internal/tools/obsidian/obsidian.go:74-90 | the text before the last `## ` line is kept unchanged and everything from it on is replaced by `## time\ncontent\n` |
| Obsidian.LineOffsetSplits | internal/tools/obsidian/obsidian.go:74-89 | splitting at newlines and joining a prefix of the lines cuts the text exactly at a line start |
| Obsidian.Vault.AppendToDailyNote | internal/tools/obsidian/obsidian.go:28-57 | the vault and the error after the step-by-step append are `Appended` |
| Obsidian.Vault.RewriteLastNote | internal/tools/obsidian/obsidian.go:60-91 | the vault and the error after the rewrite are `Rewritten` |
| Obsidian.Appended | internal/tools/obsidian/obsidian.go:28-57 | specification of `AppendToDailyNote` over the vault map; `AppendTouchesOnlyItsFile`, `AppendCreates`, `AppendExtends` and `AppendKeepsPrefix` state it |
| Obsidian.Rewritten | internal/tools/obsidian/obsidian.go:60-91 | specification of `RewriteLastNote`; `RewriteFallsBack` and `RewriteReplacesLastEntry` state it |
| Calc.Preprocess | internal/tools/calc/calc.go:32-46 | the result holds no space and no comma |
| Calc.PreprocessIdempotent | internal/tools/calc/calc.go:32-46 | normalising twice is normalising once |
| Calc.PreprocessCons | internal/tools/calc/calc.go:34-37 | works character by character: a space vanishes, `,` becomes `.`, so "3,14*2" reads as "3.14*2" |
| Calc.EvalErrors | internal/tools/calc/calc.go:61-116 | a tree of supported literals, operators and nodes fails only by dividing by zero; any unsupported one makes it fail; a division by zero needs a `/` in the tree; the walk never reports "invalid expression" |
| Calc.ErrorPropagation | internal/tools/calc/calc.go:70-104 | an operand's error propagates unchanged, the left operand's first |
| Calc.DivisionByZeroFails | internal/tools/calc/calc.go:86-89 | a right operand equal to zero makes `/` an error |
| Calc.RemainderByZeroIsNaN | internal/tools/calc/calc.go:91-92 | `%` by zero is not an error: `math.Mod` gives NaN |
| Calc.UnaryAndParen | internal/tools/calc/calc.go:97-110 | parentheses are transparent, unary `+` is the identity, unary `-` negates |
| Calc.FMod | internal/tools/calc/calc.go:91-92 | NaN exactly for a zero divisor or a NaN operand |
| Calc.Eval | internal/tools/calc/calc.go:23-59 | a parse error of the normalised text is "invalid expression"; otherwise the walk's result; what that means for callers is stated by `EvalOutcomes`, `EvalNormalised` and `EvalDecimalComma` |
| Calc.EvalOutcomes | internal/tools/calc/calc.go:23-116 | "invalid expression" exactly when the normalised text does not parse; a result exactly when it parses and the walk succeeds, which needs supported nodes only; such a tree fails only by a division by zero, which needs a `/` |
| Calc.EvalNormalised | internal/tools/calc/calc.go:23-46 | evaluating an already normalised text gives the same result as evaluating the original |
| Calc.EvalDecimalComma | internal/tools/calc/calc.go:32-37 | a comma anywhere in the input evaluates as a decimal point, so "3,14*2" evaluates as "3.14*2" |
| Calc.PreprocessConcat | internal/tools/calc/calc.go:32-46 | normalising a concatenation is concatenating the normalised parts |
| Calc.Percentage | internal/tools/calc/calc.go:119-121 | `value * percent = 100 * r`; 100 % is the value itself |
| Calc.PercentageExamples | internal/tools/calc/calc.go:119-121 | (15, 2500) → 375 and (50, 200) → 100 |
| Stt.SampleRoundTrip | internal/stt/stt.go:51-54 | the low and high bytes of a sample decode back to it |
| Stt.Encode | internal/stt/stt.go:50-54 | the buffer has two bytes per sample: byte 2i low, byte 2i+1 high |
| Stt.DecodeEncode | internal/stt/stt.go:50-100 | decoding the buffer recovers every sample |
| Stt.EncodeFrame | internal/stt/stt.go:50-54 | the index loop fills a fresh array with `Encode` of the samples |
| Stt.ListenForWakeWord | internal/stt/stt.go:41-67 | a recogniser failure is an error taking nothing; detection happens exactly at the first frame whose finalised text equals the wake word, taking the frames up to it; a closed channel without a match gives (false, no error) after taking every frame; the answer is `Wake` |
| Stt.FirstWake | internal/stt/stt.go:48-63 | the first frame from a given one on that finalises the wake word, none before it doing so; `None` when no frame does |
| Stt.Wake | internal/stt/stt.go:41-67 | (detected, frames taken): nothing for a recogniser that cannot be created; a detection at the frame taken last, with no earlier wake frame; all frames when there is no detection |
| Stt.Taken | internal/stt/stt.go:70-95 | `Transcribe` takes at most the queued frames: none without a recogniser, all of them when the channel closes |
| Stt.Transcription | internal/stt/stt.go:70-116 | specification of the transcript: the error without a recogniser, otherwise the spaced final texts, followed on timeout by the final result |
| Stt.Finals | internal/stt/stt.go:102-109 | specification: the non-empty finalised texts of the reports, in frame order |
| Stt.Spaced | internal/stt/stt.go:107-109 | specification of the accumulation; `SpacedJoin` states what it is |
| Stt.SpacedJoin | internal/stt/stt.go:107-109 | the accumulated text is the finalised texts joined by one space, with a trailing space |
| Stt.Transcribe | internal/stt/stt.go:70-116 | a recogniser failure is an error with empty text; each non-empty finalised text is appended with a space; on timeout the non-empty final result follows without a space; on close the text so far is returned; the answer is `Transcription` |
| Logger.LevelString | internal/logger/logger.go:22-35 | the four levels get upper-case names, anything else "UNKNOWN" |
| Logger.ParseLevel | internal/logger/logger.go:38-51 | case-insensitive; "warn" and "warning" are Warn; anything unknown is Info; always one of the four |
| Logger.ParseLevelIgnoresCase | internal/logger/logger.go:39 | lower-casing the input first changes nothing |
| Logger.ParseLevelString | internal/logger/logger.go:22-51 | `ParseLevel(l.String()) == l` for the four levels |
| Logger.LineReadsBack | internal/logger/logger.go:98-102 | a line starts with `[LEVEL]`, whose word parses back to the level, then `[component]` iff one is set, then the message |
| Logger.Logger.Log | internal/logger/logger.go:89-103 | a line is written iff the level is at least the global level at call time, to the logger's own writer |
| Logger.Logger.Warn | internal/logger/logger.go:116-118 | logs at Warn through `log` |
| Logger.Logger.Debug | internal/logger/logger.go:106-108 | a line at Debug is written iff the global level is at most Debug |
| Logger.Logger.Info | internal/logger/logger.go:111-113 | a line at Info is written iff the global level is at most Info |
| Logger.Logger.Error | internal/logger/logger.go:121-123 | a line at Error is written iff the global level is at most Error |
| Logger.NewDefault | internal/logger/logger.go:61-64 | the global logger starts at Info on standard error |
| Logger.SetLevel | internal/logger/logger.go:67-71 | changes the global level only |
| Logger.SetOutput | internal/logger/logger.go:74-78 | changes the global writer only |
| Logger.New | internal/logger/logger.go:81-87 | a component logger shares the writer current at creation |
| Logger.CreatedBefore | internal/logger/logger.go:74-102 | a logger created before `SetOutput`/`SetLevel(Warn)` drops Info, writes Warn to its original writer, and nothing to the new one |
| Config.Default | internal/config/config.go:46-81 | SampleRate 16000, Channels 1, OllamaModel "qwen3:8b", WakeWord "эй бобик" |
| Config.DecodeFails | internal/config/config.go:89-93 | decoding fails iff the text is not JSON or a value has the wrong type |
| Config.DecodeField | internal/config/config.go:85-93 | fields absent from the file keep their defaults; present ones take the file's value |
| Config.DecodeSaved | internal/config/config.go:155-165 | decoding everything `Save` writes gives back the saved configuration |
| Config.Overridden | internal/config/config.go:118-152 | an override keeps a value of the field's type |
| Config.EnvOverrideField | internal/config/config.go:118-152 | each field with a variable takes its override; every other field is unchanged |
| Config.ApplyAllField | internal/config/config.go:118-152 | after the list of `if`s, a field is overridden iff it is in the list |
| Config.EnvKeepsNumbers | internal/config/config.go:118-152 | no variable changes a numeric field |
| Config.EnvNeverClears | internal/config/config.go:134-151 | BOBIK_TTS_ENABLED / BOBIK_VISION_ENABLED never switch a flag off |
| Config.OverriddenIdempotent | internal/config/config.go:119-151 | one override applied to its own result changes nothing |
| Config.EnvEmpty | internal/config/config.go:118-152 | an empty environment leaves the configuration unchanged |
| Config.EnvIdempotent | internal/config/config.go:118-152 | applying the same environment twice is applying it once |
| Config.ApplyEnvOverrides | internal/config/config.go:118-152 | specification of `applyEnvOverrides` as one override per listed field; `EnvOverrideField` states it field by field |
| Basics.FirstIn | internal/config/config.go:102-109 | the first element of the list in the set, with none before it, or none when no element is; used for the first readable configuration file and for the first installed screenshot tool |
| Config.Load | internal/config/config.go:84-116 | the `break` loop over the search paths computes `Loaded` |
| Config.Loaded | internal/config/config.go:84-116 | specification of `Load`; `LoadUnreadable`, `LoadSearchOrder` and `LoadSaved` state its cases |
| Config.LoadUnreadable | internal/config/config.go:88-113 | an explicit unreadable path gives defaults plus env overrides, no error |
| Config.LoadSearchOrder | internal/config/config.go:97-109 | without a path the first readable default file is decoded, later ones ignored, a decode error is the result |
| Config.LoadSaved | internal/config/config.go:84-165 | a saved configuration loads back unchanged in an empty environment |
| Screen.New | internal/tools/screen/screen.go:31-36 | the OS temp dir and "auto" |
| Screen.NewWithConfig | internal/tools/screen/screen.go:39-50 | an empty temp dir becomes the OS temp dir, an empty backend "auto"; given values are kept |
| Screen.NewWithConfigDefaults | internal/tools/screen/screen.go:31-50 | `NewWithConfig("", "")` is `New`; a tool's own settings give it back |
| Screen.Detected | internal/tools/screen/screen.go:63-79 | a named backend only if installed, else ""; "auto" gives "" iff none of the five is installed; a result is always installed |
| Screen.AutoPrefersEarlier | internal/tools/screen/screen.go:72-78 | for "auto" the result is one of gnome-screenshot, scrot, grim, spectacle, maim, with none earlier installed |
| Screen.DetectBackend | internal/tools/screen/screen.go:63-79 | the early-return loop computes `Detected` |
| Screen.IsAvailableIff | internal/tools/screen/screen.go:53-55 | available iff the named backend is installed, or for "auto" iff one of the five is |
| Screen.IsAvailable | internal/tools/screen/screen.go:53-55 | a backend is detected; `IsAvailableIff` states what that means |
| Screen.PlanFor | internal/tools/screen/screen.go:95-212 | the three `switch` statements on the backend; `PlanWritesPath` and `PlanRefusals` state them |
| Screen.CaptureScreen | internal/tools/screen/screen.go:82-134 | `Capture`; `NoBackendFails` and `CaptureSucceeds` state it |
| Screen.CaptureArea | internal/tools/screen/screen.go:138-185 | `CaptureArea`; `NoBackendFails` and `GrimAreaFails` state it |
| Screen.CaptureWindow | internal/tools/screen/screen.go:188-233 | `CaptureWindow`; `NoBackendFails` and `WindowFallsBack` state it |
| Screen.PlanWritesPath | internal/tools/screen/screen.go:95-212 | every command runs the backend with the file path as its last argument, except maim's window shell line, which ends with it |
| Screen.PlanRefusals | internal/tools/screen/screen.go:95-212 | a full capture supports the five tools, an area all but grim (a dedicated refusal), a window falls back for anything not in its switch |
| Screen.Execute | internal/tools/screen/screen.go:113-133 | one command run; success iff it wrote a readable file, giving its path and encoding |
| Screen.NoBackendFails | internal/tools/screen/screen.go:83-192 | without a backend every capture fails without running anything |
| Screen.GrimAreaFails | internal/tools/screen/screen.go:154-157 | an area capture with grim fails without running anything |
| Screen.WindowFallsBack | internal/tools/screen/screen.go:209-211 | a window capture with an unlisted backend is a full capture |
| Screen.CaptureSucceeds | internal/tools/screen/screen.go:82-134 | a full capture succeeds iff a backend is detected and known and its command wrote a readable file; the result is that file in the temp dir |
| Screen.Cleanup | internal/tools/screen/screen.go:236-241 | a nil result or empty path removes nothing and gives no error; otherwise the file is removed, an error iff it was missing |
| Screen.CleanupTwice | internal/tools/screen/screen.go:236-241 | cleaning up twice removes nothing more, and the second time reports the missing file |
| Clipboard.New | internal/tools/clipboard/clipboard.go:16-37 | xclip, then xsel, then wl-paste/wl-copy; both commands "" exactly when none is installed |
| Clipboard.IsAvailable | internal/tools/clipboard/clipboard.go:40-42 | judged by the read tool alone; `NewCommandsKnown` ties it to both commands |
| Clipboard.NewCommandsKnown | internal/tools/clipboard/clipboard.go:16-86 | a selected service is available iff both its commands have an argument vector |
| Clipboard.ReadCommand | internal/tools/clipboard/clipboard.go:51-60 | an argument vector exactly for the three read tools |
| Clipboard.WriteCommand | internal/tools/clipboard/clipboard.go:77-86 | an argument vector exactly for the three write tools |
| Clipboard.ReadReply | internal/tools/clipboard/clipboard.go:45-68 | no read tool is an error; the text comes back trimmed exactly when the tool is known and succeeds |
| Clipboard.Read | internal/tools/clipboard/clipboard.go:45-68 | the command run and the reply after the guard and the switch |
| Clipboard.WriteError | internal/tools/clipboard/clipboard.go:71-95 | no write tool is an error; success iff the tool is known and succeeds |
| Clipboard.Write | internal/tools/clipboard/clipboard.go:71-95 | runs the tool's vector with the content on stdin; the clipboard holds the content iff it succeeded |
| Clipboard.WriteThenRead | internal/tools/clipboard/clipboard.go:67-95 | writing a text without surrounding blanks and reading it back gives the text |
| Clipboard.RoundTrip | internal/tools/clipboard/clipboard.go:45-95 | the same round trip, run as calls on one clipboard |
| Tts.New | internal/tools/tts/tts.go:18-33 | a command containing "espeak" gets `-v ru` (checked first), "piper" gets the Russian model, others no arguments |
| Tts.DefaultArgsExamples | internal/tools/tts/tts.go:22-27 | espeak-ng, piper, piper-espeak and echo get the arguments the rule says |
| Tts.Speak | internal/tools/tts/tts.go:36-49 | a disabled speaker does nothing; an empty command is an error; otherwise the command is run with the args then the text |
| Tts.SpeakArgs | internal/tools/tts/tts.go:46-47 | the text is the last argument, after the speaker's own |
| Tts.SpeakAsync | internal/tools/tts/tts.go:52-57 | nothing when disabled; otherwise the command `Speak` runs, its error dropped |
| Tts.IsAvailable | internal/tools/tts/tts.go:60-66 | a command is configured and installed; `SpeakExamples` shows the unconfigured case |
| Tts.SpeakExamples | internal/tools/tts/tts.go:36-66 | a disabled speaker succeeds silently; one without a command fails and is not available |
| Numerals.AtoiIntToString | internal/orchestrator/orchestrator.go:370-380 | a 64-bit integer printed with `%d` parses back with `strconv.Atoi` |
| Numerals.Wrap64 | internal/orchestrator/orchestrator.go:377 | the 64-bit product of `time.Duration(seconds) * time.Second`: congruent to the exact one, equal to it when in range |

## Notes on the code

- **TIME memory.** The TIME handler remembers "Reported current time" like the other handlers remember their action
  (internal/orchestrator/orchestrator.go:389).
- **Transcription.** `Transcribe` ends only at its 7-second timer or when the channel closes
  (internal/stt/stt.go:79-95). It appends each non-empty final text followed by one space (internal/stt/stt.go:108);
  the trimming happens in `handleCommand` (internal/orchestrator/orchestrator.go:251).
- **Transcription errors.** A transcription error is only logged, and the cycle returns without a notification
  (internal/orchestrator/orchestrator.go:246-250).
- **Context lines.** The context lines are written in Russian, `- Команда: …, Действие: …`
  (internal/orchestrator/orchestrator.go:266).

## Left out

- Concurrency: the goroutines of `Start`, `ctx.Done` polling, closing the channel, blocking receives, and the mutexes of
  the context memory, timer registry and logger. Every operation is sequential.
- Real time: `time.AfterFunc` becomes the explicit event `Timer.Timer.Fire`; `time.After(7s)` becomes the `StreamEnd` the
  transcription loop is given; `time.Now` readings are inputs (the obsidian `Moment`, the screenshot stamps).
- The Vosk recogniser: its reports after each waveform are an input function over the waveforms accepted so far. A result
  that does not parse as JSON is a finalised report with no text.
- The HTTP/Ollama and vision clients, the notifier, the clock tool and text-to-speech as seen from the orchestrator are
  abstract calls in the trace; their answers are the `Replies` of a cycle.
- The `text/template` rendering of the system prompt: the model states the context block and the command put to the
  LLM, not the rendered prompt text.
- PortAudio, the screen `Adapter`, the tray UI and `cmd/bobik/main.go`: hardware, forwarding and wiring.
- HandleCommand: the frames `Transcribe` and `ListenForWakeWord` take are those queued when they start; frames the
  recorder publishes while they run are not modelled, because the recorder goroutine runs concurrently.
- The outer loop of `Start`: one turn after the wake-word call is `AfterWakeWord`; a wake-word error only retries.
- Floating point: numbers are exact reals plus NaN; `strconv.ParseFloat`, Go's expression parser and `FormatResult`
  are function inputs.
- Calc.EvalAST: carries no contract of its own; its error structure is stated by `Calc.EvalErrors`,
  `Calc.ErrorPropagation`, `Calc.DivisionByZeroFails`, `Calc.UnaryAndParen` and `Calc.RemainderByZeroIsNaN`.
- JSON: a decoded file is a map from field to typed value. Key case-insensitivity, `null`, number overflow and Go's
  partial decoding before an error are not modelled. `Save` is modelled only as the field set it writes, not the file write.
- `filepath.Join` is joining with "/" without its lexical clean-up; `os.UserHomeDir` and `os.TempDir` are inputs.
- `exec.LookPath` is membership in the set of installed tools. Go never finds the empty name; the model relies on the
  guards (`!= ""`) the code has in front of it.
- Command execution, `os.Stat`, `os.ReadFile`, `os.Remove` and base64 encoding are outcome functions or
  parameters; error messages are abstracted to error kinds.
- Strings are sequences of characters: Go's byte lengths (`len(display) > 100`, the 200/150 cuts) are character counts.
  `strings.ToLower` is modelled for ASCII letters only.
- `DeleteLastNote` is not implemented in the note store; its answer is an input (`Replies.noteDeleted`).
- Obsidian.Vault.RewriteLastNote: both calls of `Now` in the fallback to append are one reading. A failed `WriteFile`
  leaves the file unchanged, though Go may have truncated it.
- Tts.SpeakAsync: the goroutine and the cancellable exec context are left out; the model is the command it starts.
- Logger.Logger.Log: `Sprintf` formatting and the `log.LstdFlags` timestamp are left out; a line is the prefix, a space
  and the already formatted message.
