/**
 * The text-to-speech speaker (internal/tools/tts/tts.go). The executables `exec.LookPath` finds are
 * the set `installed`; whether the synthesiser fails when it runs is an input. The context that
 * can cancel it and the goroutine of `SpeakAsync` are left out: `SpeakAsync` is the command it
 * starts.
 */
module Tts {
  import opened Basics
  import opened Text

  const EspeakArgs: seq<string> := ["-v", "ru"]
  const PiperArgs: seq<string> := ["--model", "ru_RU-dmitri-medium"]

  /** `Speaker`. */
  datatype Speaker = Speaker(enabled: bool, command: string, args: seq<string>)

  /** `New`: Russian voice arguments for espeak, checked first, and for piper; none otherwise. */
  function New(enabled: bool, command: string): (s: Speaker)
    ensures s.enabled == enabled && s.command == command
    ensures Contains(command, "espeak") ==> s.args == EspeakArgs
    ensures !Contains(command, "espeak") && Contains(command, "piper") ==> s.args == PiperArgs
    ensures !Contains(command, "espeak") && !Contains(command, "piper") ==> s.args == []
  {
    var args := if Contains(command, "espeak") then EspeakArgs
                else if Contains(command, "piper") then PiperArgs
                else [];
    Speaker(enabled, command, args)
  }

  /** The engines of the tests: espeak-ng, piper, a command naming both, and echo. */
  lemma DefaultArgsExamples()
    ensures New(true, "espeak-ng").args == EspeakArgs
    ensures New(true, "piper").args == PiperArgs
    ensures New(true, "piper-espeak").args == EspeakArgs
    ensures New(true, "echo").args == []
  {
    assert OccursAt("espeak-ng", "espeak", 0);
    assert OccursAt("piper", "piper", 0);
    assert OccursAt("piper-espeak", "espeak", 6);
    NotContained("piper", "espeak");
    NotContained("echo", "espeak");
    NotContained("echo", "piper");
  }

  /** A string longer than `s` does not occur in it, nor does one whose first letter is absent. */
  lemma NotContained(s: string, sub: string)
    requires |sub| > 0
    requires |sub| > |s| || forall k :: 0 <= k < |s| ==> s[k] != sub[0]
    ensures !Contains(s, sub)
  {
    forall k | 0 <= k <= |s|
      ensures !OccursAt(s, sub, k)
    {
      if k + |sub| <= |s| {
        assert s[k..k + |sub|][0] == s[k];
      }
    }
  }

  /** A command line: the program and its arguments. */
  datatype Cmd = Cmd(name: string, args: seq<string>)

  datatype TtsError = NotConfigured | RunFailed

  /** `Speak`: the command run, if any, and the error; `None` is success. */
  function Speak(s: Speaker, text: string, fails: bool): (r: (Option<Cmd>, Option<TtsError>))
    ensures !s.enabled ==> r == (None, None)
    ensures s.enabled && s.command == "" ==> r == (None, Some(NotConfigured))
    ensures r.0.Some? <==> s.enabled && s.command != ""
    ensures r.0.Some? ==> r.0.value == Cmd(s.command, s.args + [text]) && (r.1.None? <==> !fails)
  {
    if !s.enabled then (None, None)
    else if s.command == "" then (None, Some(NotConfigured))
    else (Some(Cmd(s.command, s.args + [text])), if fails then Some(RunFailed) else None)
  }

  /** The text is the last argument, after the speaker's own arguments. */
  lemma SpeakArgs(s: Speaker, text: string, fails: bool)
    requires s.enabled && s.command != ""
    ensures var cmd := Speak(s, text, fails).0.value;
            cmd.args[..|s.args|] == s.args && cmd.args[|cmd.args| - 1] == text && |cmd.args| == |s.args| + 1
  {
  }

  /** `SpeakAsync`: nothing when disabled, otherwise the command of `Speak`, whose error is dropped. */
  function SpeakAsync(s: Speaker, text: string): (ran: Option<Cmd>)
    ensures !s.enabled ==> ran.None?
    ensures forall fails: bool :: ran == Speak(s, text, fails).0
  {
    if !s.enabled then None else Speak(s, text, false).0
  }

  /** `IsAvailable`: a command is configured and found. */
  predicate IsAvailable(s: Speaker, installed: set<string>) {
    s.command != "" && s.command in installed
  }

  /** The speaker of the tests: a disabled one succeeds silently, one without a command fails. */
  lemma SpeakExamples(text: string, fails: bool)
    ensures Speak(New(false, "echo"), text, fails) == (None, None)
    ensures Speak(New(true, ""), text, fails) == (None, Some(NotConfigured))
    ensures !IsAvailable(New(true, ""), {""})
  {
  }
}
