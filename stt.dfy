/**
 * The speech-to-text glue (internal/stt/stt.go) over an abstract recogniser. The Vosk recogniser is
 * stateful, so it is modelled as a function from the waveforms it has accepted so far, in order, to
 * what `AcceptWaveform`/`Result` report after the last one: still pending, or a finalised result whose
 * JSON text field parsed (`Some(text)`) or did not (`None`).
 */
module Stt {
  import opened Basics
  import opened Text
  import AudioFeed

  type Frame = AudioFeed.Frame

  /** `byte(s & 0xff)`. */
  function LowByte(s: int16): byte {
    (s as int % 256) as byte
  }

  /** `byte(s >> 8)`: an arithmetic shift, then truncation to eight bits. */
  function HighByte(s: int16): byte {
    (s as int / 256 % 256) as byte
  }

  /** The little-endian two's-complement sample held in two bytes. */
  function SampleOf(lo: byte, hi: byte): int16 {
    var u := hi as int * 256 + lo as int;
    (if u >= 0x8000 then u - 0x1_0000 else u) as int16
  }

  lemma SampleRoundTrip(s: int16)
    ensures SampleOf(LowByte(s), HighByte(s)) == s
  {
  }

  /** The byte buffer handed to the recogniser for one frame. */
  function Encode(samples: seq<int16>): (bytes: seq<byte>)
    ensures |bytes| == 2 * |samples|
    ensures forall i :: 0 <= i < |samples| ==> bytes[2 * i] == LowByte(samples[i]) && bytes[2 * i + 1] == HighByte(samples[i])
  {
    if samples == [] then []
    else
      var rest := Encode(samples[1..]);
      var bytes := [LowByte(samples[0]), HighByte(samples[0])] + rest;
      assert forall i :: 1 <= i < |samples| ==> bytes[2 * i] == rest[2 * (i - 1)] && bytes[2 * i + 1] == rest[2 * (i - 1) + 1];
      bytes
  }

  /** Reads samples back out of a little-endian byte buffer. */
  function Decode(bytes: seq<byte>): (samples: seq<int16>)
    requires |bytes| % 2 == 0
    ensures |samples| == |bytes| / 2
  {
    if bytes == [] then [] else [SampleOf(bytes[0], bytes[1])] + Decode(bytes[2..])
  }

  /** The encoding loses nothing: decoding the buffer recovers every sample. */
  lemma {:induction false} DecodeEncode(samples: seq<int16>)
    ensures Decode(Encode(samples)) == samples
    decreases |samples|
  {
    if samples != [] {
      var bytes := Encode(samples);
      assert bytes[2..] == Encode(samples[1..]);
      DecodeEncode(samples[1..]);
      SampleRoundTrip(samples[0]);
    }
  }

  /** The `byteBuf` loop of `ListenForWakeWord` and `Transcribe`. */
  method EncodeFrame(samples: Frame) returns (buf: array<byte>)
    ensures fresh(buf)
    ensures buf[..] == Encode(samples)
  {
    buf := new byte[|samples| * 2];
    var i := 0;
    while i < |samples|
      invariant 0 <= i <= |samples|
      invariant forall j :: 0 <= j < i ==> buf[2 * j] == LowByte(samples[j]) && buf[2 * j + 1] == HighByte(samples[j])
    {
      buf[i * 2] := LowByte(samples[i]);
      buf[i * 2 + 1] := HighByte(samples[i]);
      i := i + 1;
    }
    assert forall k :: 0 <= k < buf.Length ==> buf[k] == Encode(samples)[k] by {
      forall k | 0 <= k < buf.Length
        ensures buf[k] == Encode(samples)[k]
      {
        var j := k / 2;
        assert 0 <= j < |samples|;
        if k == 2 * j {
          assert buf[2 * j] == LowByte(samples[j]);
        } else {
          assert k == 2 * j + 1;
          assert buf[2 * j + 1] == HighByte(samples[j]);
        }
      }
    }
  }

  /** What the recogniser reports after accepting one waveform. */
  datatype Recognition = Pending | Finalised(text: Option<string>)

  /** The recogniser's report after accepting the given waveforms, in order. */
  type Recogniser = seq<seq<byte>> -> Recognition

  /** The waveforms of the given frames. */
  function Waveforms(frames: seq<Frame>): (ws: seq<seq<byte>>)
    ensures |ws| == |frames|
    ensures forall i :: 0 <= i < |frames| ==> ws[i] == Encode(frames[i])
  {
    seq(|frames|, i requires 0 <= i < |frames| => Encode(frames[i]))
  }

  lemma WaveformsNext(frames: seq<Frame>, i: nat)
    requires i < |frames|
    ensures Waveforms(frames[..i + 1]) == Waveforms(frames[..i]) + [Encode(frames[i])]
  {
  }

  /** The recogniser's report right after frame `i`. */
  function ReportAt(frames: seq<Frame>, recognise: Recogniser, i: nat): Recognition
    requires i < |frames|
  {
    recognise(Waveforms(frames[..i + 1]))
  }

  /** Frame `i` finalises an utterance exactly equal to the wake word. */
  predicate WakeAt(frames: seq<Frame>, recognise: Recogniser, wakeWord: string, i: nat)
    requires i < |frames|
  {
    ReportAt(frames, recognise, i) == Finalised(Some(wakeWord))
  }

  /** The first frame from `i` on whose report finalises the wake word, if any. */
  function FirstWake(frames: seq<Frame>, recognise: Recogniser, wakeWord: string, i: nat): (k: Option<nat>)
    requires i <= |frames|
    ensures k.Some? ==> i <= k.value < |frames| && WakeAt(frames, recognise, wakeWord, k.value)
    ensures forall j :: i <= j < (if k.Some? then k.value else |frames|) ==> !WakeAt(frames, recognise, wakeWord, j)
    decreases |frames| - i
  {
    if i == |frames| then None
    else if WakeAt(frames, recognise, wakeWord, i) then Some(i)
    else FirstWake(frames, recognise, wakeWord, i + 1)
  }

  /** A frame that finalises the wake word, with none before it, is the first. */
  lemma FirstWakeIs(frames: seq<Frame>, recognise: Recogniser, wakeWord: string, k: nat)
    requires k < |frames| && WakeAt(frames, recognise, wakeWord, k)
    requires forall j :: 0 <= j < k ==> !WakeAt(frames, recognise, wakeWord, j)
    ensures FirstWake(frames, recognise, wakeWord, 0) == Some(k)
  {
  }

  /**
   * What `ListenForWakeWord` answers for the frames on the channel before it closed, and how many of
   * them it takes off the channel: none when the recogniser cannot be created, every frame up to and
   * including the first that finalises the wake word, and all of them when none does.
   */
  function Wake(frames: seq<Frame>, created: bool, recognise: Recogniser, wakeWord: string): (r: (bool, nat))
    ensures r.1 <= |frames|
    ensures !created ==> r == (false, 0)
    ensures r.0 ==> r.1 > 0 && WakeAt(frames, recognise, wakeWord, r.1 - 1)
    ensures forall j :: 0 <= j < r.1 - (if r.0 then 1 else 0) ==> !WakeAt(frames, recognise, wakeWord, j)
    ensures created && !r.0 ==> r.1 == |frames|
  {
    if !created then (false, 0)
    else match FirstWake(frames, recognise, wakeWord, 0)
      case Some(k) => (true, k + 1)
      case None => (false, |frames|)
  }

  /**
   * `ListenForWakeWord` over the frames received before the channel closed. `consumed` is how many
   * frames it took off the channel. A recogniser that cannot be created is an error.
   */
  method ListenForWakeWord(frames: seq<Frame>, created: bool, recognise: Recogniser, wakeWord: string)
    returns (detected: bool, failed: bool, consumed: nat)
    ensures !created ==> failed && !detected && consumed == 0
    ensures created ==> !failed
    ensures consumed <= |frames|
    ensures detected ==> consumed > 0 && WakeAt(frames, recognise, wakeWord, consumed - 1)
    ensures forall j :: 0 <= j < consumed - (if detected then 1 else 0) ==> !WakeAt(frames, recognise, wakeWord, j)
    ensures created && !detected ==> consumed == |frames|
    ensures (detected, consumed) == Wake(frames, created, recognise, wakeWord)
  {
    if !created {
      return false, true, 0;
    }
    var accepted: seq<seq<byte>> := [];
    var i := 0;
    while i < |frames|
      invariant 0 <= i <= |frames|
      invariant accepted == Waveforms(frames[..i])
      invariant forall j :: 0 <= j < i ==> !WakeAt(frames, recognise, wakeWord, j)
    {
      var buf := EncodeFrame(frames[i]);
      WaveformsNext(frames, i);
      accepted := accepted + [buf[..]];
      var report := recognise(accepted);
      if report.Finalised? && report.text.Some? && report.text.value == wakeWord {
        assert WakeAt(frames, recognise, wakeWord, i);
        FirstWakeIs(frames, recognise, wakeWord, i);
        return true, false, i + 1;
      }
      i := i + 1;
    }
    return false, false, i;
  }

  /** How `Transcribe`'s loop ends: the 7-second timer fired, or the channel was closed. */
  datatype StreamEnd = TimedOut | Closed

  /** The non-empty finalised texts among the reports for the first `n` frames, in order. */
  function Finals(frames: seq<Frame>, recognise: Recogniser, n: nat): seq<string>
    requires n <= |frames|
    decreases n
  {
    if n == 0 then []
    else
      var earlier := Finals(frames, recognise, n - 1);
      match ReportAt(frames, recognise, n - 1)
      case Finalised(Some(t)) => if t != "" then earlier + [t] else earlier
      case _ => earlier
  }

  /** Each text followed by one space, concatenated. */
  function Spaced(texts: seq<string>): string
    decreases |texts|
  {
    if texts == [] then "" else Spaced(texts[..|texts| - 1]) + texts[|texts| - 1] + " "
  }

  /** With at least one text, the accumulation is the texts joined by single spaces plus one trailing space. */
  lemma {:induction false} SpacedJoin(texts: seq<string>)
    requires texts != []
    ensures Spaced(texts) == Join(texts, " ") + " "
    decreases |texts|
  {
    var init := texts[..|texts| - 1];
    var last := texts[|texts| - 1];
    assert texts == init + [last];
    JoinAppend(init, last, " ");
    if init != [] {
      SpacedJoin(init);
    }
  }

  /**
   * How many of the `queued` frames `Transcribe` takes off the channel: none when the recogniser
   * cannot be created, all of them when the channel closes, and otherwise those that arrive before the
   * 7-second timer fires, `inTime` of them at most.
   */
  function Taken(queued: nat, created: bool, end: StreamEnd, inTime: nat): (n: nat)
    ensures n <= queued
    ensures !created ==> n == 0
    ensures created && end == Closed ==> n == queued
  {
    if !created then 0
    else if end == Closed || queued <= inTime then queued
    else inTime
  }

  /** `FinalResult`'s text when it parsed and is non-empty, otherwise nothing. */
  function Tail(final: Option<string>): string {
    if final.Some? && final.value != "" then final.value else ""
  }

  /** What `Transcribe` returns for the frames it received; `None` is its error. */
  function Transcription(frames: seq<Frame>, end: StreamEnd, created: bool, recognise: Recogniser,
                         finalResult: seq<seq<byte>> -> Option<string>): Option<string>
  {
    if !created then None
    else if end == Closed then Some(Spaced(Finals(frames, recognise, |frames|)))
    else Some(Spaced(Finals(frames, recognise, |frames|)) + Tail(finalResult(Waveforms(frames))))
  }

  /**
   * `Transcribe` over the frames received before the loop ended. On timeout the recogniser's final
   * result (a function of everything it accepted), if non-empty, is appended without a trailing space.
   */
  method Transcribe(frames: seq<Frame>, end: StreamEnd, created: bool, recognise: Recogniser,
                    finalResult: seq<seq<byte>> -> Option<string>)
    returns (text: string, failed: bool)
    ensures !created ==> failed && text == ""
    ensures created ==> !failed
    ensures created && end == Closed ==> text == Spaced(Finals(frames, recognise, |frames|))
    ensures created && end == TimedOut
            ==> text == Spaced(Finals(frames, recognise, |frames|)) + Tail(finalResult(Waveforms(frames)))
    ensures (if failed then None else Some(text)) == Transcription(frames, end, created, recognise, finalResult)
  {
    if !created {
      return "", true;
    }
    var fullText := "";
    var accepted: seq<seq<byte>> := [];
    var i := 0;
    while i < |frames|
      invariant 0 <= i <= |frames|
      invariant accepted == Waveforms(frames[..i])
      invariant fullText == Spaced(Finals(frames, recognise, i))
    {
      var buf := EncodeFrame(frames[i]);
      WaveformsNext(frames, i);
      accepted := accepted + [buf[..]];
      var report := recognise(accepted);
      if report.Finalised? && report.text.Some? {
        var t := report.text.value;
        if t != "" {
          assert Finals(frames, recognise, i + 1) == Finals(frames, recognise, i) + [t];
          fullText := fullText + t + " ";
        }
      }
      i := i + 1;
    }
    assert frames[..i] == frames;
    if end == TimedOut {
      var final := finalResult(accepted);
      if final.Some? && final.value != "" {
        fullText := fullText + final.value;
      }
    }
    return fullText, false;
  }
}
