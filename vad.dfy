/**
 * The voice-activity detector: a frame-counting state machine over
 * SILENCE, SPEAKING and SPEECH_ENDED.  Each frame is padded or cut to the
 * configured size and classified as speech or not by a classifier given as
 * a parameter; the current time, in integer milliseconds, is an input.
 */
module Vad {
  import opened Wrappers

  newtype byte = x: int | 0 <= x < 256

  datatype SpeechState = Silence | Speaking | SpeechEnded

  /**
   * `VADConfig`; the durations are in milliseconds.  The frame counts are
   * the lengths of the two rolling windows.
   */
  datatype VadConfig = VadConfig(
    aggressiveness: int,
    sampleRate: int,
    frameDurationMs: int,
    speechStartFrames: nat,
    speechEndFrames: nat,
    minSpeechMs: int,
    maxSpeechMs: int)

  const DEFAULT_CONFIG := VadConfig(2, 16000, 30, 3, 10, 300, 30000)

  /**
   * `__post_init__`: with the speech backend installed, an aggressiveness
   * outside 0..3, a rate other than 8, 16, 32 or 48 kHz, or a frame length
   * other than 10, 20 or 30 ms is refused, checked in that order; without
   * the backend nothing is checked.
   */
  function ConfigError(c: VadConfig, hasBackend: bool): (e: Option<string>)
    ensures e.None? <==>
      !hasBackend || (c.aggressiveness in {0, 1, 2, 3} && c.sampleRate in {8000, 16000, 32000, 48000}
                      && c.frameDurationMs in {10, 20, 30})
    ensures hasBackend && c.aggressiveness !in {0, 1, 2, 3} ==> e == Some("aggressiveness must be 0, 1, 2, or 3")
    ensures (hasBackend && c.aggressiveness in {0, 1, 2, 3} && c.sampleRate !in {8000, 16000, 32000, 48000}) ==>
      e == Some("sample_rate must be 8000, 16000, 32000, or 48000")
    ensures (hasBackend && c.aggressiveness in {0, 1, 2, 3} && c.sampleRate in {8000, 16000, 32000, 48000}
             && c.frameDurationMs !in {10, 20, 30}) ==> e == Some("frame_duration_ms must be 10, 20, or 30")
  {
    if !hasBackend then None
    else if c.aggressiveness !in {0, 1, 2, 3} then Some("aggressiveness must be 0, 1, 2, or 3")
    else if c.sampleRate !in {8000, 16000, 32000, 48000} then Some("sample_rate must be 8000, 16000, 32000, or 48000")
    else if c.frameDurationMs !in {10, 20, 30} then Some("frame_duration_ms must be 10, 20, or 30")
    else None
  }

  /** `int(x / y)` for a positive `y`: the quotient truncated toward zero. */
  function TruncDiv(x: int, y: int): (q: int)
    requires y > 0
    ensures x >= 0 ==> q == x / y
    ensures x < 0 ==> q == -((-x) / y)
  {
    if x >= 0 then x / y else -((-x) / y)
  }

  /**
   * `frame_size`: the samples in one frame, two bytes each. The sample count
   * is `rate * duration / 1000` truncated toward zero.
   */
  function FrameSize(c: VadConfig): (r: int)
    ensures r % 2 == 0
    ensures var x := c.sampleRate * c.frameDurationMs;
      x >= 0 ==> (r / 2) * 1000 <= x < (r / 2 + 1) * 1000
    ensures var x := c.sampleRate * c.frameDurationMs;
      x < 0 ==> (r / 2 - 1) * 1000 < x <= (r / 2) * 1000
  {
    TruncDiv(c.sampleRate * c.frameDurationMs, 1000) * 2
  }

  /** The defaults give 480 samples of 16 bits: 960 bytes. */
  lemma DefaultFrameSize()
    ensures FrameSize(DEFAULT_CONFIG) == 960
  {
  }

  /** Every configuration the backend accepts has a positive, even frame size of whole samples. */
  lemma AcceptedFrameSize(c: VadConfig)
    requires ConfigError(c, true).None?
    ensures FrameSize(c) > 0 && FrameSize(c) % 2 == 0
    ensures FrameSize(c) * 1000 == c.sampleRate * c.frameDurationMs * 2
  {
  }

  /**
   * The frame handed to the classifier: a short frame is padded with zero
   * bytes, a long one cut to its prefix.  A negative size slices from the
   * end, as Python's `frame[:size]` does.
   */
  function NormalizeFrame(frame: seq<byte>, size: int): (r: seq<byte>)
    ensures size >= 0 ==> |r| == size
    ensures size >= 0 && |frame| <= size ==> r[..|frame|] == frame && forall i :: |frame| <= i < size ==> r[i] == 0
    ensures size >= 0 && |frame| >= size ==> r == frame[..size]
    ensures size < 0 ==> r == frame[..if |frame| + size >= 0 then |frame| + size else 0]
  {
    if |frame| == size then frame
    else if |frame| < size then frame + seq(size - |frame|, _ => 0 as byte)
    else if size >= 0 then frame[..size]
    else frame[..if |frame| + size >= 0 then |frame| + size else 0]
  }

  /** `deque(maxlen=n).append(x)`: the oldest entries fall out beyond `n`. */
  function Push(window: seq<bool>, x: bool, n: nat): (r: seq<bool>)
    ensures |r| == if |window| + 1 <= n then |window| + 1 else n
    ensures r == (window + [x])[|window| + 1 - |r|..]
  {
    var w := window + [x];
    if |w| <= n then w else w[|w| - n..]
  }

  /** The last `n` flags of a history, or all of it when it is shorter. */
  function Window(history: seq<bool>, n: nat): (r: seq<bool>)
    ensures |r| <= n && |r| <= |history|
  {
    if |history| <= n then history else history[|history| - n..]
  }

  /** Appending to the window of a history gives the window of the longer history. */
  lemma PushWindow(history: seq<bool>, x: bool, n: nat)
    ensures Push(Window(history, n), x, n) == Window(history + [x], n)
  {
    var h := history + [x];
    if |history| > n {
      var w := history[|history| - n..] + [x];
      if n > 0 {
        assert w[1..] == h[|h| - n..];
      } else {
        assert w[|w|..] == h[|h|..];
      }
    }
  }

  predicate AllTrue(flags: seq<bool>) {
    forall i :: 0 <= i < |flags| ==> flags[i]
  }

  /** `speech_start_time or current_time`: a start time of 0 reads as absent, like `None`. */
  function StartOr(start: Option<int>, now: int): int {
    if start.Some? && start.value != 0 then start.value else now
  }

  /** The detector's state as a value: phase, both windows and both times. */
  datatype Detector = Detector(
    phase: SpeechState,
    speechFrames: seq<bool>,
    silenceFrames: seq<bool>,
    speechStart: Option<int>,
    lastSpeech: Option<int>)

  const INITIAL := Detector(Silence, [], [], None, None)

  /**
   * `process_frame` on values: `isSpeech` is the classifier's verdict on
   * the normalised frame and `now` the time of the call. The phases move
   * SILENCE -> SPEAKING -> SPEECH_ENDED, and SPEAKING falls back to a fresh
   * detector only on a short speech; the speech window takes every verdict
   * except on that reset.
   */
  function Step(c: VadConfig, d: Detector, isSpeech: bool, now: int): (r: Detector)
    ensures d.phase == Silence ==> r.phase != SpeechEnded
    ensures d.phase == SpeechEnded ==> r.phase == SpeechEnded && r.speechStart == d.speechStart
    ensures d.phase == Speaking && r.phase == Silence ==> r == INITIAL
    ensures d.phase == Speaking && r.phase != Silence ==> r.speechStart == d.speechStart
    ensures r == INITIAL || r.speechFrames == Push(d.speechFrames, isSpeech, c.speechStartFrames)
  {
    var speech := Push(d.speechFrames, isSpeech, c.speechStartFrames);
    var silence := if d.phase == Speaking then Push(d.silenceFrames, !isSpeech, c.speechEndFrames) else d.silenceFrames;
    match d.phase
    case Silence =>
      if |speech| == c.speechStartFrames && AllTrue(speech) then Detector(Speaking, speech, [], Some(now), Some(now))
      else d.(speechFrames := speech)
    case Speaking =>
      var last := if isSpeech then Some(now) else d.lastSpeech;
      var duration := now - StartOr(d.speechStart, now);
      if duration > c.maxSpeechMs then Detector(SpeechEnded, speech, silence, d.speechStart, last)
      else if |silence| == c.speechEndFrames && AllTrue(silence) then
        if duration >= c.minSpeechMs then Detector(SpeechEnded, speech, silence, d.speechStart, last)
        else INITIAL
      else Detector(Speaking, speech, silence, d.speechStart, last)
    case SpeechEnded => d.(speechFrames := speech)
  }

  /** `Step` from SILENCE, as the method's silence branch computes it. */
  lemma StepFromSilence(c: VadConfig, d: Detector, isSpeech: bool, now: int)
    requires d.phase == Silence
    ensures var speech := Push(d.speechFrames, isSpeech, c.speechStartFrames);
      Step(c, d, isSpeech, now) ==
        if |speech| == c.speechStartFrames && AllTrue(speech) then Detector(Speaking, speech, [], Some(now), Some(now))
        else d.(speechFrames := speech)
  {
  }

  /** `Step` from SPEAKING, as the method's speaking branch computes it. */
  lemma StepFromSpeaking(c: VadConfig, d: Detector, isSpeech: bool, now: int)
    requires d.phase == Speaking
    ensures var speech := Push(d.speechFrames, isSpeech, c.speechStartFrames);
      var silence := Push(d.silenceFrames, !isSpeech, c.speechEndFrames);
      var last := if isSpeech then Some(now) else d.lastSpeech;
      var duration := now - StartOr(d.speechStart, now);
      Step(c, d, isSpeech, now) ==
        if duration > c.maxSpeechMs then Detector(SpeechEnded, speech, silence, d.speechStart, last)
        else if |silence| == c.speechEndFrames && AllTrue(silence) && duration < c.minSpeechMs then INITIAL
        else if |silence| == c.speechEndFrames && AllTrue(silence) then Detector(SpeechEnded, speech, silence, d.speechStart, last)
        else Detector(Speaking, speech, silence, d.speechStart, last)
  {
  }

  /** `Step` from SPEECH_ENDED only moves the speech window. */
  lemma StepFromEnded(c: VadConfig, d: Detector, isSpeech: bool, now: int)
    requires d.phase == SpeechEnded
    ensures Step(c, d, isSpeech, now) == d.(speechFrames := Push(d.speechFrames, isSpeech, c.speechStartFrames))
  {
  }

  /** The windows never outgrow their lengths, and the start time is set exactly outside SILENCE. */
  predicate Inv(c: VadConfig, d: Detector) {
    && |d.speechFrames| <= c.speechStartFrames
    && |d.silenceFrames| <= c.speechEndFrames
    && (d.phase == Silence <==> d.speechStart.None?)
    && (d.speechStart.None? <==> d.lastSpeech.None?)
  }

  lemma InitialInv(c: VadConfig)
    ensures Inv(c, INITIAL)
  {
  }

  lemma StepPreservesInv(c: VadConfig, d: Detector, isSpeech: bool, now: int)
    requires Inv(c, d)
    ensures Inv(c, Step(c, d, isSpeech, now))
  {
    var speech := Push(d.speechFrames, isSpeech, c.speechStartFrames);
    assert |speech| <= c.speechStartFrames;
    if d.phase == Speaking {
      var silence := Push(d.silenceFrames, !isSpeech, c.speechEndFrames);
      assert |silence| <= c.speechEndFrames;
    }
  }

  /**
   * From SILENCE the detector starts speaking exactly when the window holds
   * `speech_start_frames` flags, all speech; the start and last-speech times
   * become `now` and the silence window is emptied.
   */
  lemma StartsSpeaking(c: VadConfig, d: Detector, isSpeech: bool, now: int)
    requires d.phase == Silence && Inv(c, d)
    ensures var w := Window(d.speechFrames + [isSpeech], c.speechStartFrames);
      var e := Step(c, d, isSpeech, now);
      && (e.phase == Speaking <==> |w| == c.speechStartFrames && AllTrue(w))
      && (e.phase == Speaking ==> e.speechStart == Some(now) && e.lastSpeech == Some(now) && e.silenceFrames == [])
      && (e.phase != Speaking ==> e == d.(speechFrames := w))
  {
  }

  /** The classifier's verdicts of a run of frames, in order. */
  function Verdicts(frames: seq<(bool, int)>): (v: seq<bool>)
    ensures |v| == |frames|
    ensures forall i :: 0 <= i < |frames| ==> v[i] == frames[i].0
  {
    seq(|frames|, i requires 0 <= i < |frames| => frames[i].0)
  }

  /** A non-empty sequence is its prefix followed by its last element. */
  lemma SplitLast<T>(s: seq<T>)
    requires s != []
    ensures s[..|s| - 1] + [s[|s| - 1]] == s
  {
  }

  lemma VerdictsSnoc(frames: seq<(bool, int)>, last: (bool, int))
    ensures Verdicts(frames + [last]) == Verdicts(frames) + [last.0]
  {
    assert Verdicts(frames + [last])[|frames|] == last.0;
  }

  /**
   * From a fresh detector fed frames while silent, the window is the last
   * `speech_start_frames` verdicts, whatever the frames' times.
   */
  lemma {:induction false} SilentWindowIsHistory(c: VadConfig, frames: seq<(bool, int)>)
    requires forall k :: 0 <= k < |frames| ==> Run(c, INITIAL, frames[..k]).phase == Silence
    ensures Run(c, INITIAL, frames).speechFrames == Window(Verdicts(frames), c.speechStartFrames)
    decreases |frames|
  {
    if frames != [] {
      var init := frames[..|frames| - 1];
      var last := frames[|frames| - 1];
      forall k | 0 <= k < |init| ensures Run(c, INITIAL, init[..k]).phase == Silence {
        assert init[..k] == frames[..k];
      }
      SilentWindowIsHistory(c, init);
      SplitLast(frames);
      VerdictsSnoc(init, last);
      PushWindow(Verdicts(init), last.0, c.speechStartFrames);
      var d := Run(c, INITIAL, init);
      assert d.phase == Silence;
      var e := Step(c, d, last.0, last.1);
      assert e.speechFrames == Push(d.speechFrames, last.0, c.speechStartFrames);
    }
  }

  /** Several frames, each a verdict with the time it was processed, applied in order. */
  function Run(c: VadConfig, d: Detector, frames: seq<(bool, int)>): Detector
    decreases |frames|
  {
    if frames == [] then d
    else
      var last := frames[|frames| - 1];
      Step(c, Run(c, d, frames[..|frames| - 1]), last.0, last.1)
  }

  /** The silence window only grows while SPEAKING. */
  lemma SilenceWindowOnlyWhileSpeaking(c: VadConfig, d: Detector, isSpeech: bool, now: int)
    requires d.phase != Speaking
    ensures var e := Step(c, d, isSpeech, now);
      e.silenceFrames == d.silenceFrames || e.silenceFrames == []
  {
  }

  /** While SPEAKING, running longer than the maximum ends the speech, whatever the silence window says. */
  lemma MaxDurationEnds(c: VadConfig, d: Detector, isSpeech: bool, now: int)
    requires d.phase == Speaking && now - StartOr(d.speechStart, now) > c.maxSpeechMs
    ensures Step(c, d, isSpeech, now).phase == SpeechEnded
    ensures Step(c, d, isSpeech, now).speechStart == d.speechStart
  {
  }

  /**
   * While SPEAKING within the maximum, a full window of silence ends the
   * speech when it lasted at least the minimum and otherwise resets the
   * detector to a fresh SILENCE.
   */
  lemma SilenceEnds(c: VadConfig, d: Detector, isSpeech: bool, now: int)
    requires d.phase == Speaking && now - StartOr(d.speechStart, now) <= c.maxSpeechMs
    requires var w := Push(d.silenceFrames, !isSpeech, c.speechEndFrames); |w| == c.speechEndFrames && AllTrue(w)
    ensures var duration := now - StartOr(d.speechStart, now);
      && (duration >= c.minSpeechMs ==> Step(c, d, isSpeech, now).phase == SpeechEnded)
      && (duration < c.minSpeechMs ==> Step(c, d, isSpeech, now) == INITIAL)
  {
  }

  /** A speech frame keeps SPEAKING going unless the maximum is passed, with `now` as the last speech time. */
  lemma SpeechKeepsSpeaking(c: VadConfig, d: Detector, now: int)
    requires d.phase == Speaking && now - StartOr(d.speechStart, now) <= c.maxSpeechMs && c.speechEndFrames > 0
    ensures Step(c, d, true, now).phase == Speaking && Step(c, d, true, now).lastSpeech == Some(now)
  {
    var w := Push(d.silenceFrames, false, c.speechEndFrames);
    assert !w[|w| - 1];
  }

  /** SPEECH_ENDED is kept by any number of frames, at any times, until a reset. */
  lemma {:induction false} EndedAbsorbing(c: VadConfig, d: Detector, frames: seq<(bool, int)>)
    requires d.phase == SpeechEnded
    ensures Run(c, d, frames).phase == SpeechEnded
    ensures Run(c, d, frames).speechStart == d.speechStart
    ensures Run(c, d, frames).silenceFrames == d.silenceFrames
    decreases |frames|
  {
    if frames != [] {
      EndedAbsorbing(c, d, frames[..|frames| - 1]);
    }
  }

  /** `should_send_audio`: while speaking or once speech has ended. */
  function ShouldSend(d: Detector): (b: bool)
    ensures b <==> d.phase != Silence
  {
    d.phase == Speaking || d.phase == SpeechEnded
  }

  /** `is_speech_complete`. */
  function SpeechComplete(d: Detector): (b: bool)
    ensures b ==> ShouldSend(d)
  {
    d.phase == SpeechEnded
  }

  class VoiceActivityDetector {
    const config: VadConfig
    var state: SpeechState
    var speechFrames: seq<bool>
    var silenceFrames: seq<bool>
    var speechStartTime: Option<int>
    var lastSpeechTime: Option<int>

    function Model(): Detector
      reads this
    {
      Detector(state, speechFrames, silenceFrames, speechStartTime, lastSpeechTime)
    }

    /** `VoiceActivityDetector(config or VADConfig())`: SILENCE with empty windows and no times. */
    constructor (config: Option<VadConfig>)
      ensures this.config == config.GetOr(DEFAULT_CONFIG)
      ensures Model() == INITIAL
    {
      this.config := config.GetOr(DEFAULT_CONFIG);
      state := Silence;
      speechFrames := [];
      silenceFrames := [];
      speechStartTime := None;
      lastSpeechTime := None;
    }

    /** `reset`: back to SILENCE with both windows cleared and both times absent. */
    method Reset()
      modifies this
      ensures Model() == INITIAL
    {
      state := Silence;
      speechFrames := [];
      silenceFrames := [];
      speechStartTime := None;
      lastSpeechTime := None;
    }

    /**
     * `process_frame`: normalise the frame, classify it, update the windows
     * and run the state machine; the new state is returned.
     */
    method ProcessFrame(frame: seq<byte>, classify: seq<byte> -> bool, now: int) returns (result: SpeechState)
      modifies this
      ensures Model() == Step(config, old(Model()), classify(NormalizeFrame(frame, FrameSize(config))), now)
      ensures result == state
    {
      var audioFrame := FitFrame(frame, FrameSize(config));
      var isSpeech := classify(audioFrame);
      Update(isSpeech, now);
      result := state;
    }

    /** The padding or truncation at the head of `process_frame`. */
    static method FitFrame(frame: seq<byte>, expectedSize: int) returns (audioFrame: seq<byte>)
      ensures audioFrame == NormalizeFrame(frame, expectedSize)
    {
      audioFrame := frame;
      if |audioFrame| != expectedSize {
        if |audioFrame| < expectedSize {
          audioFrame := audioFrame + seq(expectedSize - |audioFrame|, _ => 0 as byte);
        } else if expectedSize >= 0 {
          audioFrame := audioFrame[..expectedSize];
        } else {
          audioFrame := audioFrame[..if |audioFrame| + expectedSize >= 0 then |audioFrame| + expectedSize else 0];
        }
      }
    }

    /** The window updates and the state machine of `process_frame`, for the frame's verdict. */
    method Update(isSpeech: bool, now: int)
      modifies this
      ensures Model() == Step(config, old(Model()), isSpeech, now)
    {
      ghost var d := Model();
      speechFrames := Push(speechFrames, isSpeech, config.speechStartFrames);
      if state == Speaking {
        silenceFrames := Push(silenceFrames, !isSpeech, config.speechEndFrames);
      }

      if state == Silence {
        StepFromSilence(config, d, isSpeech, now);
        if |speechFrames| == config.speechStartFrames && AllTrue(speechFrames) {
          state := Speaking;
          speechStartTime := Some(now);
          lastSpeechTime := Some(now);
          silenceFrames := [];
        }
      } else if state == Speaking {
        StepFromSpeaking(config, d, isSpeech, now);
        if isSpeech {
          lastSpeechTime := Some(now);
        }
        var speechDuration := now - StartOr(speechStartTime, now);
        if speechDuration > config.maxSpeechMs {
          state := SpeechEnded;
        } else if |silenceFrames| == config.speechEndFrames && AllTrue(silenceFrames) {
          if speechDuration >= config.minSpeechMs {
            state := SpeechEnded;
          } else {
            Reset();
          }
        }
      } else {
        StepFromEnded(config, d, isSpeech, now);
      }
    }

    /** `should_send_audio`. */
    function ShouldSendAudio(): (b: bool)
      reads this
      ensures b <==> state == Speaking || state == SpeechEnded
      ensures b == ShouldSend(Model())
    {
      state != Silence
    }

    /** `is_speech_complete`. */
    function IsSpeechComplete(): (b: bool)
      reads this
      ensures b <==> state == SpeechEnded
      ensures b == SpeechComplete(Model())
    {
      state == SpeechEnded
    }
  }
}
