/** The settings a user can change in the settings sheet
    (src/components/SettingsSheet.tsx) and the values the app starts from and
    restores on "Reset Defaults" (src/App.tsx). Thresholds are fractions in
    the source; here they are counted in hundredths, so the slider from 0.1
    to 1 in steps of 0.01 runs from 10 to 100 in steps of 1. */
module Settings {
  import opened Js

  /** The eight numeric settings, each edited through one slider. */
  datatype Field =
    | PositiveSpeechThreshold | NegativeSpeechThreshold
    | RedemptionFrames | FrameSamples | PreSpeechPadFrames | MinSpeechFrames
    | SpeechRate | SpeechPitch

  datatype Slider = Slider(min: int, max: int, step: int)

  /** The bounds and step handed to each `SliderGroup`. */
  function SliderOf(f: Field): Slider {
    match f
    case PositiveSpeechThreshold => Slider(10, 100, 1)
    case NegativeSpeechThreshold => Slider(0, 100, 1)
    case RedemptionFrames => Slider(1, 20, 1)
    case FrameSamples => Slider(512, 2048, 1)
    case PreSpeechPadFrames => Slider(0, 10, 1)
    case MinSpeechFrames => Slider(1, 10, 1)
    case SpeechRate => Slider(-50, 50, 1)
    case SpeechPitch => Slider(-20, 20, 1)
  }

  /** The voices the voice selector offers, in display order. */
  const Voices: seq<string> := [
    "en-US-AndrewMultilingualNeural - en-US (Male)",
    "en-US-BrianNeural - en-US (Male)",
    "en-US-RogerNeural - en-US (Male)",
    "en-US-MichelleNeural - en-US (Female)",
    "en-US-GuyNeural - en-US (Male)",
    "en-US-BrianMultilingualNeural - en-US (Male)",
    "en-US-SteffanNeural - en-US (Male)",
    "en-US-AvaNeural - en-US (Female)",
    "en-US-EmmaNeural - en-US (Female)",
    "en-US-EmmaMultilingualNeural - en-US (Female)",
    "en-US-AriaNeural - en-US (Female)",
    "en-US-AndrewNeural - en-US (Male)",
    "en-US-AnaNeural - en-US (Female)",
    "en-US-ChristopherNeural - en-US (Male)",
    "en-US-JennyNeural - en-US (Female)",
    "en-US-EricNeural - en-US (Male)",
    "en-US-AvaMultilingualNeural - en-US (Female)"
  ]

  const DefaultVoice := "en-US-RogerNeural - en-US (Male)"
  const DefaultChatflowId := "e89d6572-be23-4709-a1f5-ab2aaada13cd"

  /** Everything the settings sheet edits, plus the session id it regenerates. */
  datatype Config = Config(
    chatflowId: string,
    sessionId: string,
    voice: string,
    speechRate: int,
    speechPitch: int,
    positiveSpeechThreshold: int,
    negativeSpeechThreshold: int,
    redemptionFrames: int,
    frameSamples: int,
    preSpeechPadFrames: int,
    minSpeechFrames: int)

  function Get(c: Config, f: Field): int {
    match f
    case PositiveSpeechThreshold => c.positiveSpeechThreshold
    case NegativeSpeechThreshold => c.negativeSpeechThreshold
    case RedemptionFrames => c.redemptionFrames
    case FrameSamples => c.frameSamples
    case PreSpeechPadFrames => c.preSpeechPadFrames
    case MinSpeechFrames => c.minSpeechFrames
    case SpeechRate => c.speechRate
    case SpeechPitch => c.speechPitch
  }

  /** The setter a slider is wired to: replaces one field. */
  function Set(c: Config, f: Field, v: int): (r: Config)
    ensures Get(r, f) == v
    ensures forall g :: g != f ==> Get(r, g) == Get(c, g)
    ensures r.chatflowId == c.chatflowId && r.sessionId == c.sessionId && r.voice == c.voice
  {
    match f
    case PositiveSpeechThreshold => c.(positiveSpeechThreshold := v)
    case NegativeSpeechThreshold => c.(negativeSpeechThreshold := v)
    case RedemptionFrames => c.(redemptionFrames := v)
    case FrameSamples => c.(frameSamples := v)
    case PreSpeechPadFrames => c.(preSpeechPadFrames := v)
    case MinSpeechFrames => c.(minSpeechFrames := v)
    case SpeechRate => c.(speechRate := v)
    case SpeechPitch => c.(speechPitch := v)
  }

  /** A value a slider can take: within its bounds and on its step grid. */
  predicate OnSlider(s: Slider, v: int)
    requires s.step > 0
  {
    s.min <= v <= s.max && (v - s.min) % s.step == 0
  }

  predicate WellFormedSlider(s: Slider) {
    s.min < s.max && s.step > 0
  }

  /** A configuration every control of the sheet can display: the voice is one
      the selector offers and every number is a value its slider can take. */
  predicate Valid(c: Config) {
    && c.voice in Voices
    && forall f :: OnSlider(SliderOf(f), Get(c, f))
  }

  /** The state the app starts with, and the one "Reset Defaults" restores. */
  function Defaults(sessionId: string): Config {
    Config(
      chatflowId := DefaultChatflowId,
      sessionId := sessionId,
      voice := DefaultVoice,
      speechRate := 0,
      speechPitch := 0,
      positiveSpeechThreshold := 50,
      negativeSpeechThreshold := 35,
      redemptionFrames := 8,
      frameSamples := 1024,
      preSpeechPadFrames := 1,
      minSpeechFrames := 5)
  }

  /** `SliderGroup` forwards the first element of the slider's value array
      (reading past the end of an empty array gives `undefined`). */
  function SliderValue(values: seq<int>): (r: Option<int>)
    ensures r.Some? <==> |values| > 0
    ensures r.Some? ==> r.value == values[0]
  {
    if |values| == 0 then None else Some(values[0])
  }

  /** A single-thumb slider hands back the value it displays. */
  lemma SliderValueRoundTrip(v: int)
    ensures SliderValue([v]) == Some(v)
  {
  }

  /** Every slider has a proper range and a positive step. */
  lemma SlidersWellFormed(f: Field)
    ensures WellFormedSlider(SliderOf(f))
  {
  }

  /** The defaults, whatever session id is drawn, are valid. */
  lemma DefaultsValid(sessionId: string)
    ensures Valid(Defaults(sessionId))
  {
    var c := Defaults(sessionId);
    assert Voices[2] == DefaultVoice;
    forall f ensures OnSlider(SliderOf(f), Get(c, f)) {
      match f
      case PositiveSpeechThreshold =>
      case NegativeSpeechThreshold =>
      case RedemptionFrames =>
      case FrameSamples =>
      case PreSpeechPadFrames =>
      case MinSpeechFrames =>
      case SpeechRate =>
      case SpeechPitch =>
    }
  }

  /** Moving one slider to a value it offers keeps the configuration valid
      and changes that setting alone. */
  lemma SliderChangeKeepsValid(c: Config, f: Field, values: seq<int>)
    requires Valid(c)
    requires |values| > 0 && OnSlider(SliderOf(f), values[0])
    ensures SliderValue(values).Some?
    ensures Valid(Set(c, f, SliderValue(values).value))
    ensures Get(Set(c, f, SliderValue(values).value), f) == values[0]
  {
    var r := Set(c, f, values[0]);
    forall g ensures OnSlider(SliderOf(g), Get(r, g)) {
      if g != f {
        assert Get(r, g) == Get(c, g);
      }
    }
  }

  /** Picking a voice the selector offers keeps the configuration valid. */
  lemma VoiceChangeKeepsValid(c: Config, voice: string)
    requires Valid(c) && voice in Voices
    ensures Valid(c.(voice := voice))
  {
    var r := c.(voice := voice);
    forall g ensures OnSlider(SliderOf(g), Get(r, g)) {
      assert Get(r, g) == Get(c, g);
    }
  }

  /** A new session id leaves every other setting, and validity, as it was. */
  lemma SessionChangeKeepsValid(c: Config, sessionId: string)
    requires Valid(c)
    ensures Valid(c.(sessionId := sessionId))
  {
    var r := c.(sessionId := sessionId);
    forall g ensures OnSlider(SliderOf(g), Get(r, g)) {
      assert Get(r, g) == Get(c, g);
    }
  }

  /** The voice list has no duplicates, as its use as React keys requires. */
  lemma VoicesDistinct()
    ensures |Voices| == 17
    ensures forall i, j :: 0 <= i < j < |Voices| ==> Voices[i] != Voices[j]
  {
  }
}
