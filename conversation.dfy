/** The conversation-turn sequencer of the main screen (src/App.tsx).

    `handleAudio` is an async function with two awaits; each piece between
    awaits is a step method here (`Begin`, `AfterStt`, `AfterTts`), so that
    several overlapping turns are ordinary sequences of calls. A turn holds
    the id it drew from `currentConversation` and the settings its closure
    captured; after each await it goes on only while its id is current.

    The detector is built once (src/hooks/useMic.ts:16-22) and keeps calling
    the `handleAudio` of the render that built it, so every turn runs with
    that render's settings, not the current ones (`App.handlerSettings`). */
module Conversation {
  import opened Js
  import Settings
  import Stt
  import Wav

  /** The `HTMLAudioElement` the text-to-speech call hands back. */
  class AudioElement {
    var paused: bool
    var currentTime: int
    var hasOnEnded: bool

    constructor()
      ensures paused && currentTime == 0 && !hasOnEnded
    {
      paused := true;
      currentTime := 0;
      hasOnEnded := false;
    }

    method Pause()
      modifies this
      ensures paused && currentTime == old(currentTime) && hasOnEnded == old(hasOnEnded)
    {
      paused := true;
    }
  }

  /** The voice-activity detector as far as the button handler sees it. */
  class Vad {
    var listening: bool

    constructor()
      ensures !listening
    {
      listening := false;
    }

    method Pause()
      modifies this
      ensures !listening
    {
      listening := false;
    }

    method Start()
      modifies this
      ensures listening
    {
      listening := true;
    }
  }

  /** A turn in flight: its id, the settings its closure captured, and the
      transcript once the speech-to-text step has returned. */
  datatype Run = Run(id: int, config: Settings.Config, transcript: Option<string>)

  /** The request the turn's speech-to-text step sends for `audio`. */
  function SttRequestOf(run: Run, audio: seq<Wav.Sample>): Stt.Request {
    Stt.SttRequest(run.config.chatflowId, run.config.sessionId, audio)
  }

  /** The arguments of the turn's text-to-speech call. */
  datatype TtsRequest = TtsRequest(text: Option<string>, voice: string, rate: int, pitch: int)

  function TtsRequestOf(run: Run): TtsRequest {
    TtsRequest(run.transcript, run.config.voice, run.config.speechRate, run.config.speechPitch)
  }

  /** The message `setError` receives for an error result: only a non-empty one. */
  function ErrorMessage(e: Option<JsError>): (r: Option<string>)
    ensures r.Some? <==> e.Some? && e.value.message != ""
    ensures r.Some? ==> r.value == e.value.message
  {
    if e.Some? && e.value.message != "" then Some(e.value.message) else None
  }

  class App {
    var isAppListening: bool
    var isHandleAudio: bool
    var caption: Option<string>
    var error: Option<string>
    var settings: Settings.Config
    var currentConversation: int
    var audioRef: AudioElement?
    var vad: Vad?
    /** The settings captured by the `handleAudio` the detector calls: those of
        the first render, whose effect builds the detector. No later render
        replaces that callback. */
    var handlerSettings: Settings.Config
    /** The ids `Begin` has handed out so far. */
    ghost var issued: set<int>

    /** Every id handed out lies above the initial 1 and at most the current one. */
    ghost predicate Valid()
      reads this
    {
      && currentConversation >= 1
      && Settings.Valid(settings)
      && forall id :: id in issued ==> 1 < id <= currentConversation
    }

    /** The chat area is empty: no audio, no caption, no error, not busy. */
    predicate ChatCleared()
      reads this
    {
      audioRef == null && !isHandleAudio && caption.None? && error.None?
    }

    /** The first render: every state at its initial value. */
    constructor(sessionId: string, vad: Vad?)
      ensures Valid() && ChatCleared() && !isAppListening
      ensures settings == handlerSettings == Settings.Defaults(sessionId)
      ensures currentConversation == 1 && issued == {}
      ensures this.vad == vad
    {
      isAppListening := false;
      isHandleAudio := false;
      caption := None;
      error := None;
      settings := Settings.Defaults(sessionId);
      handlerSettings := settings;
      currentConversation := 1;
      audioRef := null;
      this.vad := vad;
      issued := {};
      Settings.DefaultsValid(sessionId);
    }

    /** Silences and detaches the audio element, if any. */
    method StopAudio()
      modifies this, (if audioRef == null then {} else {audioRef})
      ensures audioRef == null
      ensures old(audioRef) != null ==>
        old(audioRef).paused && old(audioRef).currentTime == 0 && !old(audioRef).hasOnEnded
      ensures isAppListening == old(isAppListening) && isHandleAudio == old(isHandleAudio)
      ensures caption == old(caption) && error == old(error) && settings == old(settings)
      ensures currentConversation == old(currentConversation) && vad == old(vad) && issued == old(issued)
      ensures handlerSettings == old(handlerSettings)
    {
      if audioRef != null {
        audioRef.Pause();
        audioRef.currentTime := 0;
        audioRef.hasOnEnded := false;
      }
      audioRef := null;
    }

    /** `handleResetChat`: clears the chat area; the turn counter is untouched,
        so no turn in flight is superseded. */
    method ResetChat()
      requires Valid()
      modifies this, (if audioRef == null then {} else {audioRef})
      ensures Valid() && ChatCleared()
      ensures old(audioRef) != null ==>
        old(audioRef).paused && old(audioRef).currentTime == 0 && !old(audioRef).hasOnEnded
      ensures isAppListening == old(isAppListening) && settings == old(settings)
      ensures currentConversation == old(currentConversation) && vad == old(vad) && issued == old(issued)
      ensures handlerSettings == old(handlerSettings)
    {
      StopAudio();
      isHandleAudio := false;
      caption := None;
      error := None;
    }

    /** The synchronous start of `handleAudio`: draw the next id, clear the
        chat, show the busy state. The check that follows (src/App.tsx:65)
        always passes, because nothing runs in between. */
    method Begin() returns (run: Run)
      requires Valid()
      modifies this, (if audioRef == null then {} else {audioRef})
      ensures Valid()
      ensures run.id == old(currentConversation) + 1 == currentConversation
      ensures run.id !in old(issued) && issued == old(issued) + {run.id}
      ensures forall id :: id in old(issued) ==> id < run.id
      ensures run.config == handlerSettings && settings == old(settings) && run.transcript.None?
      ensures audioRef == null && caption.None? && error.None? && isHandleAudio
      ensures old(audioRef) != null ==>
        old(audioRef).paused && old(audioRef).currentTime == 0 && !old(audioRef).hasOnEnded
      ensures isAppListening == old(isAppListening) && vad == old(vad)
      ensures handlerSettings == old(handlerSettings)
    {
      var conversationId := currentConversation + 1;
      currentConversation := conversationId;
      issued := issued + {conversationId};
      ResetChat();
      isHandleAudio := true;
      run := Run(conversationId, handlerSettings, None);
    }

    /** After the speech-to-text await: report a non-empty error message, then
        stop if a newer turn has begun. A failed transcription does not stop
        the turn; it goes on to text-to-speech with no transcript. */
    method AfterStt(run: Run, textResponse: Option<string>, textError: Option<JsError>)
      returns (next: Option<Run>)
      requires Valid()
      modifies this
      ensures Valid()
      ensures error == (if ErrorMessage(textError).Some? then ErrorMessage(textError) else old(error))
      ensures next.Some? <==> run.id == currentConversation
      ensures run.id in issued ==> (next.None? <==> run.id < currentConversation)
      ensures next.Some? ==> next.value == run.(transcript := textResponse)
      ensures caption == old(caption) && audioRef == old(audioRef) && isHandleAudio == old(isHandleAudio)
      ensures isAppListening == old(isAppListening) && settings == old(settings) && vad == old(vad)
      ensures handlerSettings == old(handlerSettings)
      ensures currentConversation == old(currentConversation) && issued == old(issued)
    {
      if textError.Some? || textResponse.None? || textResponse == Some("") {
        if textError.Some? && textError.value.message != "" {
          error := Some(textError.value.message);
        }
      }
      if run.id != currentConversation {
        return None;
      }
      next := Some(run.(transcript := textResponse));
    }

    /** After the text-to-speech await: report a non-empty error message, then,
        only if this turn is still the current one, hand over the audio, show
        the transcript and leave the busy state. */
    method AfterTts(run: Run, ttsResponse: AudioElement?, ttsError: Option<JsError>)
      requires Valid()
      modifies this
      ensures Valid()
      ensures error == (if ErrorMessage(ttsError).Some? then ErrorMessage(ttsError) else old(error))
      ensures run.id == currentConversation ==>
        audioRef == ttsResponse && caption == run.transcript && !isHandleAudio
      ensures run.id != currentConversation ==>
        audioRef == old(audioRef) && caption == old(caption) && isHandleAudio == old(isHandleAudio)
      ensures run.id in issued ==> (run.id != currentConversation <==> run.id < currentConversation)
      ensures isAppListening == old(isAppListening) && settings == old(settings) && vad == old(vad)
      ensures handlerSettings == old(handlerSettings)
      ensures currentConversation == old(currentConversation) && issued == old(issued)
    {
      if ttsError.Some? || ttsResponse == null {
        if ttsError.Some? && ttsError.value.message != "" {
          error := Some(ttsError.value.message);
        }
      }
      if run.id != currentConversation {
        return;
      }
      audioRef := ttsResponse;
      caption := run.transcript;
      isHandleAudio := false;
    }

    /** `handleNewChat`: a fresh session id, then the chat reset. */
    method NewChat(newSessionId: string)
      requires Valid()
      modifies this, (if audioRef == null then {} else {audioRef})
      ensures Valid() && ChatCleared()
      ensures settings == old(settings).(sessionId := newSessionId)
      ensures old(audioRef) != null ==>
        old(audioRef).paused && old(audioRef).currentTime == 0 && !old(audioRef).hasOnEnded
      ensures isAppListening == old(isAppListening) && vad == old(vad)
      ensures handlerSettings == old(handlerSettings)
      ensures currentConversation == old(currentConversation) && issued == old(issued)
    {
      settings := settings.(sessionId := newSessionId);
      Settings.SessionChangeKeepsValid(old(settings), newSessionId);
      ResetChat();
    }

    /** `handleResetDefaults`: every setting back to its initial value with a
        fresh session id, caption and error cleared. Unlike the chat reset it
        leaves the busy flag alone. */
    method ResetDefaults(newSessionId: string)
      requires Valid()
      modifies this, (if audioRef == null then {} else {audioRef})
      ensures Valid()
      ensures settings == Settings.Defaults(newSessionId)
      ensures audioRef == null && caption.None? && error.None?
      ensures old(audioRef) != null ==>
        old(audioRef).paused && old(audioRef).currentTime == 0 && !old(audioRef).hasOnEnded
      ensures isHandleAudio == old(isHandleAudio) && isAppListening == old(isAppListening)
      ensures currentConversation == old(currentConversation) && vad == old(vad) && issued == old(issued)
      ensures handlerSettings == old(handlerSettings)
    {
      StopAudio();
      caption := None;
      error := None;
      settings := Settings.Defaults(newSessionId);
      Settings.DefaultsValid(newSessionId);
    }

    /** `handleMainButtonClick`: reset the chat, pause a listening detector,
        and start it when the app was not listening. Both tests read the
        values of the render the click happened in. When the flag and the
        detector agree, the click toggles listening; when the flag says
        listening but the detector is paused, the click leaves both as they are. */
    method MainButtonClick()
      requires Valid()
      modifies this, (if audioRef == null then {} else {audioRef}), (if vad == null then {} else {vad})
      ensures Valid() && ChatCleared() && vad == old(vad)
      ensures handlerSettings == old(handlerSettings)
      ensures vad == null ==> isAppListening == old(isAppListening)
      ensures vad != null ==> isAppListening == !(old(isAppListening) && old(vad.listening))
      ensures vad != null ==> vad.listening == !old(isAppListening)
      ensures vad != null && old(isAppListening) == old(vad.listening) ==>
        isAppListening == !old(isAppListening) && vad.listening == isAppListening
      ensures old(audioRef) != null ==>
        old(audioRef).paused && old(audioRef).currentTime == 0 && !old(audioRef).hasOnEnded
      ensures settings == old(settings)
      ensures currentConversation == old(currentConversation) && issued == old(issued)
    {
      var appListening := isAppListening;
      var detectorListening := vad != null && vad.listening;
      ResetChat();
      if vad != null && detectorListening {
        vad.Pause();
        isAppListening := false;
      }
      if vad != null && !appListening {
        vad.Start();
        isAppListening := true;
      }
    }

    /** A slider of the settings sheet reporting its value array. */
    method SlideTo(f: Settings.Field, values: seq<int>)
      requires Valid()
      requires |values| > 0 && Settings.OnSlider(Settings.SliderOf(f), values[0])
      modifies this
      ensures Valid()
      ensures settings == Settings.Set(old(settings), f, values[0])
      ensures isAppListening == old(isAppListening) && isHandleAudio == old(isHandleAudio)
      ensures caption == old(caption) && error == old(error) && audioRef == old(audioRef)
      ensures currentConversation == old(currentConversation) && vad == old(vad) && issued == old(issued)
      ensures handlerSettings == old(handlerSettings)
    {
      Settings.SliderChangeKeepsValid(settings, f, values);
      settings := Settings.Set(settings, f, Settings.SliderValue(values).value);
    }

    /** The voice selector picking one of its entries. */
    method SelectVoice(voice: string)
      requires Valid() && voice in Settings.Voices
      modifies this
      ensures Valid()
      ensures settings == old(settings).(voice := voice)
      ensures isAppListening == old(isAppListening) && isHandleAudio == old(isHandleAudio)
      ensures caption == old(caption) && error == old(error) && audioRef == old(audioRef)
      ensures currentConversation == old(currentConversation) && vad == old(vad) && issued == old(issued)
      ensures handlerSettings == old(handlerSettings)
    {
      Settings.VoiceChangeKeepsValid(settings, voice);
      settings := settings.(voice := voice);
    }
  }

  /** Two overlapping turns, the older one answering last: only the newer
      one's transcript and audio are shown, and the busy state ends with it. */
  method LatestTurnWins() returns (caption: Option<string>, busy: bool, olderWentOn: bool)
    ensures caption == Some("second") && !busy && !olderWentOn
  {
    var app := new App("s", null);
    var first := app.Begin();
    var second := app.Begin();
    var secondNext := app.AfterStt(second, Some("second"), None);
    var speech := new AudioElement();
    app.AfterTts(secondNext.value, speech, None);
    var firstNext := app.AfterStt(first, Some("first"), None);
    olderWentOn := firstNext.Some?;
    caption, busy := app.caption, app.isHandleAudio;
  }

  /** A superseded turn still reports its error, because `setError` comes
      before the staleness check. */
  method StaleErrorShows() returns (error: Option<string>, caption: Option<string>)
    ensures error == Some("Server responded with status 500") && caption == Some("hi")
  {
    var app := new App("s", null);
    var first := app.Begin();
    var second := app.Begin();
    var secondNext := app.AfterStt(second, Some("hi"), None);
    var speech := new AudioElement();
    app.AfterTts(secondNext.value, speech, None);
    var _ := app.AfterStt(first, None, Some(JsError("Server responded with status 500")));
    error, caption := app.error, app.caption;
  }

  /** A failed transcription does not end the turn: it goes on to speech
      synthesis and finishes with the error shown and no caption. */
  method FailedSttContinues() returns (wentOn: bool, error: Option<string>, caption: Option<string>, busy: bool)
    ensures wentOn && error == Some("Failed to parse JSON response") && caption.None? && !busy
  {
    var app := new App("s", null);
    var run := app.Begin();
    var next := app.AfterStt(run, None, Some(JsError("Failed to parse JSON response")));
    wentOn := next.Some?;
    if next.Some? {
      app.AfterTts(next.value, null, None);
    }
    error, caption, busy := app.error, app.caption, app.isHandleAudio;
  }

  /** "New chat" while a turn is in flight does not supersede it: the old
      turn's answer appears in the new chat. */
  method NewChatKeepsTurn() returns (caption: Option<string>, sessionId: string)
    ensures caption == Some("old answer") && sessionId == "t"
  {
    var app := new App("s", null);
    var run := app.Begin();
    app.NewChat("t");
    var next := app.AfterStt(run, Some("old answer"), None);
    var speech := new AudioElement();
    app.AfterTts(next.value, speech, None);
    caption, sessionId := app.caption, app.settings.sessionId;
  }

  /** Settings changed after the first render never reach a turn: after
      "new chat" and a new voice, the next turn still sends the first session
      id to speech-to-text and asks text-to-speech for the first voice. */
  method SettingsNotSeenByTurns() returns (chatId: string, tts: TtsRequest)
    ensures chatId == "s"
    ensures tts == TtsRequest(Some("hi"), Settings.DefaultVoice, 0, 0)
  {
    var app := new App("s", null);
    app.NewChat("t");
    app.SelectVoice(Settings.Voices[0]);
    var run := app.Begin();
    var next := app.AfterStt(run, Some("hi"), None);
    chatId := SttRequestOf(run, []).body.chatId;
    tts := TtsRequestOf(next.value);
  }
}
