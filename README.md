# liveVoiceChat in Dafny

liveVoiceChat is a browser voice assistant. A voice-activity detector hands
each finished utterance to the main screen (`src/App.tsx`). The screen
encodes the utterance as a WAVE file inside a `data:` URL
(`float2Audio`, `src/lib/utils.ts`) and posts it to a prediction endpoint
for speech-to-text (`sttPrediction`). It then hands the transcript to
text-to-speech and plays the returned audio element while showing the
transcript as the caption. A counter, `currentConversation`, makes sure
that only the newest utterance's answer reaches the screen when several are
in flight. The settings sheet (`src/components/SettingsSheet.tsx`) tunes the
detector and the voice. The recorder panel formats progress times as `mm:ss`
(`formatTime`, `src/components/Wavesurfer.tsx`).

The model is split into modules that follow the program:

- `Js` (js.dfy): null/undefined as `Option`, `Error` objects, thrown values,
  and how an awaited call ends.
- `Text` (text.dfy): `Number.prototype.toString` for integers below 10^21
  in magnitude, and `String.prototype.padStart`.
- `TimeFormat` (time_format.dfy): `formatTime`, with JavaScript's truncating
  `%` and `Math.floor` written out.
- `Settings` (settings.dfy): the slider table, the voice list, the defaults
  and a validity predicate. Thresholds are counted in hundredths.
- `Base64` (base64.dfy): `btoa` on bytes, as the base64 alphabet with `=`
  padding of RFC 4648, section 4, and a decoder proved to invert it.
- `Wav` (wav.dfy): the WAVE layout as functions, a reader for it, and
  `float2Audio` as an imperative method writing into arrays the way the
  source writes into its `DataView` and `Uint8Array`s.
- `Stt` (stt.dfy): `tryCatch`, the request `sttPrediction` sends, and how
  it maps each reply to a result or a thrown error. The network is a
  function parameter from the request to the way `fetch` ends.
- `Conversation` (conversation.dfy): the `App` class with one field per
  piece of React state or ref it uses. `handleAudio` is cut at its awaits
  into step methods `Begin`, `AfterStt` and `AfterTts`. Overlapping
  utterances are then plain call sequences; five scenario methods run such
  sequences.

The model keeps these behaviours of the code:

- A superseded turn still sets `error`, because `setError` runs before the
  staleness check (src/App.tsx:70-74, 79-83).
- A failed transcription does not end the turn. It goes on to
  text-to-speech without a transcript.
- "New chat" and "main button" call `handleResetChat`, which does not bump
  `currentConversation`. A turn in flight therefore survives them, and its
  answer appears in the new chat. "Reset defaults" does not bump it either.
- After playback the `onended` handler is `handleResetChat` itself
  (src/App.tsx:104), so the chat clears as soon as the audio ends.
- Every turn runs with the settings of the first render. `useMicVAD` builds
  the detector only while none exists (src/hooks/useMic.ts:16-22). The
  detector's `onSpeechEnd` calls the `handleAudio` of the render that built
  it (src/hooks/useMic.ts:7-14), and that closure captured the chatflow id,
  session id, voice, rate and pitch of its render (src/App.tsx:91-98). So a
  session id from "New chat" or a newly chosen voice never reaches a request.
  The model keeps these captured values in `App.handlerSettings`.

## Model

| member | source | states |
|---|---|---|
| TimeFormat.JsRem | src/components/Wavesurfer.tsx:105 | JavaScript's `%` keeps the dividend's sign: for a non-negative dividend the result lies in [0, b), for a negative one in (-b, 0] |
| TimeFormat.JsRemTruncates | src/components/Wavesurfer.tsx:105-108 | `%` is the remainder of the division rounded toward zero: a = b·trunc(a/b) + a % b for every integer a |
| TimeFormat.FormatTimeDigits | src/components/Wavesurfer.tsx:104-112 | of `formatTime` (`TimeFormat.FormatTime`, which carries no contract of its own): for t ≥ 0, minutes = ⌊(t mod 3600000)/60000⌋ and seconds = ⌊(t mod 60000)/1000⌋, both in [0, 59], and the text is their two zero-padded digits around ':' |
| TimeFormat.FormatTimeShape | src/components/Wavesurfer.tsx:111 | for t ≥ 0 the result has length 5, ':' at index 2 and digits elsewhere |
| TimeFormat.FormatTimeBrackets | src/components/Wavesurfer.tsx:104-111 | reading the two fields back from the text gives minutes and seconds with 60000·mm + 1000·ss ≤ t mod 3600000 < that + 1000 |
| TimeFormat.FormatTimeFirstHour | src/components/Wavesurfer.tsx:104-111 | for 0 ≤ t < 3600000 the fields read back from the text bracket t itself to the second |
| TimeFormat.FormatTimeDropsHours | src/components/Wavesurfer.tsx:105-108 | formatTime(t + 3600000) = formatTime(t): hours are discarded |
| TimeFormat.FormatTimeNegative | src/components/Wavesurfer.tsx:105-110 | a negative time is not clamped: formatTime(-1) is "-1:-1" |
| Text.NatToString | src/components/Wavesurfer.tsx:106 | `toString` of a natural number: non-empty, all digits, no leading zero, one digit exactly below 10 |
| Text.NatToStringRoundTrip | src/components/Wavesurfer.tsx:106 | the decimal value of `toString(n)` is n |
| Text.IntToString | src/components/Wavesurfer.tsx:105-110 | `toString` of any integer is non-empty and starts with '-' exactly when the number is negative |
| Text.IntToStringRoundTrip | src/lib/utils.ts:59 | for integers below 10^21 in magnitude, `toString(n)` reads back as n: the digits of n, or '-' followed by the digits of -n |
| Text.PadStart | src/components/Wavesurfer.tsx:107 | `padStart(width, fill)` keeps the string as its suffix and fills the front up to the width |
| Text.TwoDigits | src/components/Wavesurfer.tsx:106-110 | for n < 100, padding `toString(n)` to two places gives the tens digit then the units digit |
| Settings.Set | src/components/SettingsSheet.tsx:159-226 | a slider's setter changes its own setting to the value and no other setting |
| Settings.SliderValue | src/components/SettingsSheet.tsx:259 | the slider forwards exactly the first element of its value array; an empty array gives undefined |
| Settings.SliderValueRoundTrip | src/components/SettingsSheet.tsx:258-259 | a slider showing `[v]` hands back v |
| Settings.SlidersWellFormed | src/components/SettingsSheet.tsx:159-226 | of the slider table `Settings.SliderOf`: every slider has min < max and a positive step |
| Settings.DefaultsValid | src/App.tsx:20-39 | the initial values `Settings.Defaults` (also restored at src/App.tsx:139-149), for any session id, satisfy `Settings.Valid`: the voice is in the list and every number is on its slider |
| Settings.SliderChangeKeepsValid | src/components/SettingsSheet.tsx:257-262 | moving a slider to a value it offers keeps the settings valid and sets that setting to the first array element |
| Settings.VoiceChangeKeepsValid | src/components/SettingsSheet.tsx:118-145 | choosing a listed voice keeps the settings valid |
| Settings.SessionChangeKeepsValid | src/App.tsx:166-167 | a new session id keeps the settings valid |
| Settings.VoicesDistinct | src/components/SettingsSheet.tsx:123-142 | the voice list `Settings.Voices` has 17 voices, pairwise distinct, as their use as keys requires |
| Base64.DecodeChar | src/lib/utils.ts:112 | a character that decodes gives a 6-bit value |
| Base64.SextetRoundTrip | src/lib/utils.ts:112 | the alphabet character of a 6-bit value decodes to that value and is never '=' |
| Base64.GroupRoundTrip | src/lib/utils.ts:112 | a full 3-byte group encodes to 4 characters that decode to the same bytes |
| Base64.RoundTrip | src/lib/utils.ts:112 | decoding `btoa` (`Base64.Encode`, which carries no contract of its own) of any byte string gives back the bytes, for every length including the padded tails |
| Base64.EncodeLength | src/lib/utils.ts:112 | the encoding of n bytes has 4·⌈n/3⌉ characters |
| Base64.EncodeAlphabet | src/lib/utils.ts:112 | every character of the encoding is in the alphabet or is '=' |
| Wav.U16RoundTrip | src/lib/utils.ts:96-101 | the two bytes `setUint16(…, true)` writes, read back little-endian, give v mod 2^16 |
| Wav.U32RoundTrip | src/lib/utils.ts:91-104 | the four bytes `setUint32(…, true)` writes, read back little-endian, give v mod 2^32 |
| Wav.SetUint8 | src/lib/utils.ts:86 | after `setUint8(offset, v)` the buffer is its old contents with v mod 256 at the offset |
| Wav.SetUint16 | src/lib/utils.ts:96-101 | after `setUint16(offset, v, true)` the buffer is its old contents with the two little-endian bytes of v mod 2^16 at the offset |
| Wav.SetUint32 | src/lib/utils.ts:91-104 | after `setUint32(offset, v, true)` the buffer is its old contents with the four little-endian bytes of v mod 2^32 at the offset |
| Wav.Ascii | src/lib/utils.ts:84-88 | one byte per character, the character code mod 256 |
| Wav.Header | src/lib/utils.ts:81 | the header is exactly 44 bytes |
| Wav.HeaderFields | src/lib/utils.ts:74-104 | "RIFF" at 0, "WAVE" at 8, "fmt " at 12, "data" at 36; u32 at 4 is (36 + dataSize) mod 2^32, at 16 is 16, at 24 is 16000, at 28 is 64000, at 40 is dataSize mod 2^32; u16 at 20 is 3, at 22 is 1, at 32 is 4, at 34 is 32 |
| Wav.SampleBytesLayout | src/lib/utils.ts:107 | sample i occupies bytes 4i to 4i+3 of the sample buffer, in order |
| Wav.WavLayout | src/lib/utils.ts:106-110 | the file has 44 + 4n bytes: the header, then the sample bytes verbatim |
| Wav.WavRoundTrip | src/lib/utils.ts:79-110 | while 36 + 4n < 2^32, a WAVE reader recovers sizes 36 + 4n and 4n, format 3, mono, 16000 Hz, 64000 B/s, block 4, 32 bits, and the sample bytes |
| Wav.DataUrlRoundTrip | src/lib/utils.ts:112-113 | the URL starts with "data:audio/wav; codecs=1;base64," and the rest decodes to the whole file |
| Wav.WriteHeader | src/lib/utils.ts:81-104 | the thirteen `DataView` writes, in source order, leave the buffer equal to the 44-byte header |
| Wav.WriteString | src/lib/utils.ts:84-88 | the buffer afterwards is its old contents with the character codes written from the offset on; every other byte is unchanged |
| Wav.TypedArraySet | src/lib/utils.ts:109-110 | after `set(source, offset)` the target is its old contents with the source written from the offset on |
| Wav.Float2Audio | src/lib/utils.ts:73-114 | the returned string is the prefix followed by the base64 of header plus sample bytes |
| Stt.AsError | src/lib/utils.ts:18 | a caught `Error` is kept; anything else becomes an `Error` whose message is its string |
| Stt.TryCatch | src/lib/utils.ts:8-21 | `{data: v, error: null}` when the call returns v, `{data: null, error: e}` on a throw, with a non-`Error` e wrapped; a returned value is never null here, so exactly one side is set |
| Stt.TryCatchRethrow | src/lib/utils.ts:12-20 | rethrowing a settled record restores the original outcome, except that a thrown non-`Error` comes back as an `Error` carrying its string |
| Stt.SttPayload | src/lib/utils.ts:30-41 | question "", chatId the session, exactly one upload: type "audio", name "audio.ogg", mime "audio/ogg", data `float2Audio(audio)` |
| Stt.SttRequest | src/lib/utils.ts:43-51 | a JSON POST to the prediction URL ending in the chatflow id, carrying that payload |
| Stt.UploadCarriesRecording | src/lib/utils.ts:28-41 | the upload decodes to the WAVE file of the recording, which parses back to its samples |
| Stt.SttReply | src/lib/utils.ts:43-70 | a fetch error is rethrown (a non-`Error` wrapped); a non-ok status throws "Server responded with status N"; a JSON error is rethrown; a falsy JSON body throws "Failed to parse JSON response"; the call succeeds exactly when all went well, with the body's `text` |
| Stt.StatusReadable | src/lib/utils.ts:58-60 | the status can be read back as the digits after the message prefix |
| Stt.SttPrediction | src/lib/utils.ts:23-71 | sends the request built from the encoded recording and returns what the reply maps to |
| Conversation.ErrorMessage | src/App.tsx:70-72 | `setError` is called exactly when the error has a non-empty message, with that message |
| Conversation.App.constructor | src/App.tsx:14-42 | the initial state: not listening, not busy, no caption, no error, no audio, the default settings, counter 1; the detector's handler holds these same settings |
| Conversation.AudioElement.Pause | src/App.tsx:44-49 | `pause()` leaves the element paused, its position and its `onended` handler as they were |
| Conversation.Vad.Pause | src/App.tsx:175-177 | `vad.pause()` stops the detector listening |
| Conversation.Vad.Start | src/App.tsx:180-182 | `vad.start()` makes the detector listen |
| Conversation.App.ResetChat | src/App.tsx:44-54 | the old audio is paused, rewound and detached; caption, error and busy flag are cleared; counter and settings unchanged |
| Conversation.App.Begin | src/App.tsx:56-65 | the new id is the old counter + 1 and becomes current, is above every id issued before; the turn carries the settings the detector's handler captured, not the current ones; the chat is cleared and the busy flag set |
| Conversation.App.AfterStt | src/App.tsx:66-74 | a non-empty error message is set first; the turn goes on exactly when its id is still current, with its transcript, or the empty one after a failure; caption, audio and busy flag untouched |
| Conversation.App.AfterTts | src/App.tsx:75-89 | a non-empty error message is set first; only a still-current turn sets the audio, the caption to its transcript, and clears the busy flag; a stale one leaves them |
| Conversation.App.NewChat | src/App.tsx:166-169 | only the session id changes among the settings; the chat is cleared; the counter is unchanged |
| Conversation.App.ResetDefaults | src/App.tsx:130-149 | all settings back to their initial values with the new session id; audio, caption and error cleared; busy flag and counter unchanged |
| Conversation.App.MainButtonClick | src/App.tsx:171-184 | the chat is cleared and the old audio paused, rewound and detached; with a detector, listening ends as not (was listening and detector listening); when flag and detector agree the click toggles both |
| Conversation.App.SlideTo | src/components/SettingsSheet.tsx:257-262 | a slider moved to a value it offers changes that setting alone and keeps the settings valid |
| Conversation.App.SelectVoice | src/components/SettingsSheet.tsx:118 | choosing a listed voice changes the voice alone and keeps the settings valid |
| Conversation.LatestTurnWins | src/App.tsx:56-89 | with two overlapping turns the newer one's transcript is shown, the busy flag ends, and the older turn stops after its transcription |
| Conversation.StaleErrorShows | src/App.tsx:70-74 | a superseded turn's error is still shown beside the newer turn's caption |
| Conversation.FailedSttContinues | src/App.tsx:66-89 | after a failed transcription the turn still runs text-to-speech and ends with the error shown and no caption |
| Conversation.SettingsNotSeenByTurns | src/hooks/useMic.ts:7-22 | after "new chat" and a new voice, the next turn still sends the first session id to speech-to-text and asks text-to-speech for the first voice |
| Conversation.NewChatKeepsTurn | src/App.tsx:166-169 | a turn started before "new chat" still places its answer in the new chat |

## Left out

- Floating point: samples are opaque groups of four bytes, and thresholds
  are hundredths, not fractions of 1.
- Wav.Float2Audio: assumes the `Float32Array`'s `buffer` holds exactly its
  own samples. A view into a larger buffer would copy the whole buffer,
  while `dataSize` counts only the view's samples.
- Wav.Float2Audio: `String.fromCharCode(...wavBytes)` passes every byte as
  a separate argument, one per byte of a file that holds 64000 bytes per
  second of audio plus 44. Recordings with more bytes than the engine's
  argument limit throw there. For JavaScriptCore's limit of 65536 that is
  about one second of audio. The model has no such limit.
- Text.IntToString: always writes decimal digits. JavaScript switches to
  exponent form from a magnitude of 10^21 on (`(1e21).toString()` is
  "1e+21"). Only minute and second fields in (-60, 60) and HTTP status codes
  reach it here, so no behaviour of the core is lost.
- Stt.SttPrediction: `fetch` is given as ending with a response or a throw.
  It cannot resolve to null, so the "No response received" branch
  (src/lib/utils.ts:54-55) never runs. A real `fetch` never resolves to null
  either. For the same reason `Stt.TryCatch` never returns
  `{data: null, error: null}`, which the source gives when the call resolves
  to null or undefined. A null JSON body is modelled: it is the falsy reply.
- The settings the detector's callback captured are fixed to the first
  render's (`handlerSettings` of `App`). If a render happened before the detector finished loading, the effect
  would build further detectors with that render's callback. Which one
  ends up in use is not modelled.
- `JSON.stringify` of the payload is not modelled. The request carries the
  payload value.
- The network is not modelled. `fetch` and `response.json()` are given as
  their outcomes.
- `handleAsyncFn` and `ttsPrediction` are not part of this model. Their
  `[data, error]` results are parameters of `AfterStt` and `AfterTts`.
- The playback effect (src/App.tsx:101-112) is not modelled: calling
  `play()`, installing `onended` and the effect cleanup. So is the
  `isAppReady` effect (src/App.tsx:124-128).
- Session ids drawn with `Math.random` are parameters.
- The detector (`useMicVAD`) is reduced to its `listening` flag with
  `pause` and `start`, and to the settings its callback captured.
- Conversation.App.SlideTo: requires what a single-thumb slider produces, a
  non-empty value array whose first value is on the slider. An empty array
  would set the setting to `undefined`, which no `int` field can hold.
- TimeFormat.FormatTimeDigits: the millisecond time is an integer. The
  recorder can report fractional milliseconds.
- React batching and re-rendering are not modelled. State updates take
  effect at once, and each handler reads the values it was created with.
