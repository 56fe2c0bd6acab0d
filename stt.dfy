/** `tryCatch` and `sttPrediction` (src/lib/utils.ts): the recorded audio is
    sent as a WAVE data URL inside a JSON payload to the prediction endpoint,
    and every way the exchange can fail is turned into a thrown `Error`.
    The network is a function from the request to the way `fetch` ends. */
module Stt {
  import opened Js
  import opened Text
  import Wav

  /** The `{data, error}` record `tryCatch` resolves to. */
  datatype Settled<+T> = Settled(data: Option<T>, error: Option<JsError>)

  /** What the `catch` clause keeps: an `Error` as it is, anything else
      wrapped as `new Error(String(value))`. */
  function AsError(t: Thrown): (e: JsError)
    ensures t.ThrownError? ==> e == t.error
    ensures t.ThrownOther? ==> e.message == t.asString
  {
    match t
    case ThrownError(err) => err
    case ThrownOther(s) => JsError(s)
  }

  /** `tryCatch(fn)`, given how `fn()` (awaited) ends. It never throws. */
  function TryCatch<T>(c: Completion<T>): (r: Settled<T>)
    ensures r.data.Some? != r.error.Some?
    ensures c.Normal? <==> r.error.None?
    ensures c.Normal? ==> r.data == Some(c.value)
    ensures c.Abrupt? ==> r.error == Some(AsError(c.thrown))
  {
    match c
    case Normal(v) => Settled(Some(v), None)
    case Abrupt(t) => Settled(None, Some(AsError(t)))
  }

  /** `throw error` on the error side of a settled record, else return the data. */
  function Rethrow<T>(s: Settled<T>): Completion<T>
    requires s.data.Some? || s.error.Some?
  {
    if s.error.Some? then Abrupt(ThrownError(s.error.value)) else Normal(s.data.value)
  }

  /** Catching and rethrowing gives back the original outcome, except that a
      thrown non-`Error` value comes back as an `Error` carrying its string. */
  lemma TryCatchRethrow<T>(c: Completion<T>)
    ensures c.Normal? || c.thrown.ThrownError? ==> Rethrow(TryCatch(c)) == c
    ensures c.Abrupt? && c.thrown.ThrownOther? ==>
      Rethrow(TryCatch(c)) == Abrupt(ThrownError(JsError(c.thrown.asString)))
  {
  }

  /** One attached file of the prediction payload. */
  datatype Upload = Upload(data: string, kind: string, name: string, mime: string)

  /** The object serialised as the request body. */
  datatype Payload = Payload(question: string, chatId: string, uploads: seq<Upload>)

  /** The arguments handed to `fetch`; the body is the payload before
      `JSON.stringify`. */
  datatype Request = Request(url: string, httpMethod: string, contentType: string, body: Payload)

  /** What `response.json()` can resolve to, as far as the code tells apart:
      a falsy value (`null`, `false`, `0`, `""`), or a truthy one whose
      `text` property may be missing. */
  datatype JsonReply = Falsy | Truthy(text: Option<string>)

  /** A resolved `fetch`: its `ok` flag, its status, and how `json()` ends. */
  datatype Response = Response(ok: bool, status: int, json: Completion<JsonReply>)

  const PredictionEndpoint := "https://llminabox.criticalfutureglobal.com/api/v1/prediction/"
  const NoResponse := "No response received"
  const StatusPrefix := "Server responded with status "
  const ParseFailure := "Failed to parse JSON response"

  /** The payload: an empty question, the session as chat id, and the
      recording as the one upload. */
  function SttPayload(sessionId: string, audio: seq<Wav.Sample>): (p: Payload)
    ensures p.question == "" && p.chatId == sessionId
    ensures |p.uploads| == 1 && p.uploads[0].kind == "audio"
    ensures p.uploads[0].name == "audio.ogg" && p.uploads[0].mime == "audio/ogg"
    ensures p.uploads[0].data == Wav.DataUrl(audio)
  {
    Payload("", sessionId, [Upload(Wav.DataUrl(audio), "audio", "audio.ogg", "audio/ogg")])
  }

  /** The request: a JSON POST to the chatflow's prediction URL. */
  function SttRequest(chatflowId: string, sessionId: string, audio: seq<Wav.Sample>): (q: Request)
    ensures |q.url| == |PredictionEndpoint| + |chatflowId|
    ensures q.url[..|PredictionEndpoint|] == PredictionEndpoint
    ensures q.url[|PredictionEndpoint|..] == chatflowId
    ensures q.httpMethod == "POST" && q.contentType == "application/json"
    ensures q.body == SttPayload(sessionId, audio)
  {
    Request(PredictionEndpoint + chatflowId, "POST", "application/json", SttPayload(sessionId, audio))
  }

  /** The upload a server receives decodes to the WAVE file of the recording,
      and that file parses back to the recording's samples. */
  lemma UploadCarriesRecording(chatflowId: string, sessionId: string, audio: seq<Wav.Sample>)
    requires 36 + Wav.BytesPerSample * |audio| < Wav.TwoTo32
    ensures var u := SttRequest(chatflowId, sessionId, audio).body.uploads[0];
      && Wav.ParseDataUrl(u.data) == Some(Wav.WavBytes(audio))
      && Wav.ParseWav(Wav.WavBytes(audio)).Some?
      && Wav.ParseWav(Wav.WavBytes(audio)).value.data == Wav.SampleBytes(audio)
  {
    Wav.DataUrlRoundTrip(audio);
    Wav.WavRoundTrip(audio);
  }

  function Fail<T>(message: string): Completion<T> {
    Abrupt(ThrownError(JsError(message)))
  }

  /** Everything `sttPrediction` does after the request is built, given how
      the `fetch` call ends: the result is the reply's `text`, or the error
      it throws. */
  function SttReply(reply: Completion<Response>): (r: Completion<Option<string>>)
    ensures reply.Abrupt? ==> r == Abrupt(ThrownError(AsError(reply.thrown)))
    ensures reply.Normal? && !reply.value.ok ==>
      r == Fail(StatusPrefix + IntToString(reply.value.status))
    ensures reply.Normal? && reply.value.ok && reply.value.json.Abrupt? ==>
      r == Abrupt(ThrownError(AsError(reply.value.json.thrown)))
    ensures reply.Normal? && reply.value.ok && reply.value.json == Normal(Falsy) ==>
      r == Fail(ParseFailure)
    ensures r.Normal? <==>
      reply.Normal? && reply.value.ok && reply.value.json.Normal? && reply.value.json.value.Truthy?
    ensures r.Normal? ==> r.value == reply.value.json.value.text
  {
    var fetched := TryCatch(reply);
    if fetched.error.Some? || fetched.data.None? then
      Abrupt(ThrownError(fetched.error.GetOr(JsError(NoResponse))))
    else
      var response := fetched.data.value;
      if !response.ok then
        Fail(StatusPrefix + IntToString(response.status))
      else
        var parsed := TryCatch(response.json);
        if parsed.error.Some? || parsed.data.None? || parsed.data.value.Falsy? then
          Abrupt(ThrownError(parsed.error.GetOr(JsError(ParseFailure))))
        else
          Normal(parsed.data.value.text)
  }

  /** The status in the "Server responded with status N" message can be read
      back from it. */
  lemma StatusReadable(reply: Completion<Response>)
    requires reply.Normal? && !reply.value.ok && reply.value.status >= 0
    ensures var m := AsError(SttReply(reply).thrown).message;
      && |m| > |StatusPrefix| && m[..|StatusPrefix|] == StatusPrefix
      && AllDigits(m[|StatusPrefix|..])
      && DigitsValue(m[|StatusPrefix|..]) == reply.value.status
  {
    var status := reply.value.status;
    var m := StatusPrefix + IntToString(status);
    assert IntToString(status) == NatToString(status);
    assert m[|StatusPrefix|..] == NatToString(status);
    NatToStringRoundTrip(status);
  }

  /** `sttPrediction(chatflowId, sessionId, audio)`: encode the recording,
      send it, and interpret the reply. `SttReply` is the specification;
      this method is the source's early-return form of the same steps, proved
      equal to it on the request `SttRequest` describes. */
  method SttPrediction(chatflowId: string, sessionId: string, audio: seq<Wav.Sample>,
                       fetch: Request -> Completion<Response>)
    returns (result: Completion<Option<string>>)
    ensures result == SttReply(fetch(SttRequest(chatflowId, sessionId, audio)))
  {
    var audioString := Wav.Float2Audio(audio);
    var payload := Payload("", sessionId, [Upload(audioString, "audio", "audio.ogg", "audio/ogg")]);
    var request := Request(PredictionEndpoint + chatflowId, "POST", "application/json", payload);
    var fetched := TryCatch(fetch(request));
    if fetched.error.Some? || fetched.data.None? {
      return Abrupt(ThrownError(fetched.error.GetOr(JsError(NoResponse))));
    }
    var response := fetched.data.value;
    if !response.ok {
      return Fail(StatusPrefix + IntToString(response.status));
    }
    var parsed := TryCatch(response.json);
    if parsed.error.Some? || parsed.data.None? || parsed.data.value.Falsy? {
      return Abrupt(ThrownError(parsed.error.GetOr(JsError(ParseFailure))));
    }
    return Normal(parsed.data.value.text);
  }
}
