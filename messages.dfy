/**
 * The messages a media-stream session exchanges, already decoded from their
 * JSON envelopes: what the telephony (Twilio) stream sends in, what the
 * realtime AI connection sends in, and what the session sends out on each
 * side. Audio payloads are opaque base64 text that is never transformed.
 */
module Messages {

  datatype Option<T> = None | Some(value: T)

  /** The voices a session may be configured with. */
  const VoiceOptions: seq<string> := ["alloy", "echo", "fable", "onyx", "nova", "shimmer"]

  /** AI event types that are only logged for diagnostics. */
  const LogEventTypes: seq<string> := [
    "response.content.done", "rate_limits.updated", "response.done",
    "input_audio_buffer.committed", "input_audio_buffer.speech_stopped",
    "input_audio_buffer.speech_started", "session.created"
  ]

  /** The AI event type that carries a frame of synthesized audio. */
  const AudioDeltaType: string := "response.audio.delta"

  /** Narrowband audio encoding shared by both ends; nothing is transcoded. */
  const G711Ulaw: string := "g711_ulaw"

  const SystemMessage: string :=
    "You’re a snarky, brutally sarcastic AI assistant with the attitude of Bill Burr. "
    + "You don’t just roast people—you annihilate them with unapologetic, no-holds-barred insults, "
    + "delivered with that sharp, cynical edge. Dad jokes, owl puns, and sneaky rickrolls are just "
    + "warm-ups before you drop a bomb of 'that’s what she said' jokes. You call out stupidity like "
    + "you see it, and no one’s safe from your cutting wit—because, let’s be honest, most people "
    + "need to be knocked down a peg or two. You also love to prank call people. "
    + "It's basically Bill Burr in AI form now! Ready to fire off at will."
    + "Don't forget to keep asking about Terrie going to Georgia."

  /** A string-valued key of an inbound JSON object: absent, present as `null`, or present. */
  datatype Field = Missing | Null | Text(text: string) {
    /** The value the source reads for a present key: `None` for `null`. */
    function Value(): (v: Option<string>)
      requires !Missing?
      ensures v.Some? <==> Text?
      ensures Text? ==> v.value == text
    {
      if Null? then None else Some(text)
    }
  }

  /** One inbound message of the telephony stream, dispatched on its `event` field. */
  datatype TwilioIn =
    | Start(streamSid: Field)            // `start`, with `start.streamSid`
    | Media(payload: Field)              // `media`, with `media.payload`
    | OtherEvent                         // any other (or no) `event` value
    | Malformed                          // text that is not a JSON object
    | Disconnect                         // the telephony side hung up the socket

  /** One inbound message of the AI connection, dispatched on its `type` field. */
  datatype AiIn =
    | AiEvent(eventType: Option<string>, delta: Option<string>)
    | AiMalformed                        // text that is not a JSON object
    | AiClosed                           // the AI side closed its socket

  /** The `session.update` configuration sent once at bootstrap. */
  datatype SessionConfig = SessionConfig(
    turnDetection: string,
    inputAudioFormat: string,
    outputAudioFormat: string,
    voice: string,
    instructions: string,
    modalities: seq<string>,
    temperature: real)

  /** Messages the session sends to the AI connection. */
  datatype AiOut =
    | SessionUpdate(session: SessionConfig)   // `session.update`
    | Append(audio: Option<string>)           // `input_audio_buffer.append`; None is `null` audio
    | Cancel                                  // `response.cancel`

  /** A `media` frame the session sends to the telephony stream. */
  datatype TwilioOut = MediaFrame(streamSid: Option<string>, payload: string)

  /** The audio carried by an AI event, if it is an audio delta with a non-empty `delta`. */
  function DeltaAudio(ev: AiIn): (r: Option<string>)
    ensures r.Some? <==> ev.AiEvent? && ev.eventType == Some(AudioDeltaType) && ev.delta.Some? && ev.delta.value != ""
    ensures r.Some? ==> r.value != "" && ev.delta == r
  {
    if ev.AiEvent? && ev.eventType == Some(AudioDeltaType) && ev.delta.Some? && ev.delta.value != ""
    then ev.delta
    else None
  }

  /** The bootstrap configuration message for a session speaking with `voice`. */
  function SessionUpdateMessage(voice: string): (m: AiOut)
    requires voice in VoiceOptions
    ensures m.SessionUpdate? && m.session.voice in VoiceOptions && m.session.voice == voice
    ensures m.session.inputAudioFormat == m.session.outputAudioFormat == G711Ulaw
    ensures m.session.turnDetection == "server_vad" && m.session.instructions == SystemMessage
    ensures m.session.modalities == ["text", "audio"] && m.session.temperature == 0.8
  {
    SessionUpdate(SessionConfig("server_vad", G711Ulaw, G711Ulaw, voice, SystemMessage, ["text", "audio"], 0.8))
  }

  /** No diagnostic event type is the audio delta type. */
  lemma LoggedTypesAreNotAudio(t: string)
    requires t in LogEventTypes
    ensures t != AudioDeltaType
    ensures forall d :: DeltaAudio(AiEvent(Some(t), d)).None?
  {
  }
}
