# Media-stream relay session, modelled in Dafny

This project models the per-call relay of a voice assistant, which connects a
Twilio media stream (the caller's audio) to an OpenAI realtime connection (the
assistant's audio). The relay is `MediaStreamSession` in `main.py`. A session
keeps three fields that change over a call: the stream id, whether an AI
response is being spoken, and when the last AI audio frame arrived. Two loops
update these fields, one message at a time:

- **Telephony to AI.** A `start` event records the stream id. A `media` event
  first applies the interruption rule: if a response is in progress and its
  last audio frame is more than 500 ms old, it sends `response.cancel` and
  clears the flag. It then forwards the caller audio as
  `input_audio_buffer.append`. Both steps happen only while the AI socket is
  open.
- **AI to telephony.** A `response.audio.delta` with a non-empty `delta` marks
  a response as in progress and stamps the time. The audio is then re-wrapped
  as a Twilio `media` frame that carries the current stream id.

Before either loop starts, the session sends one fixed `session.update` to the
AI. It declares G.711 µ-law audio in both directions and the session's voice.

Files:

- `messages.dfy` (module `Messages`) defines the inbound and outbound messages
  as already-decoded datatypes. It also holds the constants `VoiceOptions`,
  `LogEventTypes` and the system instructions, and the bootstrap message.
- `relay.dfy` (module `Relay`) is the specification. Two pure functions give
  one step each: `TwilioStep` and `AiStep` return the new state and the
  messages sent. `Run` applies any interleaving of the two loops' messages and
  records everything sent, in order. The lemmas state the interruption rule,
  the relaying guarantees and the bootstrap ordering over whole traces.
- `session.dfy` (module `MediaStream`) is the imperative model. The class
  `Session` has the source's fields, and each socket is a log that the
  handlers append to. `OnTwilioMessage` and `OnAiMessage` are proved to change
  the fields and logs exactly as `Relay.TwilioStep` and `Relay.AiStep` say. The
  class invariant `Valid` keeps the `session.update` first and unique in the AI
  log.

Time is an integer number of milliseconds read when a handler runs. The debounce
test `current_time - last_response_time > 0.5` is therefore `now -
lastResponseTime > 500`. Each handler runs atomically, and the two loops may
interleave in any order.

Behaviours of `main.py` that the model keeps, some of which a reader may not
expect:

- An audio delta that arrives before `start` is still sent to Twilio, with the
  stream id unset (`None`). It is not dropped.
- A Twilio message that is not a JSON object, a `start` event without
  `start.streamSid`, or, while the AI socket is open, a `media` event without
  `media.payload`, raises an exception that only `run` catches. That ends
  the whole session, and leaving `async with` closes the AI socket. It is not a
  per-message error the loop skips.
- A `media` event without a payload, arriving while the AI socket is open,
  still runs the interruption rule first. So it may send `response.cancel`
  before the session ends.
- A key that is present with the value `null` is not an error. A `start`
  whose `streamSid` is `null` unsets the stream id, and a `media` event whose
  `payload` is `null` is forwarded as an append with `null` audio. Only a
  missing key ends the session (for `media`, only while the AI socket is
  open; on a closed socket the payload is never read and the event is
  skipped).
- A malformed AI message is caught inside `send_to_twilio`. It ends only the
  AI-to-telephony loop. The AI socket stays open, and caller audio is still
  forwarded to it, until the AI side closes the socket. Once it does, the
  telephony loop sees the socket closed and forwards nothing more, whether or
  not the AI loop was still reading.
- No event clears `response_in_progress` except a cancel. `response.done` and
  the other logged types change nothing.
- The debounce runs from the latest AI audio frame, because every frame
  restamps the time. In a call where frames arrive at 1000, 1100 and 1200 ms,
  caller audio at 1600 ms (600 ms after the first frame) sends no cancel.
  Caller audio at 1701 ms sends one (`MediaStream.InterruptionScenario`).

## Model

| member | source | states |
|---|---|---|
| `Messages.DeltaAudio` | main.py:123 | an AI event yields audio exactly when its type is `response.audio.delta` and its `delta` is present and non-empty; the audio is that `delta` |
| `Messages.SessionUpdateMessage` | main.py:138-152 | the bootstrap message is a `session.update` with server VAD, `g711_ulaw` for input and output, the session's voice (one of the voice options), the system instructions, text and audio modalities and temperature 0.8 |
| `Messages.LoggedTypesAreNotAudio` | main.py:29-33 | no diagnostic event type is `response.audio.delta`, so no logged event ever carries audio to relay |
| `Relay.TwilioStep` | main.py:95-110 | the telephony loop sends nothing to Twilio and only cancels or appends to the AI; it sends a cancel exactly when a `media` event meets an open AI socket with a response in progress whose last frame is more than 500 ms old; the flag is cleared exactly when a cancel is sent; only a `start` changes the stream id; after the session ends nothing changes |
| `Relay.AiStep` | main.py:118-136 | the AI loop sends nothing to the AI; it sends exactly one Twilio frame, carrying the delta's audio and the current stream id, exactly when a live loop receives a non-empty audio delta; it then sets the flag and stamps `now`, and otherwise leaves the flag, the time and the stream id alone; the AI socket closes exactly when the AI side closes it, and the loop stops exactly on a malformed message or that close |
| `Relay.AiLoopStopsAndSocketCloses` | main.py:99-136 | a malformed AI message stops only the AI loop, so caller audio is still appended; the AI side closing its socket, even after the loop has stopped, closes it for the telephony loop, which then forwards nothing |
| `Relay.MediaAfterDebounceCancels` | main.py:99-107 | with the AI socket open, a response in progress and more than 500 ms since the last frame, a `media` event with a `payload` key (a `null` one included) sends exactly `[Cancel, Append(payload)]` and only clears the flag |
| `Relay.MediaWithinDebounceKeepsResponse` | main.py:101-107 | with 500 ms or less elapsed, or no response in progress, a `media` event sends only `Append(payload)` and changes no state |
| `Relay.MediaWhileAiClosedIsIgnored` | main.py:98-99 | a `media` event while the AI socket is closed sends nothing and changes nothing, and the interruption check does not run |
| `Relay.MediaWithoutPayloadEndsSession` | main.py:99-105 | a `media` event without a payload on an open socket sends the cancel the interruption rule calls for, then ends the session |
| `Relay.StartRecordsStreamSid` | main.py:97-109 | `start` overwrites the stream id with the value it carries, unset for `null`, and sends nothing; any other event type changes nothing and sends nothing |
| `Relay.MalformedTwilioMessageEndsSession` | main.py:93-114 | a malformed Twilio message, a `start` without `streamSid`, or a disconnect ends the session and closes the AI socket without sending anything |
| `Relay.DeltaRelayedToTwilio` | main.py:123-134 | a non-empty audio delta sets the flag, stamps `now` and sends one `media` frame with the same payload and the current stream id, even when that id is unset |
| `Relay.OtherAiEventsChangeNothing` | main.py:120-123 | an AI event that is not a non-empty audio delta, including a delta with a missing or empty `delta`, changes no state and sends nothing |
| `Relay.LoggedAiEventsChangeNothing` | main.py:121-122 | every event type in the diagnostic list, `response.done` included, changes no state and sends nothing |
| `Relay.EndedSessionIsInert` | main.py:84-91 | once the session has ended, any further messages on either side change nothing and send nothing |
| `Relay.RunSendsNoSessionUpdate` | main.py:93-134 | neither loop ever sends a `session.update` |
| `Relay.SessionUpdateComesFirst` | main.py:82-87 | in every call, the first message sent is the `session.update` for the session's voice, and no later message is one, so configuration precedes all audio |
| `Relay.NoCancelWithoutNewAudio` | main.py:99-126 | cancels are idempotent: with no response in progress, any run of messages without a non-empty audio delta sends no `response.cancel` and leaves the flag false |
| `Relay.CancelsAlwaysFollowAudio` | main.py:99-156 | over any interleaving, every `response.cancel` is preceded by an AI audio frame sent to Twilio since the previous cancel, or by the response already in progress at the start |
| `Relay.TwilioFramesMirrorAudioDeltas` | main.py:93-134 | until a loop stops, the frames sent to Twilio are exactly one per non-empty audio delta, in arrival order, each with the delta's payload and the stream id of the latest `start` before it; the interruption rule never changes them |
| `Relay.RunOfConcat` | main.py:93-134 | the loops handle messages one after another: the record of a call is the record of any prefix followed by what the rest of the messages send from the state the prefix left |
| `Relay.MirrorHoldsUntilFirstStop` | main.py:93-136 | in any call, however it ends, the frames sent to Twilio start with exactly the mirrored audio deltas of every message before the first one that stops a loop; later messages only add frames after them |
| `MediaStream.InterruptionScenario` | main.py:95-134 | in a concrete call driven through the handlers, caller audio 50 ms and 400 ms after the latest AI frame is forwarded without a cancel, audio 501 ms after it is preceded by exactly one cancel, a later frame sends no second cancel, and every AI frame reaches Twilio addressed to `CA123` |
| `MediaStream.Session.constructor` | main.py:65-71 | a fresh session has no stream id, no response in progress, `last_response_time` 0, no AI socket and empty logs |
| `MediaStream.Session.Open` | main.py:81-83 | opening the session sends exactly one message, the `session.update`, before either loop runs |
| `MediaStream.Session.SendSessionUpdate` | main.py:138-152 | appends the bootstrap `session.update` for the session's voice to the AI log |
| `MediaStream.Session.CancelResponse` | main.py:154-156 | appends `response.cancel` to the AI log and clears the in-progress flag |
| `MediaStream.Session.Close` | main.py:111-114 | closes the AI socket if it is open and ends both loops |
| `MediaStream.Session.OnTwilioMessage` | main.py:95-110 | the fields and the AI log change exactly as `Relay.TwilioStep` says, the Twilio log is untouched, and the invariant is kept |
| `MediaStream.Session.OnAiMessage` | main.py:118-136 | the fields and the Twilio log change exactly as `Relay.AiStep` says, the AI log is untouched, and the invariant is kept |

## Left out

- The HTTP routes `/` and `/incoming-call` and the TwiML document (main.py:40-55) are framework wrappers with no state.
- Opening the AI websocket with its URL and auth headers, and `asyncio.gather` (main.py:75-87), are network I/O and concurrency. The loops are modelled as atomic handler steps in any interleaving. A failure to open the AI connection (main.py:75, 90) ends a session before any handler runs; the model starts from a session whose connection has opened.
- The suspension inside `cancel_response` between sending the cancel and clearing the flag (main.py:155-156) is left out. An audio delta could be handled there on the event loop, which is a race between the two loops; each handler is treated as atomic.
- JSON parsing and base64 (main.py:96, 119) are left out. Inbound messages are already-decoded datatypes and payloads are opaque strings. A message that is not a JSON object is the distinct `Malformed` event. A key of `start` or `media` is `Missing`, `Null` or `Text`; a non-dictionary value where `start` or `media` should be is treated as `Missing`, and a payload or stream id of another JSON type (a number, say) is not modelled.
- The floating-point event-loop clock (main.py:100, 125) is modelled as integer milliseconds passed to each handler. The 0.5 s threshold becomes `> 500`.
- `random.choice` of the voice, environment and configuration loading, and `print` logging (main.py:12-36) are left out. The voice is a parameter constrained to `VoiceOptions`.
- A failed send is left out: a send to a telephony socket that has gone, or to an AI socket closed between the `open` check and the send, raises an exception on the event loop. Teardown that happens while `async with` exits, after the session has ended, is left out too.
- `Relay.AiStep`: a message the AI sends after the session has ended changes nothing and sends nothing in the model. In the source, the AI loop may still read a message while `async with` closes the AI socket, because `asyncio.gather` (main.py:84-87) does not cancel it when the telephony loop raises. An audio delta read then sets the flag. Its send (main.py:134) fails only when the session ended on a disconnect. When the session ended on a malformed Twilio message, a `start` without `streamSid` or a `media` without `payload`, nothing closes the telephony socket before `handle_media_stream` returns (main.py:58-62, 88-91), so that frame can still reach Twilio.
