/**
 * One media-stream session: the object created per call, whose fields the two
 * forwarding loops update in place. Each socket is modelled by the log of
 * messages written to it; each handler method processes one inbound message
 * and is proved to do exactly what `Relay.TwilioStep` or `Relay.AiStep` says.
 */
module MediaStream {
  import opened Messages
  import Relay

  class Session {
    const voice: string
    var streamSid: Option<string>
    var responseInProgress: bool
    var lastResponseTime: int
    var aiOpen: bool       // the AI socket is open
    var aiLoopLive: bool   // the AI-to-telephony loop is still reading
    var ended: bool        // the session is over
    var toAi: seq<AiOut>          // everything written to the AI socket
    var toTwilio: seq<TwilioOut>  // everything written to the telephony socket

    /** The session's fields as a `Relay.State`. */
    function Snapshot(): Relay.State
      reads this
    {
      Relay.State(streamSid, responseInProgress, lastResponseTime, aiOpen, aiLoopLive, ended)
    }

    /**
     * The object invariant: the voice is one of the options; the AI log is
     * empty until the connection opens, and from then on starts with the one
     * and only `session.update`; a session that has ended has closed the AI
     * socket; the AI loop only reads while the socket is open.
     */
    ghost predicate Valid()
      reads this
    {
      && voice in VoiceOptions
      && (toAi == [] ==> !aiOpen && !aiLoopLive && toTwilio == [])
      && (toAi != [] ==> toAi[0] == SessionUpdateMessage(voice))
      && (forall i :: 1 <= i < |toAi| ==> !toAi[i].SessionUpdate?)
      && (ended ==> !aiOpen && !aiLoopLive)
      && (aiLoopLive ==> aiOpen)
    }

    constructor (voice: string)
      requires voice in VoiceOptions
      ensures Valid() && this.voice == voice
      ensures Snapshot() == Relay.Initial()
      ensures toAi == [] && toTwilio == []
    {
      this.voice := voice;
      streamSid := None;
      responseInProgress := false;
      lastResponseTime := 0;
      aiOpen := false;
      aiLoopLive := false;
      ended := false;
      toAi := [];
      toTwilio := [];
    }

    /** Opens the AI connection, sends the bootstrap message, then lets both loops run. */
    method Open()
      requires Valid() && Snapshot() == Relay.Initial() && toAi == []
      modifies this
      ensures Valid()
      ensures Snapshot() == Relay.Connected()
      ensures toAi == [SessionUpdateMessage(voice)] && toTwilio == []
    {
      aiOpen := true;
      SendSessionUpdate();
      aiLoopLive := true;
    }

    method SendSessionUpdate()
      requires voice in VoiceOptions
      modifies this`toAi
      ensures toAi == old(toAi) + [SessionUpdateMessage(voice)]
    {
      toAi := toAi + [SessionUpdateMessage(voice)];
    }

    method CancelResponse()
      requires Valid() && aiOpen
      modifies this`toAi, this`responseInProgress
      ensures Valid()
      ensures toAi == old(toAi) + [Cancel] && !responseInProgress
    {
      toAi := toAi + [Cancel];
      responseInProgress := false;
    }

    /** Ends the session: the AI socket is closed if still open and no loop reads again. */
    method Close()
      requires Valid()
      modifies this`aiOpen, this`aiLoopLive, this`ended
      ensures Valid()
      ensures Snapshot() == Relay.Ended(old(Snapshot()))
    {
      if aiOpen {
        aiOpen := false;
      }
      aiLoopLive := false;
      ended := true;
    }

    /** Handles one message of the telephony-to-AI loop at time `now`. */
    method OnTwilioMessage(ev: TwilioIn, now: int)
      requires Valid()
      modifies this
      ensures Valid()
      ensures Snapshot() == Relay.TwilioStep(old(Snapshot()), ev, now).next
      ensures toAi == old(toAi) + Relay.TwilioStep(old(Snapshot()), ev, now).toAi
      ensures toTwilio == old(toTwilio)
    {
      if ended {
        return;
      }
      match ev
      case Media(payload) =>
        if aiOpen {
          if responseInProgress && now - lastResponseTime > Relay.CancelDebounceMs {
            CancelResponse();
          }
          if payload.Missing? {
            Close();
            return;
          }
          toAi := toAi + [Append(payload.Value())];
        }
      case Start(sid) =>
        if sid.Missing? {
          Close();
          return;
        }
        streamSid := sid.Value();
      case OtherEvent =>
      case Malformed =>
        Close();
      case Disconnect =>
        Close();
    }

    /** Handles one message of the AI-to-telephony loop at time `now`. */
    method OnAiMessage(ev: AiIn, now: int)
      requires Valid()
      modifies this
      ensures Valid()
      ensures Snapshot() == Relay.AiStep(old(Snapshot()), ev, now).next
      ensures toTwilio == old(toTwilio) + Relay.AiStep(old(Snapshot()), ev, now).toTwilio
      ensures toAi == old(toAi)
    {
      if ended {
        return;
      }
      if ev.AiClosed? {
        aiOpen := false;
        aiLoopLive := false;
        return;
      }
      if !aiLoopLive {
        return;
      }
      match ev
      case AiEvent(eventType, delta) =>
        if eventType == Some(AudioDeltaType) && delta.Some? && delta.value != "" {
          responseInProgress := true;
          lastResponseTime := now;
          toTwilio := toTwilio + [MediaFrame(streamSid, delta.value)];
        }
      case AiMalformed =>
        aiLoopLive := false;
    }
  }

  /**
   * A call driven through the handlers' contracts alone. Stream `CA123`
   * starts; the AI sends audio at 1000, 1100 and 1200 ms; the caller speaks at
   * 1150 ms (inside the debounce), at 1600 ms (600 ms after the first frame
   * but only 400 ms after the latest) and at 1701 ms, when the one cancel is
   * sent; the caller's next audio at 1800 ms sends no second cancel.
   */
  method InterruptionScenario(voice: string) returns (aiLog: seq<AiOut>, twilioLog: seq<TwilioOut>)
    requires voice in VoiceOptions
    ensures aiLog == [SessionUpdateMessage(voice), Append(Some("AAA=")), Append(Some("AAE=")), Cancel,
                      Append(Some("AAI=")), Append(Some("AAM="))]
    ensures twilioLog == [MediaFrame(Some("CA123"), "UklGRg=="), MediaFrame(Some("CA123"), "UklGRg=="),
                          MediaFrame(Some("CA123"), "UklGRg==")]
  {
    var audio := AiEvent(Some(AudioDeltaType), Some("UklGRg=="));
    var session := new Session(voice);
    session.Open();
    session.OnTwilioMessage(Start(Text("CA123")), 0);
    session.OnAiMessage(audio, 1000);
    session.OnAiMessage(audio, 1100);
    session.OnTwilioMessage(Media(Text("AAA=")), 1150);
    session.OnAiMessage(audio, 1200);
    session.OnTwilioMessage(Media(Text("AAE=")), 1600);
    session.OnTwilioMessage(Media(Text("AAI=")), 1701);
    session.OnTwilioMessage(Media(Text("AAM=")), 1800);
    aiLog, twilioLog := session.toAi, session.toTwilio;
  }
}
