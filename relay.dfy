/**
 * The per-call relay state machine of a media-stream session, as pure
 * functions: what one inbound message does to the session's state and which
 * messages it sends, and what an interleaving of the two inbound streams does.
 * Each handler runs atomically; time is an integer count of milliseconds read
 * from the event loop's clock when the handler runs.
 */
module Relay {
  import opened Messages

  /** A cancellation is sent only when the last AI audio frame is strictly older than this. */
  const CancelDebounceMs: int := 500

  /**
   * The session's mutable fields. `aiOpen` is whether the AI socket is open,
   * `aiLoopLive` whether the AI-to-telephony loop is still reading it, and
   * `ended` whether the session as a whole is over.
   */
  datatype State = State(
    streamSid: Option<string>,
    responseInProgress: bool,
    lastResponseTime: int,
    aiOpen: bool,
    aiLoopLive: bool,
    ended: bool)

  /** What one handler does: the new state and the messages it sends, in order. */
  datatype Step = Step(next: State, toAi: seq<AiOut>, toTwilio: seq<TwilioOut>)

  /** A session as constructed, before the AI connection is opened. */
  function Initial(): State
  {
    State(None, false, 0, false, false, false)
  }

  /** The session once the AI connection is open and both loops may run. */
  function Connected(): State
  {
    Initial().(aiOpen := true, aiLoopLive := true)
  }

  /** The session once it has ended: the AI socket is closed and neither loop runs. */
  function Ended(s: State): State
  {
    s.(aiOpen := false, aiLoopLive := false, ended := true)
  }

  /** The interruption rule: a response is being spoken and its last frame is older than the debounce. */
  predicate Interrupts(s: State, now: int)
  {
    s.responseInProgress && now - s.lastResponseTime > CancelDebounceMs
  }

  /** One message of the telephony-to-AI loop. */
  function TwilioStep(s: State, ev: TwilioIn, now: int): (r: Step)
    ensures r.toTwilio == []
    ensures forall m :: m in r.toAi ==> m.Cancel? || m.Append?
    ensures Cancel in r.toAi <==> !s.ended && ev.Media? && s.aiOpen && Interrupts(s, now)
    ensures r.next.responseInProgress <==> s.responseInProgress && Cancel !in r.toAi
    ensures r.next.lastResponseTime == s.lastResponseTime
    ensures r.next.streamSid != s.streamSid ==> !s.ended && ev.Start? && ev.streamSid != Missing && r.next.streamSid == ev.streamSid.Value()
    ensures r.next.ended <==> s.ended || ev.Malformed? || ev.Disconnect? || ev == Start(Missing) || (ev == Media(Missing) && s.aiOpen)
    ensures s.ended ==> r == Step(s, [], [])
  {
    if s.ended then Step(s, [], [])
    else
      match ev
      case Start(sid) =>
        if sid.Missing? then Step(Ended(s), [], [])
        else Step(s.(streamSid := sid.Value()), [], [])
      case Media(payload) =>
        if !s.aiOpen then Step(s, [], [])
        else
          var cancel := Interrupts(s, now);
          var s1 := if cancel then s.(responseInProgress := false) else s;
          var cancels := if cancel then [Cancel] else [];
          if payload.Missing? then Step(Ended(s1), cancels, [])
          else Step(s1, cancels + [Append(payload.Value())], [])
      case OtherEvent => Step(s, [], [])
      case Malformed => Step(Ended(s), [], [])
      case Disconnect => Step(Ended(s), [], [])
  }

  /** One message of the AI-to-telephony loop. */
  function AiStep(s: State, ev: AiIn, now: int): (r: Step)
    ensures r.toAi == [] && |r.toTwilio| <= 1
    ensures r.toTwilio != [] <==> !s.ended && s.aiLoopLive && DeltaAudio(ev).Some?
    ensures r.toTwilio != [] ==> r.toTwilio[0] == MediaFrame(s.streamSid, DeltaAudio(ev).value)
    ensures r.next.streamSid == s.streamSid && r.next.ended == s.ended
    ensures r.next.responseInProgress <==> s.responseInProgress || r.toTwilio != []
    ensures r.next.lastResponseTime == if r.toTwilio != [] then now else s.lastResponseTime
    ensures r.next.aiOpen == (s.aiOpen && (s.ended || !ev.AiClosed?))
    ensures r.next.aiLoopLive == (s.aiLoopLive && (s.ended || ev.AiEvent?))
  {
    if s.ended then Step(s, [], [])
    else if ev.AiClosed? then Step(s.(aiOpen := false, aiLoopLive := false), [], [])
    else if !s.aiLoopLive then Step(s, [], [])
    else
      match ev
      case AiEvent(_, _) =>
        var audio := DeltaAudio(ev);
        if audio.Some? then
          Step(s.(responseInProgress := true, lastResponseTime := now), [], [MediaFrame(s.streamSid, audio.value)])
        else Step(s, [], [])
      case AiMalformed => Step(s.(aiLoopLive := false), [], [])
      case AiClosed => Step(s.(aiOpen := false, aiLoopLive := false), [], [])
  }

  // ---------------------------------------------------------------------------
  // One message at a time

  lemma MediaAfterDebounceCancels(s: State, p: Field, now: int)
    requires !s.ended && s.aiOpen && s.responseInProgress && now - s.lastResponseTime > CancelDebounceMs
    requires !p.Missing?
    ensures TwilioStep(s, Media(p), now) == Step(s.(responseInProgress := false), [Cancel, Append(p.Value())], [])
  {
  }

  lemma MediaWithinDebounceKeepsResponse(s: State, p: Field, now: int)
    requires !s.ended && s.aiOpen && !p.Missing?
    requires !s.responseInProgress || now - s.lastResponseTime <= CancelDebounceMs
    ensures TwilioStep(s, Media(p), now) == Step(s, [Append(p.Value())], [])
  {
  }

  lemma MediaWhileAiClosedIsIgnored(s: State, payload: Field, now: int)
    requires !s.aiOpen
    ensures TwilioStep(s, Media(payload), now) == Step(s, [], [])
  {
  }

  lemma MediaWithoutPayloadEndsSession(s: State, now: int)
    requires !s.ended && s.aiOpen
    ensures TwilioStep(s, Media(Missing), now).toAi == (if Interrupts(s, now) then [Cancel] else [])
    ensures TwilioStep(s, Media(Missing), now).next.ended
  {
  }

  lemma StartRecordsStreamSid(s: State, sid: Field, now: int)
    requires !s.ended && !sid.Missing?
    ensures TwilioStep(s, Start(sid), now) == Step(s.(streamSid := sid.Value()), [], [])
    ensures TwilioStep(s, OtherEvent, now) == Step(s, [], [])
  {
  }

  lemma MalformedTwilioMessageEndsSession(s: State, ev: TwilioIn, now: int)
    requires !s.ended
    requires ev.Malformed? || ev.Disconnect? || ev == Start(Missing)
    ensures TwilioStep(s, ev, now) == Step(Ended(s), [], [])
  {
  }

  lemma DeltaRelayedToTwilio(s: State, t: Option<string>, d: string, now: int)
    requires !s.ended && s.aiLoopLive && t == Some(AudioDeltaType) && d != ""
    ensures AiStep(s, AiEvent(t, Some(d)), now)
      == Step(s.(responseInProgress := true, lastResponseTime := now), [], [MediaFrame(s.streamSid, d)])
  {
  }

  lemma OtherAiEventsChangeNothing(s: State, ev: AiIn, now: int)
    requires ev.AiEvent? && DeltaAudio(ev).None?
    ensures AiStep(s, ev, now) == Step(s, [], [])
  {
  }

  /**
   * A malformed AI message stops only the AI loop: the socket stays open and
   * caller audio is still forwarded. The AI side closing its socket, whether
   * or not the loop still reads, closes it for the telephony loop too, which
   * then forwards nothing.
   */
  lemma AiLoopStopsAndSocketCloses(s: State, p: Field, now: int, later: int)
    requires !s.ended && s.aiLoopLive && s.aiOpen && !p.Missing?
    ensures var stopped := AiStep(s, AiMalformed, now).next;
      && stopped == s.(aiLoopLive := false)
      && Append(p.Value()) in TwilioStep(stopped, Media(p), later).toAi
      && AiStep(stopped, AiClosed, later).next == s.(aiOpen := false, aiLoopLive := false)
    ensures TwilioStep(AiStep(s, AiClosed, now).next, Media(p), later) == Step(AiStep(s, AiClosed, now).next, [], [])
  {
  }

  lemma LoggedAiEventsChangeNothing(s: State, t: string, d: Option<string>, now: int)
    requires t in LogEventTypes
    ensures AiStep(s, AiEvent(Some(t), d), now) == Step(s, [], [])
  {
    LoggedTypesAreNotAudio(t);
  }

  // ---------------------------------------------------------------------------
  // Interleaved traces of both loops

  datatype Event = FromTwilio(twilioEvent: TwilioIn, at: int) | FromAi(aiEvent: AiIn, at: int)

  /** Everything the session sent, on either socket, in the order it was sent. */
  datatype Sent = ToAi(aiMsg: AiOut) | ToTwilio(frame: TwilioOut)

  datatype Trace = Trace(final: State, sent: seq<Sent>)

  function Apply(s: State, e: Event): Step
  {
    match e
    case FromTwilio(ev, now) => TwilioStep(s, ev, now)
    case FromAi(ev, now) => AiStep(s, ev, now)
  }

  function AiSent(ms: seq<AiOut>): seq<Sent>
  {
    if ms == [] then [] else [ToAi(ms[0])] + AiSent(ms[1..])
  }

  function TwilioSent(fs: seq<TwilioOut>): seq<Sent>
  {
    if fs == [] then [] else [ToTwilio(fs[0])] + TwilioSent(fs[1..])
  }

  function Emitted(st: Step): seq<Sent>
  {
    AiSent(st.toAi) + TwilioSent(st.toTwilio)
  }

  /** The session after handling `evs` in order, starting in `s`. */
  function Run(s: State, evs: seq<Event>): Trace
    decreases |evs|
  {
    if evs == [] then Trace(s, [])
    else
      var st := Apply(s, evs[0]);
      var rest := Run(st.next, evs[1..]);
      Trace(rest.final, Emitted(st) + rest.sent)
  }

  /** A whole call: the bootstrap `session.update`, then the handlers for `evs`. */
  function Call(voice: string, evs: seq<Event>): Trace
    requires voice in VoiceOptions
  {
    var rest := Run(Connected(), evs);
    Trace(rest.final, [ToAi(SessionUpdateMessage(voice))] + rest.sent)
  }

  /** The frames in a record of sent messages that went to the telephony side. */
  function TwilioFrames(sent: seq<Sent>): seq<TwilioOut>
  {
    if sent == [] then []
    else (if sent[0].ToTwilio? then [sent[0].frame] else []) + TwilioFrames(sent[1..])
  }

  /** Handling `a` and then `b` is handling `a + b`: the record of a call extends the record of its prefix. */
  lemma {:induction false} RunOfConcat(s: State, a: seq<Event>, b: seq<Event>)
    ensures Run(s, a + b).final == Run(Run(s, a).final, b).final
    ensures Run(s, a + b).sent == Run(s, a).sent + Run(Run(s, a).final, b).sent
    decreases |a|
  {
    if a == [] {
      assert a + b == b;
    } else {
      var st := Apply(s, a[0]);
      assert (a + b)[0] == a[0] && (a + b)[1..] == a[1..] + b;
      RunOfConcat(st.next, a[1..], b);
      var tail := Run(st.next, a[1..]);
      assert Run(s, a) == Trace(tail.final, Emitted(st) + tail.sent);
      assert Run(s, a + b).sent == Emitted(st) + Run(st.next, a[1..] + b).sent;
    }
  }

  /** A once-ended session ignores everything that follows. */
  lemma {:induction false} EndedSessionIsInert(s: State, evs: seq<Event>)
    requires s.ended
    ensures Run(s, evs) == Trace(s, [])
    decreases |evs|
  {
    if evs != [] {
      EndedSessionIsInert(s, evs[1..]);
    }
  }

  lemma {:induction false} RunSendsNoSessionUpdate(s: State, evs: seq<Event>)
    ensures forall m :: m in Run(s, evs).sent ==> !(m.ToAi? && m.aiMsg.SessionUpdate?)
    decreases |evs|
  {
    if evs != [] {
      var st := Apply(s, evs[0]);
      RunSendsNoSessionUpdate(st.next, evs[1..]);
      StepSendsNoSessionUpdate(st);
    }
  }

  lemma StepSendsNoSessionUpdate(st: Step)
    requires forall m :: m in st.toAi ==> m.Cancel? || m.Append?
    ensures forall m :: m in Emitted(st) ==> !(m.ToAi? && m.aiMsg.SessionUpdate?)
  {
    AiSentMembers(st.toAi);
    TwilioSentMembers(st.toTwilio);
  }

  lemma {:induction false} AiSentMembers(ms: seq<AiOut>)
    ensures forall m :: m in AiSent(ms) ==> m.ToAi? && m.aiMsg in ms
    decreases |ms|
  {
    if ms != [] {
      AiSentMembers(ms[1..]);
    }
  }

  lemma {:induction false} TwilioSentMembers(fs: seq<TwilioOut>)
    ensures forall m :: m in TwilioSent(fs) ==> m.ToTwilio?
    decreases |fs|
  {
    if fs != [] {
      TwilioSentMembers(fs[1..]);
    }
  }

  /**
   * Bootstrap precedes everything: the first message of a call is the
   * `session.update` for its voice, and no later message is one.
   */
  lemma SessionUpdateComesFirst(voice: string, evs: seq<Event>)
    requires voice in VoiceOptions
    ensures Call(voice, evs).sent[0] == ToAi(SessionUpdateMessage(voice))
    ensures forall i :: 1 <= i < |Call(voice, evs).sent| ==>
      !(Call(voice, evs).sent[i].ToAi? && Call(voice, evs).sent[i].aiMsg.SessionUpdate?)
  {
    RunSendsNoSessionUpdate(Connected(), evs);
    var sent := Call(voice, evs).sent;
    forall i | 1 <= i < |sent|
      ensures !(sent[i].ToAi? && sent[i].aiMsg.SessionUpdate?)
    {
      assert sent[i] in Run(Connected(), evs).sent by {
        assert sent[i] == Run(Connected(), evs).sent[i - 1];
      }
    }
  }

  /** The event is an AI audio delta that carries audio. */
  predicate IsAudioDelta(e: Event)
  {
    e.FromAi? && DeltaAudio(e.aiEvent).Some?
  }

  /**
   * Cancels are idempotent: with no response in progress, no run free of
   * audio deltas sends `response.cancel`, however many `media` events arrive,
   * and a response is still not in progress afterwards.
   */
  lemma {:induction false} NoCancelWithoutNewAudio(s: State, evs: seq<Event>)
    requires !s.responseInProgress
    requires forall e :: e in evs ==> !IsAudioDelta(e)
    ensures ToAi(Cancel) !in Run(s, evs).sent
    ensures !Run(s, evs).final.responseInProgress
    decreases |evs|
  {
    if evs != [] {
      var st := Apply(s, evs[0]);
      assert evs[0] in evs;
      NoCancelWithoutNewAudio(st.next, evs[1..]);
      AiSentMembers(st.toAi);
      TwilioSentMembers(st.toTwilio);
    }
  }

  /**
   * Reading the record of sent messages left to right, every `response.cancel`
   * comes after a frame of AI audio sent since the previous cancel (or since
   * the start, when `armed`).
   */
  predicate CancelsFollowAudio(sent: seq<Sent>, armed: bool)
    decreases |sent|
  {
    if sent == [] then true
    else if sent[0] == ToAi(Cancel) then armed && CancelsFollowAudio(sent[1..], false)
    else if sent[0].ToTwilio? then CancelsFollowAudio(sent[1..], true)
    else CancelsFollowAudio(sent[1..], armed)
  }

  lemma {:induction false} AiSentOfAppendsOnly(ms: seq<AiOut>, tail: seq<Sent>, armed: bool)
    requires forall m :: m in ms ==> m.Append?
    requires CancelsFollowAudio(tail, armed)
    ensures CancelsFollowAudio(AiSent(ms) + tail, armed)
    decreases |ms|
  {
    if ms == [] {
      assert AiSent(ms) + tail == tail;
    } else {
      assert ms[0] in ms && forall m :: m in ms[1..] ==> m in ms;
      AiSentOfAppendsOnly(ms[1..], tail, armed);
      var sent := AiSent(ms) + tail;
      assert sent == [ToAi(ms[0])] + (AiSent(ms[1..]) + tail);
      assert sent[0] == ToAi(ms[0]) && sent[1..] == AiSent(ms[1..]) + tail;
    }
  }

  lemma TwilioStepKeepsCancelsAfterAudio(s: State, ev: TwilioIn, now: int, tail: seq<Sent>)
    requires CancelsFollowAudio(tail, TwilioStep(s, ev, now).next.responseInProgress)
    ensures CancelsFollowAudio(Emitted(TwilioStep(s, ev, now)) + tail, s.responseInProgress)
  {
    var st := TwilioStep(s, ev, now);
    assert Emitted(st) == AiSent(st.toAi) + [];
    if Cancel in st.toAi {
      var rest := st.toAi[1..];
      assert st.toAi == [Cancel] + rest;
      assert forall m :: m in rest ==> m.Append?;
      AiSentOfAppendsOnly(rest, tail, false);
      var all := Emitted(st) + tail;
      assert all == [ToAi(Cancel)] + (AiSent(rest) + tail);
      assert all[0] == ToAi(Cancel) && all[1..] == AiSent(rest) + tail;
    } else {
      assert forall m :: m in st.toAi ==> m.Append?;
      assert st.next.responseInProgress == s.responseInProgress;
      AiSentOfAppendsOnly(st.toAi, tail, s.responseInProgress);
      assert Emitted(st) + tail == AiSent(st.toAi) + tail;
    }
  }

  lemma AiStepKeepsCancelsAfterAudio(s: State, ev: AiIn, now: int, tail: seq<Sent>)
    requires CancelsFollowAudio(tail, AiStep(s, ev, now).next.responseInProgress)
    ensures CancelsFollowAudio(Emitted(AiStep(s, ev, now)) + tail, s.responseInProgress)
  {
    var st := AiStep(s, ev, now);
    assert AiSent(st.toAi) == [];
    if st.toTwilio != [] {
      var f := st.toTwilio[0];
      assert st.toTwilio == [f] && st.toTwilio[1..] == [];
      assert TwilioSent(st.toTwilio) == [ToTwilio(f)] + TwilioSent([]);
      var all := Emitted(st) + tail;
      assert all == [ToTwilio(f)] + tail;
      assert all[0] == ToTwilio(f) && all[1..] == tail;
    } else {
      assert Emitted(st) + tail == tail;
    }
  }

  lemma StepKeepsCancelsAfterAudio(s: State, e: Event, tail: seq<Sent>)
    requires CancelsFollowAudio(tail, Apply(s, e).next.responseInProgress)
    ensures CancelsFollowAudio(Emitted(Apply(s, e)) + tail, s.responseInProgress)
  {
    match e
    case FromAi(ev, now) => AiStepKeepsCancelsAfterAudio(s, ev, now, tail);
    case FromTwilio(ev, now) => TwilioStepKeepsCancelsAfterAudio(s, ev, now, tail);
  }

  lemma {:induction false} CancelsAlwaysFollowAudio(s: State, evs: seq<Event>)
    ensures CancelsFollowAudio(Run(s, evs).sent, s.responseInProgress)
    decreases |evs|
  {
    if evs != [] {
      var st := Apply(s, evs[0]);
      CancelsAlwaysFollowAudio(st.next, evs[1..]);
      StepKeepsCancelsAfterAudio(s, evs[0], Run(st.next, evs[1..]).sent);
    }
  }

  /** The event ends the session or the AI loop (or may, for a `media` event without payload). */
  predicate Disrupts(e: Event)
  {
    match e
    case FromTwilio(ev, _) => ev.Malformed? || ev.Disconnect? || ev == Start(Missing) || ev == Media(Missing)
    case FromAi(ev, _) => ev.AiMalformed? || ev.AiClosed?
  }

  /**
   * The telephony frames a session must send for `evs`, defined without the
   * interruption state: each audio delta becomes one frame addressed with the
   * stream id of the latest `start` so far (`sid` before any).
   */
  function ExpectedFrames(sid: Option<string>, evs: seq<Event>): seq<TwilioOut>
    decreases |evs|
  {
    if evs == [] then []
    else
      var e := evs[0];
      if e.FromTwilio? && e.twilioEvent.Start? && !e.twilioEvent.streamSid.Missing? then
        ExpectedFrames(e.twilioEvent.streamSid.Value(), evs[1..])
      else if IsAudioDelta(e) then
        [MediaFrame(sid, DeltaAudio(e.aiEvent).value)] + ExpectedFrames(sid, evs[1..])
      else ExpectedFrames(sid, evs[1..])
  }

  lemma {:induction false} TwilioFramesOfConcat(a: seq<Sent>, b: seq<Sent>)
    ensures TwilioFrames(a + b) == TwilioFrames(a) + TwilioFrames(b)
    decreases |a|
  {
    if a == [] {
      assert a + b == b;
    } else {
      TwilioFramesOfConcat(a[1..], b);
      assert (a + b)[0] == a[0] && (a + b)[1..] == a[1..] + b;
    }
  }

  lemma {:induction false} TwilioFramesOfAiSent(ms: seq<AiOut>)
    ensures TwilioFrames(AiSent(ms)) == []
    decreases |ms|
  {
    if ms != [] {
      TwilioFramesOfAiSent(ms[1..]);
      TwilioFramesOfConcat([ToAi(ms[0])], AiSent(ms[1..]));
    }
  }

  /** What one undisrupted step contributes to the frames sent to Twilio. */
  lemma StepFrames(s: State, e: Event)
    requires !s.ended && s.aiLoopLive && !Disrupts(e)
    ensures !Apply(s, e).next.ended && Apply(s, e).next.aiLoopLive
    ensures Apply(s, e).next.streamSid
      == if e.FromTwilio? && e.twilioEvent.Start? then e.twilioEvent.streamSid.Value() else s.streamSid
    ensures TwilioFrames(Emitted(Apply(s, e)))
      == if IsAudioDelta(e) then [MediaFrame(s.streamSid, DeltaAudio(e.aiEvent).value)] else []
  {
    var st := Apply(s, e);
    TwilioFramesOfConcat(AiSent(st.toAi), TwilioSent(st.toTwilio));
    TwilioFramesOfAiSent(st.toAi);
    if st.toTwilio != [] {
      var f := st.toTwilio[0];
      assert st.toTwilio == [f] && st.toTwilio[1..] == [];
      assert TwilioSent(st.toTwilio) == [ToTwilio(f)] + TwilioSent([]);
      var one := [ToTwilio(f)];
      assert one[0] == ToTwilio(f) && one[1..] == [];
      assert TwilioFrames(one) == [f] + TwilioFrames([]);
    } else {
      assert TwilioSent(st.toTwilio) == [];
    }
  }

  /**
   * The telephony side mirrors the AI's audio: while neither loop is stopped,
   * the frames sent to the telephony stream are exactly one per audio delta,
   * in arrival order, each with the delta's payload and the current stream id.
   */
  lemma {:induction false} TwilioFramesMirrorAudioDeltas(s: State, evs: seq<Event>)
    requires !s.ended && s.aiLoopLive
    requires forall e :: e in evs ==> !Disrupts(e)
    ensures TwilioFrames(Run(s, evs).sent) == ExpectedFrames(s.streamSid, evs)
    decreases |evs|
  {
    if evs != [] {
      var e := evs[0];
      assert e in evs;
      assert forall x :: x in evs[1..] ==> x in evs;
      var st := Apply(s, e);
      StepFrames(s, e);
      TwilioFramesMirrorAudioDeltas(st.next, evs[1..]);
      TwilioFramesOfConcat(Emitted(st), Run(st.next, evs[1..]).sent);
    }
  }

  /**
   * In any call, the frames sent to the telephony stream begin with the
   * mirrored audio of every event before the first one that stops a loop:
   * whatever follows that event only appends to them.
   */
  lemma MirrorHoldsUntilFirstStop(s: State, evs: seq<Event>, k: nat)
    requires !s.ended && s.aiLoopLive && k <= |evs|
    requires forall i :: 0 <= i < k ==> !Disrupts(evs[i])
    ensures TwilioFrames(Run(s, evs).sent)
      == ExpectedFrames(s.streamSid, evs[..k]) + TwilioFrames(Run(Run(s, evs[..k]).final, evs[k..]).sent)
  {
    assert evs == evs[..k] + evs[k..];
    assert forall e :: e in evs[..k] ==> !Disrupts(e);
    RunOfConcat(s, evs[..k], evs[k..]);
    TwilioFramesMirrorAudioDeltas(s, evs[..k]);
    TwilioFramesOfConcat(Run(s, evs[..k]).sent, Run(Run(s, evs[..k]).final, evs[k..]).sent);
  }
}
