/**
 * The bridge's stateful services: the AI realtime session record, the AI
 * voice client that owns the sessions, and the telephony stream handler
 * that owns the telephony sockets and per-stream audio formats.
 *
 * Sockets are outboxes: every message a session sends to the AI service is
 * appended to the session's `sent`, every frame sent to the telephony side
 * to the handler's `sent`. A connection attempt and a socket close that may
 * raise are boolean parameters, and a raised exception is a `Fail` result.
 * The client and the handler refer to each other, so they share a module.
 */
module Services {
  import opened Wrappers
  import opened Audio
  import opened Realtime
  import ConversationState

  /** A telephony WebSocket, by identity. */
  type SocketId = nat

  /** The AI service sends 24 kHz PCM16 audio. */
  const OpenAIOutputSampleRate: int := 24000

  /** The media frame sent to the telephony stream. */
  datatype TwilioMedia = TwilioMedia(event: string, streamSid: string, payload: string)

  const MediaEvent: string := "media"

  datatype Outbound = Outbound(socket: SocketId, message: TwilioMedia)

  /** The audio format of a telephony stream. */
  datatype AudioConfig = AudioConfig(encoding: string, sampleRate: int)

  const DefaultAudioConfig: AudioConfig := AudioConfig(TwilioDefaultEncoding, TwilioDefaultSampleRate)

  datatype ClientError = ConnectFailed | CloseFailed

  /** Python truthiness of an optional string and an optional number. */
  predicate GivenText(s: Option<string>) { s.Some? && s.value != "" }
  predicate GivenNumber(n: Option<int>) { n.Some? && n.value != 0 }

  // -------------------------------------------------------------------
  // Pure descriptions of what the handler's operations do
  // -------------------------------------------------------------------

  /** configure_stream_audio on a stored format: only the given (truthy) fields are overwritten. */
  function Reconfigured(cfg: AudioConfig, encoding: Option<string>, sampleRate: Option<int>): (r: AudioConfig)
    ensures r.encoding == (if GivenText(encoding) then encoding.value else cfg.encoding)
    ensures r.sampleRate == (if GivenNumber(sampleRate) then sampleRate.value else cfg.sampleRate)
  {
    var withEncoding := if GivenText(encoding) then cfg.(encoding := encoding.value) else cfg;
    if GivenNumber(sampleRate) then withEncoding.(sampleRate := sampleRate.value) else withEncoding
  }

  /** Reconfiguring with nothing given, or twice with the same arguments, changes nothing more. */
  lemma ReconfiguredStable(cfg: AudioConfig, encoding: Option<string>, sampleRate: Option<int>)
    ensures Reconfigured(cfg, None, None) == cfg
    ensures Reconfigured(cfg, Some(""), Some(0)) == cfg
    ensures Reconfigured(Reconfigured(cfg, encoding, sampleRate), encoding, sampleRate)
            == Reconfigured(cfg, encoding, sampleRate)
  {
  }

  /**
   * The chunk forward_media_chunk hands to the AI client: none for a
   * stream without a stored format or when the conversion fails (the
   * error is logged and swallowed).
   */
  function InboundChunk(c: Codec, audioConfig: map<string, AudioConfig>, streamSid: string,
                        mediaChunkB64: string): (r: Option<string>)
    ensures streamSid !in audioConfig ==> r.None?
    ensures streamSid in audioConfig && !IsSupported(audioConfig[streamSid].encoding) ==> r.None?
    ensures r.Some? <==>
              streamSid in audioConfig
              && ConvertAudioToPcm16(c, mediaChunkB64, audioConfig[streamSid].encoding,
                                     audioConfig[streamSid].sampleRate, OpenAIDefaultSampleRate).Success?
    ensures r.Some? ==>
              r.value == ConvertAudioToPcm16(c, mediaChunkB64, audioConfig[streamSid].encoding,
                                             audioConfig[streamSid].sampleRate, OpenAIDefaultSampleRate).value
  {
    if streamSid !in audioConfig then None
    else
      var cfg := audioConfig[streamSid];
      match ConvertAudioToPcm16(c, mediaChunkB64, cfg.encoding, cfg.sampleRate, OpenAIDefaultSampleRate)
      case Failure(_) => None
      case Success(chunk) => Some(chunk)
  }

  /** Raw or L16 audio already at 16 kHz reaches the AI client with exactly its bytes. */
  lemma ForwardRawUnchanged(c: Codec, audioConfig: map<string, AudioConfig>, streamSid: string,
                            mediaChunkB64: string, bytes: Bytes)
    requires Base64RoundTrips(c)
    requires streamSid in audioConfig
    requires audioConfig[streamSid].encoding in {RawPcm, L16}
    requires audioConfig[streamSid].sampleRate == OpenAIDefaultSampleRate
    requires c.b64decode(mediaChunkB64) == Some(bytes)
    ensures var r := InboundChunk(c, audioConfig, streamSid, mediaChunkB64);
            r.Some? && c.b64decode(r.value) == Some(bytes)
  {
    RawPassthrough(c, mediaChunkB64, audioConfig[streamSid].encoding, OpenAIDefaultSampleRate, bytes);
  }

  /**
   * The frames send_audio_to_twilio emits for one AI audio chunk: exactly
   * one media frame, converted from 24 kHz PCM16 to 8 kHz µ-law, when the
   * stream has a socket and the conversion succeeds; otherwise none.
   */
  function MediaFrames(c: Codec, connections: map<string, SocketId>, streamSid: string,
                       audioPayloadB64: string): (r: seq<Outbound>)
    ensures |r| <= 1
    ensures r != [] <==>
              streamSid in connections
              && ConvertPcm16ToMulaw(c, audioPayloadB64, OpenAIOutputSampleRate, TwilioDefaultSampleRate).Success?
    ensures r != [] ==>
              r[0] == Outbound(connections[streamSid],
                               TwilioMedia(MediaEvent, streamSid,
                                           ConvertPcm16ToMulaw(c, audioPayloadB64, OpenAIOutputSampleRate,
                                                               TwilioDefaultSampleRate).value))
  {
    if streamSid !in connections then []
    else match ConvertPcm16ToMulaw(c, audioPayloadB64, OpenAIOutputSampleRate, TwilioDefaultSampleRate)
         case Failure(_) => []
         case Success(payload) => [Outbound(connections[streamSid], TwilioMedia(MediaEvent, streamSid, payload))]
  }

  /** The outbound payload is the outbound conversion plan run with the 24 kHz and 8 kHz rates. */
  lemma MediaFramePayloadFollowsPlan(c: Codec, connections: map<string, SocketId>, streamSid: string,
                                     audioPayloadB64: string)
    requires MediaFrames(c, connections, streamSid, audioPayloadB64) != []
    ensures Success(MediaFrames(c, connections, streamSid, audioPayloadB64)[0].message.payload)
            == AsText(RunStages(c, OutboundStages(OpenAIOutputSampleRate, TwilioDefaultSampleRate),
                                Text(audioPayloadB64)))
    ensures Resamples(OutboundStages(OpenAIOutputSampleRate, TwilioDefaultSampleRate))
  {
    OutboundFollowsPlan(c, audioPayloadB64, OpenAIOutputSampleRate, TwilioDefaultSampleRate);
    OutboundResamplesIffRatesDiffer(OpenAIOutputSampleRate, TwilioDefaultSampleRate);
  }

  /** The telephony frames a sequence of effects produces. */
  function ForwardedFrames(c: Codec, connections: map<string, SocketId>, streamSid: string,
                           effects: seq<Effect>): seq<Outbound>
    decreases |effects|
  {
    if effects == [] then []
    else
      var last := effects[|effects| - 1];
      ForwardedFrames(c, connections, streamSid, effects[..|effects| - 1])
      + (if last.ForwardAudio? then MediaFrames(c, connections, streamSid, last.delta) else [])
  }

  /** The context store after the responses among the effects have been recorded. */
  function Recorded(store: ConversationState.Store, streamSid: string, effects: seq<Effect>): ConversationState.Store
    decreases |effects|
  {
    if effects == [] then store
    else
      var last := effects[|effects| - 1];
      var before := Recorded(store, streamSid, effects[..|effects| - 1]);
      if last.RecordResponse? then ConversationState.Updated(before, streamSid, LastAiResponseKey, last.text)
      else before
  }

  lemma {:induction false} ForwardedFramesAppend(c: Codec, connections: map<string, SocketId>, streamSid: string,
                                                 a: seq<Effect>, b: seq<Effect>)
    ensures ForwardedFrames(c, connections, streamSid, a + b)
            == ForwardedFrames(c, connections, streamSid, a) + ForwardedFrames(c, connections, streamSid, b)
    decreases |b|
  {
    if b == [] {
      assert a + b == a;
    } else {
      assert (a + b)[..|a + b| - 1] == a + b[..|b| - 1];
      ForwardedFramesAppend(c, connections, streamSid, a, b[..|b| - 1]);
    }
  }

  lemma {:induction false} RecordedAppend(store: ConversationState.Store, streamSid: string, a: seq<Effect>, b: seq<Effect>)
    ensures Recorded(store, streamSid, a + b) == Recorded(Recorded(store, streamSid, a), streamSid, b)
    decreases |b|
  {
    if b == [] {
      assert a + b == a;
    } else {
      assert (a + b)[..|a + b| - 1] == a + b[..|b| - 1];
      RecordedAppend(store, streamSid, a, b[..|b| - 1]);
    }
  }

  /** Recording responses of one stream leaves every other stream's context as it was. */
  lemma {:induction false} RecordedKeepsOtherStreams(store: ConversationState.Store, streamSid: string,
                                                     effects: seq<Effect>, other: string)
    requires other != streamSid && other in store
    ensures other in Recorded(store, streamSid, effects)
    ensures Recorded(store, streamSid, effects)[other] == store[other]
    decreases |effects|
  {
    if effects != [] {
      RecordedKeepsOtherStreams(store, streamSid, effects[..|effects| - 1], other);
    }
  }

  // -------------------------------------------------------------------
  // The AI realtime session record
  // -------------------------------------------------------------------

  class RealtimeSession {
    var isWaitingResponse: bool
    var transcriptBuffer: string
    var audioBuffer: seq<string>
    var pendingSamples: nat
    /** The pending debounced flush (`commit_task`). */
    var commitScheduled: bool
    var sessionUpdated: bool
    /** The messages sent on the session's WebSocket, in order. */
    var sent: seq<AiMessage>
    var socketClosed: bool

    constructor ()
      ensures Buffer() == EmptyBuffer
      ensures Events() == EventState(false, "", false)
      ensures sent == [] && !socketClosed
    {
      isWaitingResponse := false;
      transcriptBuffer := "";
      audioBuffer := [];
      pendingSamples := 0;
      commitScheduled := false;
      sessionUpdated := false;
      sent := [];
      socketClosed := false;
    }

    function Buffer(): InboundBuffer
      reads this`audioBuffer, this`pendingSamples, this`commitScheduled
    {
      InboundBuffer(audioBuffer, pendingSamples, commitScheduled)
    }

    function Events(): EventState
      reads this`isWaitingResponse, this`transcriptBuffer, this`sessionUpdated
    {
      EventState(isWaitingResponse, transcriptBuffer, sessionUpdated)
    }

    ghost predicate Valid(c: Codec)
      reads this`audioBuffer, this`pendingSamples, this`commitScheduled
    {
      Consistent(c, Buffer())
    }
  }

  // -------------------------------------------------------------------
  // The AI voice client
  // -------------------------------------------------------------------

  class OpenAIVoiceClient {
    const codec: Codec
    const state: ConversationState.ConversationStateManager
    var sessions: map<string, RealtimeSession>
    var twilioHandler: TwilioStreamHandler?

    /** Every session's buffer keeps its invariant, and no two streams share a session. */
    ghost predicate Valid()
      reads this`sessions, sessions.Values`audioBuffer, sessions.Values`pendingSamples,
            sessions.Values`commitScheduled
    {
      && (forall sid | sid in sessions :: sessions[sid].Valid(codec))
      && (forall a, b | a in sessions && b in sessions && a != b :: sessions[a] != sessions[b])
    }

    /** The inbound audio buffer of every stream with a session. */
    function Buffers(): map<string, InboundBuffer>
      reads this`sessions, sessions.Values`audioBuffer, sessions.Values`pendingSamples,
            sessions.Values`commitScheduled
    {
      map sid | sid in sessions :: sessions[sid].Buffer()
    }

    /** The session of a stream, as a frame: empty for an unknown stream. */
    function Session(streamSid: string): set<RealtimeSession>
      reads this`sessions
    {
      if streamSid in sessions then {sessions[streamSid]} else {}
    }

    /** The registered telephony handler, as a frame: empty before registration. */
    function Handler(): set<TwilioStreamHandler>
      reads this`twilioHandler
    {
      if twilioHandler == null then {} else {twilioHandler}
    }

    constructor (codec: Codec, state: ConversationState.ConversationStateManager)
      ensures this.codec == codec && this.state == state
      ensures sessions == map[] && twilioHandler == null
      ensures Valid()
    {
      this.codec := codec;
      this.state := state;
      sessions := map[];
      twilioHandler := null;
    }

    method RegisterTwilioHandler(handler: TwilioStreamHandler)
      modifies this`twilioHandler
      ensures twilioHandler == handler
    {
      twilioHandler := handler;
    }

    /**
     * _flush_audio_buffer: below the threshold or with an empty buffer it
     * returns; otherwise it sends one append per chunk, in order, and
     * clears the buffer and the counter.
     */
    method FlushAudioBuffer(streamSid: string, session: RealtimeSession)
      requires session.Valid(codec)
      modifies session`audioBuffer, session`pendingSamples, session`sent
      ensures session.Buffer() == Flush(old(session.Buffer())).0
      ensures session.sent == old(session.sent) + Flush(old(session.Buffer())).1
    {
      if session.pendingSamples < MinCommitSamples {
        return;
      }
      if session.audioBuffer == [] {
        return;
      }
      var i := 0;
      while i < |session.audioBuffer|
        invariant 0 <= i <= |session.audioBuffer|
        invariant session.audioBuffer == old(session.audioBuffer)
        invariant session.pendingSamples == old(session.pendingSamples)
        invariant session.sent == old(session.sent) + AppendMessages(session.audioBuffer[..i])
      {
        var chunk := session.audioBuffer[i];
        // The chunk is decoded only to log its size; a buffered chunk always decodes.
        assert codec.b64decode(chunk).Some?;
        session.sent := session.sent + [InputAudioBufferAppend(chunk)];
        assert session.audioBuffer[..i + 1][..i] == session.audioBuffer[..i];
        i := i + 1;
      }
      assert session.audioBuffer[..i] == session.audioBuffer;
      session.audioBuffer := [];
      session.pendingSamples := 0;
    }

    /** _debounced_flush once its delay has passed: the flush always proceeds, then the task is gone. */
    method DebouncedFlush(streamSid: string, session: RealtimeSession)
      requires session.Valid(codec) && session.commitScheduled
      modifies session`audioBuffer, session`pendingSamples, session`commitScheduled, session`sent
      ensures session.Buffer() == TimerFired(old(session.Buffer())).0 == EmptyBuffer
      ensures session.sent == old(session.sent) + TimerFired(old(session.Buffer())).1
      ensures session.sent == old(session.sent) + AppendMessages(old(session.audioBuffer))
      ensures session.Valid(codec)
    {
      ScheduledFlushSends(codec, session.Buffer());
      FlushAudioBuffer(streamSid, session);
      session.commitScheduled := false;
    }

    /**
     * send_audio_chunk: a chunk for an unknown stream, or one that is not
     * valid base64, is dropped; otherwise the session accepts it.
     */
    method SendAudioChunk(streamSid: string, audioChunkB64: string)
      requires Valid()
      modifies Session(streamSid)`audioBuffer, Session(streamSid)`pendingSamples, Session(streamSid)`commitScheduled
      ensures Valid()
      ensures streamSid in sessions ==>
                sessions[streamSid].Buffer() == Accept(codec, old(sessions[streamSid].Buffer()), audioChunkB64)
      ensures Buffers() == if streamSid in sessions then old(Buffers())[streamSid := sessions[streamSid].Buffer()]
                           else old(Buffers())
    {
      if streamSid !in sessions {
        return;
      }
      var session := sessions[streamSid];
      var decoded := codec.b64decode(audioChunkB64);
      if decoded.Some? {
        ghost var before := session.Buffer();
        AcceptPreservesConsistent(codec, before, audioChunkB64);
        session.audioBuffer := session.audioBuffer + [audioChunkB64];
        session.pendingSamples := session.pendingSamples + |decoded.value| / 2;
        if session.pendingSamples >= MinCommitSamples {
          // Any pending flush is cancelled and a new one takes its place.
          session.commitScheduled := true;
        }
        assert session.Buffer() == Accept(codec, before, audioChunkB64);
      }
      forall sid | sid in sessions && sid != streamSid
        ensures sessions[sid] != session && sessions[sid].Buffer() == old(sessions[sid].Buffer())
      {
      }
      BuffersSet(this, streamSid);
    }

    /** _configure_session: the settings, then the Korean-only system message. */
    method ConfigureSession(streamSid: string, session: RealtimeSession, systemPrompt: string)
      modifies session`sent
      ensures session.sent == old(session.sent) + ConfigureMessages(systemPrompt)
    {
      session.sent := session.sent + [SessionUpdate(Settings(systemPrompt))];
      // Waiting for session.updated only decides which line is logged.
      session.sent := session.sent + [ConversationItemCreate(SystemRole, KoreanOnlyRule)];
    }

    /**
     * create_session: the prompt is built first (creating the stream's
     * context entry), then the connection is made; on success a fresh
     * session replaces any previous one for the stream and is configured.
     * The receive loop it starts is ReceiveAndForward.
     */
    method CreateSession(streamSid: string, audioFormat: string, connectOk: bool) returns (r: Outcome<ClientError>)
      requires Valid()
      modifies this`sessions, state`sessionContext
      ensures Valid()
      ensures state.sessionContext == ConversationState.WithEntry(old(state.sessionContext), streamSid)
      ensures r.Pass? <==> connectOk
      ensures !connectOk ==> sessions == old(sessions)
      ensures connectOk ==>
                && streamSid in sessions && fresh(sessions[streamSid])
                && sessions == old(sessions)[streamSid := sessions[streamSid]]
                && sessions[streamSid].Buffer() == EmptyBuffer
                && sessions[streamSid].Events() == EventState(false, "", false)
                && !sessions[streamSid].socketClosed
                && sessions[streamSid].sent
                   == ConfigureMessages(ConversationState.SystemPrompt(
                                          ConversationState.DataOf(old(state.sessionContext), streamSid)))
      ensures Buffers() == if connectOk then old(Buffers())[streamSid := EmptyBuffer] else old(Buffers())
    {
      var systemPrompt := state.BuildSystemPrompt(streamSid);
      BuffersUnchanged(this);
      if !connectOk {
        return Fail(ConnectFailed);
      }
      OpenSession(streamSid, systemPrompt);
      r := Pass;
    }

    /** The connected half of create_session: a fresh session is stored for the stream and configured. */
    method OpenSession(streamSid: string, systemPrompt: string)
      requires Valid()
      modifies this`sessions
      ensures Valid()
      ensures streamSid in sessions && fresh(sessions[streamSid])
      ensures sessions == old(sessions)[streamSid := sessions[streamSid]]
      ensures sessions[streamSid].Buffer() == EmptyBuffer
      ensures sessions[streamSid].Events() == EventState(false, "", false)
      ensures !sessions[streamSid].socketClosed
      ensures sessions[streamSid].sent == ConfigureMessages(systemPrompt)
      ensures Buffers() == old(Buffers())[streamSid := EmptyBuffer]
    {
      var session := new RealtimeSession();
      sessions := sessions[streamSid := session];
      ConfigureSession(streamSid, session, systemPrompt);
      forall sid | sid in old(sessions) && sid != streamSid
        ensures sessions[sid] != session && sessions[sid].Buffer() == old(sessions[sid].Buffer())
      {
      }
      BuffersSet(this, streamSid);
    }

    /** _request_response: asks for a response in Korean and starts waiting for it. */
    method RequestResponse(streamSid: string, session: RealtimeSession)
      modifies session`sent, session`isWaitingResponse
      ensures session.sent == old(session.sent) + [ResponseCreate(KoreanResponseInstructions)]
      ensures session.isWaitingResponse
    {
      session.sent := session.sent + [ResponseCreate(KoreanResponseInstructions)];
      session.isWaitingResponse := true;
    }

    /**
     * The buffer half of close_session: the pending flush is cancelled, a
     * final flush runs only at or above the threshold with a non-empty
     * buffer, and the buffer ends empty.
     */
    method TeardownBuffer(streamSid: string, session: RealtimeSession)
      requires session.Valid(codec)
      modifies session`audioBuffer, session`pendingSamples, session`commitScheduled, session`sent
      ensures session.Buffer() == Teardown(old(session.Buffer())).0 == EmptyBuffer
      ensures session.sent == old(session.sent) + Teardown(old(session.Buffer())).1
      ensures session.Valid(codec)
    {
      TeardownEmpties(codec, session.Buffer());
      session.commitScheduled := false;
      if session.pendingSamples >= MinCommitSamples && session.audioBuffer != [] {
        FlushAudioBuffer(streamSid, session);
      }
      session.audioBuffer := [];
      session.pendingSamples := 0;
    }

    /**
     * close_session: the session is removed and its buffer torn down, then
     * its socket is closed, which may raise. An unknown stream is a no-op.
     */
    method CloseSession(streamSid: string, closeOk: bool) returns (r: Outcome<ClientError>)
      requires Valid()
      modifies this`sessions, Session(streamSid)`audioBuffer, Session(streamSid)`pendingSamples,
               Session(streamSid)`commitScheduled, Session(streamSid)`sent, Session(streamSid)`socketClosed
      ensures Valid()
      ensures sessions == old(sessions) - {streamSid}
      ensures Buffers() == old(Buffers()) - {streamSid}
      ensures streamSid !in old(sessions) ==> r == Pass
      ensures streamSid in old(sessions) ==>
                var s := old(sessions)[streamSid];
                && s.Buffer() == Teardown(old(s.Buffer())).0
                && s.sent == old(s.sent) + Teardown(old(s.Buffer())).1
                && s.socketClosed == (old(s.socketClosed) || closeOk)
                && (r.Pass? <==> closeOk)
    {
      if streamSid !in sessions {
        return Pass;
      }
      var session := sessions[streamSid];
      sessions := sessions - {streamSid};
      TeardownBuffer(streamSid, session);
      forall sid | sid in sessions
        ensures sessions[sid].Buffer() == old(sessions[sid].Buffer())
      {
        assert old(sessions)[sid] == sessions[sid] != session;
      }
      if closeOk {
        session.socketClosed := true;
        r := Pass;
      } else {
        r := Fail(CloseFailed);
      }
      BuffersRemoved(this, streamSid);
    }

    /** response.done / response.completed. */
    method FinishResponse(streamSid: string, session: RealtimeSession) returns (effects: seq<Effect>)
      modifies session`isWaitingResponse, session`transcriptBuffer, state
      ensures (session.Events(), effects) == Finish(old(session.Events()))
      ensures session.sessionUpdated == old(session.sessionUpdated)
      ensures state.sessionContext == Recorded(old(state.sessionContext), streamSid, effects)
    {
      session.isWaitingResponse := false;
      effects := [];
      if session.transcriptBuffer != "" {
        state.UpdateContext(streamSid, LastAiResponseKey, session.transcriptBuffer);
        effects := [RecordResponse(session.transcriptBuffer)];
        session.transcriptBuffer := "";
      }
    }

    /**
     * response.output_audio.delta: a present, non-empty delta goes to the
     * registered telephony handler; the event state `st` stays.
     */
    method ForwardAudioDelta(streamSid: string, ev: AiEvent, ghost st: EventState) returns (effects: seq<Effect>)
      requires ev.kind == OutputAudioDelta
      modifies Handler()`sent
      ensures Step(st, ev, twilioHandler != null) == (st, effects)
      ensures Recorded(state.sessionContext, streamSid, effects) == state.sessionContext
      ensures twilioHandler != null ==>
                twilioHandler.sent == old(twilioHandler.sent)
                  + ForwardedFrames(twilioHandler.codec, twilioHandler.connections, streamSid, effects)
    {
      effects := [];
      var audio := ev.delta.Get();
      if audio.Some? && audio.value != "" && twilioHandler != null {
        twilioHandler.SendAudioToTwilio(streamSid, audio.value);
        effects := [ForwardAudio(audio.value)];
        assert [ForwardAudio(audio.value)][..0] == [];
      }
    }

    /** One event of the receive loop's dispatch. */
    method HandleEvent(streamSid: string, session: RealtimeSession, ev: AiEvent) returns (effects: seq<Effect>)
      modifies session`isWaitingResponse, session`transcriptBuffer, session`sessionUpdated, state, Handler()`sent
      ensures (session.Events(), effects) == Step(old(session.Events()), ev, twilioHandler != null)
      ensures state.sessionContext == Recorded(old(state.sessionContext), streamSid, effects)
      ensures twilioHandler != null ==>
                twilioHandler.sent == old(twilioHandler.sent)
                  + ForwardedFrames(twilioHandler.codec, twilioHandler.connections, streamSid, effects)
    {
      effects := [];
      match ev.kind {
        case SessionUpdated =>
          session.sessionUpdated := true;
        case OutputAudioDelta =>
          effects := ForwardAudioDelta(streamSid, ev, session.Events());
        case OutputTextDelta =>
          // a null delta makes the concatenation raise before the assignment
          var text := ev.delta.GetOr("");
          if text.Some? {
            session.transcriptBuffer := session.transcriptBuffer + text.value;
          }
        case ResponseDone =>
          if ev.malformedNested {
            // the wait has ended; the log line then raises on the malformed response
            session.isWaitingResponse := false;
          } else {
            effects := FinishResponse(streamSid, session);
          }
        case ResponseCompleted =>
          effects := FinishResponse(streamSid, session);
        case ResponseError =>
          session.isWaitingResponse := false;
        case Error =>
          session.isWaitingResponse := false;
        case _ =>
      }
    }

    /**
     * _receive_and_forward over the frames the session's socket delivers:
     * the session is looked up once, then the frames are received.
     */
    method ReceiveAndForward(streamSid: string, frames: seq<AiFrame>) returns (effects: seq<Effect>)
      modifies Session(streamSid)`isWaitingResponse, Session(streamSid)`transcriptBuffer,
               Session(streamSid)`sessionUpdated, state, Handler()`sent
      ensures streamSid !in sessions ==> effects == []
      ensures streamSid in sessions ==>
                var p := Receive(old(sessions[streamSid].Events()), frames, twilioHandler != null);
                && sessions[streamSid].Events() == p.state
                && effects == p.effects
      ensures state.sessionContext == Recorded(old(state.sessionContext), streamSid, effects)
      ensures twilioHandler != null ==>
                twilioHandler.sent == old(twilioHandler.sent)
                  + ForwardedFrames(twilioHandler.codec, twilioHandler.connections, streamSid, effects)
    {
      effects := [];
      if streamSid !in sessions {
        return;
      }
      effects := ReceiveFrames(streamSid, sessions[streamSid], frames);
    }

    /**
     * The receive loop of one session: undecodable frames are skipped; a
     * non-object ends the loop; every other frame is dispatched.
     */
    method ReceiveFrames(streamSid: string, session: RealtimeSession, frames: seq<AiFrame>) returns (effects: seq<Effect>)
      modifies session`isWaitingResponse, session`transcriptBuffer, session`sessionUpdated, state, Handler()`sent
      ensures var p := Receive(old(session.Events()), frames, twilioHandler != null);
              session.Events() == p.state && effects == p.effects
      ensures state.sessionContext == Recorded(old(state.sessionContext), streamSid, effects)
      ensures twilioHandler != null ==>
                twilioHandler.sent == old(twilioHandler.sent)
                  + ForwardedFrames(twilioHandler.codec, twilioHandler.connections, streamSid, effects)
    {
      effects := [];
      var hasHandler := twilioHandler != null;
      ghost var sent0 := if twilioHandler != null then twilioHandler.sent else [];
      var i := 0;
      while i < |frames|
        invariant 0 <= i <= |frames|
        invariant Receive(old(session.Events()), frames[..i], hasHandler) == Progress(session.Events(), effects, false)
        invariant state.sessionContext == Recorded(old(state.sessionContext), streamSid, effects)
        invariant twilioHandler != null ==>
                    twilioHandler.sent == old(twilioHandler.sent)
                      + ForwardedFrames(twilioHandler.codec, twilioHandler.connections, streamSid, effects)
      {
        assert frames[..i + 1][..i] == frames[..i];
        match frames[i] {
          case Undecodable =>
          case NotAnObject =>
            // `.get` on a value that is not an object raises; the loop ends.
            StoppedIgnoresRest(old(session.Events()), frames[..i + 1], frames[i + 1..], hasHandler);
            assert frames[..i + 1] + frames[i + 1..] == frames;
            return;
          case Decoded(ev) =>
            effects := DispatchDecoded(streamSid, session, ev, effects, old(state.sessionContext), sent0);
            if Raises(ev) {
              // the branch raised part-way; the broad `except` ends the loop.
              StoppedIgnoresRest(old(session.Events()), frames[..i + 1], frames[i + 1..], hasHandler);
              assert frames[..i + 1] + frames[i + 1..] == frames;
              return;
            }
        }
        i := i + 1;
      }
      assert frames[..i] == frames;
    }

    /**
     * One decoded frame of the receive loop: its effects are appended to the
     * loop's effects so far, whose records in the store and frames in the
     * telephony outbox were counted from `store0` and `sent0`.
     */
    method DispatchDecoded(streamSid: string, session: RealtimeSession, ev: AiEvent, effects: seq<Effect>,
                           ghost store0: ConversationState.Store, ghost sent0: seq<Outbound>)
      returns (effects': seq<Effect>)
      requires state.sessionContext == Recorded(store0, streamSid, effects)
      requires twilioHandler != null ==>
                 twilioHandler.sent == sent0 + ForwardedFrames(twilioHandler.codec, twilioHandler.connections, streamSid, effects)
      modifies session`isWaitingResponse, session`transcriptBuffer, session`sessionUpdated, state, Handler()`sent
      ensures var (st, more) := Step(old(session.Events()), ev, twilioHandler != null);
              session.Events() == st && effects' == effects + more
      ensures state.sessionContext == Recorded(store0, streamSid, effects')
      ensures twilioHandler != null ==>
                twilioHandler.sent == sent0 + ForwardedFrames(twilioHandler.codec, twilioHandler.connections, streamSid, effects')
    {
      var more := HandleEvent(streamSid, session, ev);
      RecordedAppend(store0, streamSid, effects, more);
      if twilioHandler != null {
        ForwardedFramesAppend(twilioHandler.codec, twilioHandler.connections, streamSid, effects, more);
      }
      effects' := effects + more;
    }
  }

  /**
   * A change to one stream's session, seen as a change to the buffer map:
   * when that session is consistent and shared with no other stream, and
   * every other buffer is as it was, the client's invariant still holds.
   */
  twostate lemma BuffersSet(client: OpenAIVoiceClient, new streamSid: string)
    requires old(client.Valid())
    requires streamSid in client.sessions
    requires client.sessions == old(client.sessions)[streamSid := client.sessions[streamSid]]
    requires client.sessions[streamSid].Valid(client.codec)
    requires forall sid | sid in old(client.sessions) && sid != streamSid ::
               && client.sessions[sid] != client.sessions[streamSid]
               && client.sessions[sid].Buffer() == old(client.sessions[sid].Buffer())
    ensures client.Valid()
    ensures client.Buffers() == old(client.Buffers())[streamSid := client.sessions[streamSid].Buffer()]
  {
    SetKeepsValid(client, streamSid);
    SetBufferMap(client, streamSid);
  }

  /** The buffer-map half of BuffersSet. */
  twostate lemma SetBufferMap(client: OpenAIVoiceClient, new streamSid: string)
    requires streamSid in client.sessions
    requires client.sessions == old(client.sessions)[streamSid := client.sessions[streamSid]]
    requires forall sid | sid in old(client.sessions) && sid != streamSid ::
               client.sessions[sid].Buffer() == old(client.sessions[sid].Buffer())
    ensures client.Buffers() == old(client.Buffers())[streamSid := client.sessions[streamSid].Buffer()]
  {
  }

  /** The invariant half of BuffersSet. */
  twostate lemma SetKeepsValid(client: OpenAIVoiceClient, new streamSid: string)
    requires old(client.Valid())
    requires streamSid in client.sessions
    requires client.sessions == old(client.sessions)[streamSid := client.sessions[streamSid]]
    requires client.sessions[streamSid].Valid(client.codec)
    requires forall sid | sid in old(client.sessions) && sid != streamSid ::
               && client.sessions[sid] != client.sessions[streamSid]
               && client.sessions[sid].Buffer() == old(client.sessions[sid].Buffer())
    ensures client.Valid()
  {
    forall sid | sid in client.sessions && sid != streamSid
      ensures client.sessions[sid].Valid(client.codec)
    {
      assert old(client.sessions[sid].Valid(client.codec));
    }
  }

  /** The buffer map reads only the session map and the sessions' buffer fields. */
  twostate lemma BuffersUnchanged(client: OpenAIVoiceClient)
    requires unchanged(client`sessions)
    requires forall s | s in client.sessions.Values :: unchanged(s`audioBuffer, s`pendingSamples, s`commitScheduled)
    ensures client.Buffers() == old(client.Buffers())
  {
  }

  /** Removing one stream's session, seen as a change to the buffer map; the invariant still holds. */
  twostate lemma BuffersRemoved(client: OpenAIVoiceClient, new streamSid: string)
    requires old(client.Valid())
    requires client.sessions == old(client.sessions) - {streamSid}
    requires forall sid | sid in client.sessions :: client.sessions[sid].Buffer() == old(client.sessions[sid].Buffer())
    ensures client.Valid()
    ensures client.Buffers() == old(client.Buffers()) - {streamSid}
  {
    forall sid | sid in client.sessions
      ensures client.sessions[sid].Valid(client.codec)
    {
      assert old(client.sessions[sid].Valid(client.codec));
    }
  }

  // -------------------------------------------------------------------
  // The telephony stream handler
  // -------------------------------------------------------------------

  class TwilioStreamHandler {
    const codec: Codec
    const state: ConversationState.ConversationStateManager
    const client: OpenAIVoiceClient
    var connections: map<string, SocketId>
    var audioConfig: map<string, AudioConfig>
    /** The frames sent to the telephony sockets, in order. */
    var sent: seq<Outbound>

    /** The handler and the client share the codec and the context store. */
    ghost predicate Valid()
      reads client, client.sessions.Values
    {
      && client.Valid()
      && client.codec == codec
      && client.state == state
    }

    constructor (codec: Codec, state: ConversationState.ConversationStateManager, client: OpenAIVoiceClient)
      requires client.Valid() && client.codec == codec && client.state == state
      ensures this.codec == codec && this.state == state && this.client == client
      ensures connections == map[] && audioConfig == map[] && sent == []
      ensures Valid()
    {
      this.codec := codec;
      this.state := state;
      this.client := client;
      connections := map[];
      audioConfig := map[];
      sent := [];
    }

    function FramesFor(streamSid: string, audioPayloadB64: string): seq<Outbound>
      reads this`connections
    {
      MediaFrames(codec, connections, streamSid, audioPayloadB64)
    }

    /** register_stream: stores the socket and resets the format to 8 kHz µ-law, replacing any entry. */
    method RegisterStream(streamSid: string, websocket: SocketId)
      modifies this`connections, this`audioConfig
      ensures connections == old(connections)[streamSid := websocket]
      ensures audioConfig == old(audioConfig)[streamSid := DefaultAudioConfig]
      ensures client.Buffers() == old(client.Buffers())
    {
      connections := connections[streamSid := websocket];
      audioConfig := audioConfig[streamSid := DefaultAudioConfig];
    }

    /** configure_stream_audio: a stream without a stored format is left alone. */
    method ConfigureStreamAudio(streamSid: string, encoding: Option<string>, sampleRate: Option<int>)
      modifies this`audioConfig
      ensures streamSid !in old(audioConfig) ==> audioConfig == old(audioConfig)
      ensures streamSid in old(audioConfig) ==>
                audioConfig == old(audioConfig)[streamSid := Reconfigured(old(audioConfig)[streamSid], encoding, sampleRate)]
      ensures client.Buffers() == old(client.Buffers())
    {
      if streamSid !in audioConfig {
        return;
      }
      var cfg := audioConfig[streamSid];
      if GivenText(encoding) {
        cfg := cfg.(encoding := encoding.value);
      }
      if GivenNumber(sampleRate) {
        cfg := cfg.(sampleRate := sampleRate.value);
      }
      audioConfig := audioConfig[streamSid := cfg];
    }

    /** start_session: exactly one session creation, with the "pcm16" format. */
    method StartSession(streamSid: string, connectOk: bool) returns (r: Outcome<ClientError>)
      requires Valid()
      modifies client`sessions, state`sessionContext
      ensures Valid()
      ensures state.sessionContext == ConversationState.WithEntry(old(state.sessionContext), streamSid)
      ensures r.Pass? <==> connectOk
      ensures !connectOk ==> client.sessions == old(client.sessions)
      ensures connectOk ==>
                && streamSid in client.sessions && fresh(client.sessions[streamSid])
                && client.sessions == old(client.sessions)[streamSid := client.sessions[streamSid]]
                && client.sessions[streamSid].Buffer() == EmptyBuffer
                && client.sessions[streamSid].Events() == EventState(false, "", false)
                && !client.sessions[streamSid].socketClosed
                && client.sessions[streamSid].sent
                   == ConfigureMessages(ConversationState.SystemPrompt(
                                          ConversationState.DataOf(old(state.sessionContext), streamSid)))
      ensures client.Buffers() == if connectOk then old(client.Buffers())[streamSid := EmptyBuffer]
                                  else old(client.Buffers())
    {
      r := client.CreateSession(streamSid, Pcm16Format, connectOk);
    }

    /**
     * forward_media_chunk: converts with the stream's stored format to
     * 16 kHz and hands the result to the client; no format or a failed
     * conversion drops the chunk without raising.
     */
    method ForwardMediaChunk(streamSid: string, mediaChunkB64: string)
      requires Valid()
      modifies client.Session(streamSid)`audioBuffer, client.Session(streamSid)`pendingSamples,
               client.Session(streamSid)`commitScheduled
      ensures Valid()
      ensures streamSid in client.sessions ==>
                var chunk := InboundChunk(codec, audioConfig, streamSid, mediaChunkB64);
                var before := old(client.sessions[streamSid].Buffer());
                client.sessions[streamSid].Buffer() == (if chunk.Some? then Accept(codec, before, chunk.value) else before)
      ensures var chunk := InboundChunk(codec, audioConfig, streamSid, mediaChunkB64);
              client.Buffers() == if streamSid in client.sessions && chunk.Some?
                                  then old(client.Buffers())[streamSid := Accept(codec, old(client.Buffers())[streamSid], chunk.value)]
                                  else old(client.Buffers())
    {
      var chunk := InboundChunk(codec, audioConfig, streamSid, mediaChunkB64);
      if chunk.None? {
        return;
      }
      client.SendAudioChunk(streamSid, chunk.value);
    }

    /** send_audio_to_twilio: at most one media frame, on the stream's own socket. */
    method SendAudioToTwilio(streamSid: string, audioPayloadB64: string)
      modifies this`sent
      ensures sent == old(sent) + FramesFor(streamSid, audioPayloadB64)
    {
      if streamSid !in connections {
        return;
      }
      var websocket := connections[streamSid];
      var converted := ConvertPcm16ToMulaw(codec, audioPayloadB64, OpenAIOutputSampleRate, TwilioDefaultSampleRate);
      if converted.Failure? {
        return;
      }
      sent := sent + [Outbound(websocket, TwilioMedia(MediaEvent, streamSid, converted.value))];
    }

    /**
     * terminate_session: closes the AI session, and whatever that does
     * (the `finally`), forgets the socket, the format and the context of
     * the stream. Other streams are untouched.
     */
    method TerminateSession(streamSid: string, closeOk: bool) returns (r: Outcome<ClientError>)
      requires Valid()
      modifies this`connections, this`audioConfig, client`sessions, state`sessionContext,
               client.Session(streamSid)`audioBuffer, client.Session(streamSid)`pendingSamples,
               client.Session(streamSid)`commitScheduled, client.Session(streamSid)`sent,
               client.Session(streamSid)`socketClosed
      ensures Valid()
      ensures connections == old(connections) - {streamSid}
      ensures audioConfig == old(audioConfig) - {streamSid}
      ensures client.sessions == old(client.sessions) - {streamSid}
      ensures client.Buffers() == old(client.Buffers()) - {streamSid}
      ensures state.sessionContext == ConversationState.Cleared(old(state.sessionContext), streamSid)
      ensures r.Pass? <==> (closeOk || streamSid !in old(client.sessions))
      ensures streamSid in old(client.sessions) ==>
                var s := old(client.sessions)[streamSid];
                && s.Buffer() == EmptyBuffer
                && s.sent == old(s.sent) + Teardown(old(s.Buffer())).1
                && s.socketClosed == (old(s.socketClosed) || closeOk)
    {
      r := client.CloseSession(streamSid, closeOk);
      ForgetStream(streamSid);
    }

    /** The `finally` of terminate_session: the stream's socket, format and context are dropped. */
    method ForgetStream(streamSid: string)
      requires Valid()
      modifies this`connections, this`audioConfig, state`sessionContext
      ensures Valid() && client.Buffers() == old(client.Buffers())
      ensures connections == old(connections) - {streamSid}
      ensures audioConfig == old(audioConfig) - {streamSid}
      ensures state.sessionContext == ConversationState.Cleared(old(state.sessionContext), streamSid)
    {
      connections := connections - {streamSid};
      audioConfig := audioConfig - {streamSid};
      state.Clear(streamSid);
      BuffersUnchanged(client);
    }
  }
}
