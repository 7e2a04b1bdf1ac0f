/**
 * The AI realtime session as values: the inbound audio buffer with its
 * sample threshold and debounced flush, the messages sent to the AI
 * service, and the state machine driven by the events it sends back.
 *
 * These functions are the specifications the methods of the session
 * classes are proved against; the lemmas state the buffer's promises on
 * them.
 */
module Realtime {
  import opened Wrappers
  import opened Audio

  /** About 150 ms of 16 kHz audio must be buffered before it is sent. */
  const MinCommitSamples: nat := 2400

  // -------------------------------------------------------------------
  // Messages sent to the AI service
  // -------------------------------------------------------------------

  datatype TurnDetection = TurnDetection(
    kind: string, threshold: real, prefixPaddingMs: int, silenceDurationMs: int)

  datatype SessionSettings = SessionSettings(
    modalities: seq<string>,
    instructions: string,
    voice: string,
    inputAudioFormat: string,
    outputAudioFormat: string,
    inputAudioTranscriptionModel: string,
    turnDetection: TurnDetection,
    temperature: real,
    maxResponseOutputTokens: int)

  datatype AiMessage =
    | SessionUpdate(session: SessionSettings)                  // "session.update"
    | ConversationItemCreate(role: string, text: string)       // "conversation.item.create", one input_text part
    | InputAudioBufferAppend(audio: string)                    // "input_audio_buffer.append"
    | ResponseCreate(instructions: string)                     // "response.create"

  const Pcm16Format: string := "pcm16"
  const SystemRole: string := "system"

  /** The system message added after the settings: answer only in polite Korean. */
  const KoreanOnlyRule: string :=
    "항상 한국어(존댓말)로만 응답하세요. 영어, 스페인어, 프랑스어, 아랍어 등 다른 언어는 절대 사용 금지입니다."

  /** The per-response instruction of a response request. */
  const KoreanResponseInstructions: string := "지금부터 한국어(존댓말)로만 응답하세요. 다른 언어 사용 금지."

  function Settings(systemPrompt: string): (s: SessionSettings)
    ensures s.instructions == systemPrompt
    ensures s.inputAudioFormat == Pcm16Format && s.outputAudioFormat == Pcm16Format
    ensures s.modalities == ["text", "audio"]
  {
    SessionSettings(
      modalities := ["text", "audio"],
      instructions := systemPrompt,
      voice := "alloy",
      inputAudioFormat := Pcm16Format,
      outputAudioFormat := Pcm16Format,
      inputAudioTranscriptionModel := "whisper-1",
      turnDetection := TurnDetection("server_vad", 0.5, 300, 700),
      temperature := 0.6,
      maxResponseOutputTokens := 200)
  }

  /** What configuring a new session sends: the settings, then the Korean-only system message. */
  function ConfigureMessages(systemPrompt: string): seq<AiMessage> {
    [SessionUpdate(Settings(systemPrompt)), ConversationItemCreate(SystemRole, KoreanOnlyRule)]
  }

  /** The settings go first and carry the prompt; the system message follows; nothing else is sent. */
  lemma ConfigureSendsSettingsThenRule(systemPrompt: string)
    ensures var m := ConfigureMessages(systemPrompt);
            && |m| == 2
            && m[0].SessionUpdate? && m[0].session.instructions == systemPrompt
            && m[1] == ConversationItemCreate(SystemRole, KoreanOnlyRule)
            && forall i | 0 <= i < |m| :: !m[i].InputAudioBufferAppend? && !m[i].ResponseCreate?
  {
  }

  // -------------------------------------------------------------------
  // The inbound audio buffer
  // -------------------------------------------------------------------

  /**
   * The buffering part of a session: the base64 chunks not yet sent, the
   * sample count they add up to, and whether a debounced flush is pending
   * (the commit task).
   */
  datatype InboundBuffer = InboundBuffer(audioBuffer: seq<string>, pendingSamples: nat, flushScheduled: bool)

  const EmptyBuffer: InboundBuffer := InboundBuffer([], 0, false)

  /** Samples a chunk adds: two bytes per PCM16 mono sample, an odd byte dropped. */
  function SampleCount(c: Codec, chunk: string): nat {
    match c.b64decode(chunk)
    case None => 0
    case Some(bytes) => |bytes| / 2
  }

  function SumSamples(c: Codec, chunks: seq<string>): nat
    decreases |chunks|
  {
    if chunks == [] then 0
    else SumSamples(c, chunks[..|chunks| - 1]) + SampleCount(c, chunks[|chunks| - 1])
  }

  ghost predicate AllDecodable(c: Codec, chunks: seq<string>) {
    forall i | 0 <= i < |chunks| :: c.b64decode(chunks[i]).Some?
  }

  /**
   * The buffer's invariant: the counter is the sum over the buffered
   * chunks, every buffered chunk decodes, and a flush is pending only once
   * the threshold has been reached.
   */
  ghost predicate Consistent(c: Codec, b: InboundBuffer) {
    && b.pendingSamples == SumSamples(c, b.audioBuffer)
    && AllDecodable(c, b.audioBuffer)
    && (b.flushScheduled ==> b.pendingSamples >= MinCommitSamples)
  }

  /**
   * Accepting one chunk: an undecodable chunk is dropped; otherwise it is
   * appended and counted, and reaching the threshold (re)schedules the one
   * pending flush.
   */
  function Accept(c: Codec, b: InboundBuffer, chunk: string): InboundBuffer {
    match c.b64decode(chunk)
    case None => b
    case Some(bytes) =>
      var pending := b.pendingSamples + |bytes| / 2;
      InboundBuffer(b.audioBuffer + [chunk], pending, b.flushScheduled || pending >= MinCommitSamples)
  }

  function AcceptAll(c: Codec, b: InboundBuffer, chunks: seq<string>): InboundBuffer
    decreases |chunks|
  {
    if chunks == [] then b
    else Accept(c, AcceptAll(c, b, chunks[..|chunks| - 1]), chunks[|chunks| - 1])
  }

  /** One append message per chunk, in order. */
  function AppendMessages(chunks: seq<string>): seq<AiMessage>
    decreases |chunks|
  {
    if chunks == [] then []
    else AppendMessages(chunks[..|chunks| - 1]) + [InputAudioBufferAppend(chunks[|chunks| - 1])]
  }

  /**
   * A flush: below the threshold or with nothing buffered it does nothing;
   * otherwise it sends every chunk and empties the buffer. No commit is
   * sent (the service detects speech itself). The pending-flush flag is
   * the caller's business.
   */
  function Flush(b: InboundBuffer): (InboundBuffer, seq<AiMessage>) {
    if b.pendingSamples < MinCommitSamples || b.audioBuffer == [] then (b, [])
    else (InboundBuffer([], 0, b.flushScheduled), AppendMessages(b.audioBuffer))
  }

  /** The debounce timer firing: flush, then the commit task is gone. */
  function TimerFired(b: InboundBuffer): (InboundBuffer, seq<AiMessage>) {
    var (flushed, sent) := Flush(b);
    (flushed.(flushScheduled := false), sent)
  }

  /**
   * Closing: the pending flush is cancelled, a final flush runs only when
   * the threshold is met and the buffer is not empty, and the buffer ends
   * empty either way.
   */
  function Teardown(b: InboundBuffer): (InboundBuffer, seq<AiMessage>) {
    var cancelled := b.(flushScheduled := false);
    var sent := if cancelled.pendingSamples >= MinCommitSamples && cancelled.audioBuffer != []
                then Flush(cancelled).1 else [];
    (EmptyBuffer, sent)
  }

  lemma {:induction false} AppendMessagesSpec(chunks: seq<string>)
    ensures |AppendMessages(chunks)| == |chunks|
    ensures forall i | 0 <= i < |chunks| :: AppendMessages(chunks)[i] == InputAudioBufferAppend(chunks[i])
    decreases |chunks|
  {
    if chunks != [] {
      AppendMessagesSpec(chunks[..|chunks| - 1]);
    }
  }

  lemma {:induction false} AppendMessagesConcat(a: seq<string>, b: seq<string>)
    ensures AppendMessages(a + b) == AppendMessages(a) + AppendMessages(b)
    decreases |b|
  {
    if b == [] {
      assert a + b == a;
    } else {
      assert (a + b)[..|a + b| - 1] == a + b[..|b| - 1];
      AppendMessagesConcat(a, b[..|b| - 1]);
    }
  }

  lemma {:induction false} SumSamplesEmptyOnly(c: Codec, chunks: seq<string>)
    ensures chunks == [] ==> SumSamples(c, chunks) == 0
    ensures SumSamples(c, chunks) >= MinCommitSamples ==> chunks != []
  {
  }

  /** Accepting a chunk keeps the buffer's invariant. */
  lemma AcceptPreservesConsistent(c: Codec, b: InboundBuffer, chunk: string)
    requires Consistent(c, b)
    ensures Consistent(c, Accept(c, b, chunk))
  {
    match c.b64decode(chunk)
    case None =>
    case Some(bytes) =>
      var chunks := b.audioBuffer + [chunk];
      assert chunks[..|chunks| - 1] == b.audioBuffer;
  }

  /** An undecodable chunk changes nothing and schedules nothing. */
  lemma UndecodableChunkIgnored(c: Codec, b: InboundBuffer, chunk: string)
    requires c.b64decode(chunk).None?
    ensures Accept(c, b, chunk) == b
  {
  }

  /** An accepted chunk is appended unchanged and its samples are added to the counter. */
  lemma AcceptAppends(c: Codec, b: InboundBuffer, chunk: string, bytes: Bytes)
    requires c.b64decode(chunk) == Some(bytes)
    ensures Accept(c, b, chunk).audioBuffer == b.audioBuffer + [chunk]
    ensures Accept(c, b, chunk).pendingSamples == b.pendingSamples + |bytes| / 2
  {
  }

  /** While the running total stays below the threshold no flush is ever scheduled. */
  lemma {:induction false} BelowThresholdNeverSchedules(c: Codec, b: InboundBuffer, chunks: seq<string>)
    requires !b.flushScheduled
    requires b.pendingSamples + SumSamples(c, chunks) < MinCommitSamples
    ensures !AcceptAll(c, b, chunks).flushScheduled
    ensures AcceptAll(c, b, chunks).pendingSamples == b.pendingSamples + SumSamples(c, chunks)
    decreases |chunks|
  {
    if chunks != [] {
      BelowThresholdNeverSchedules(c, b, chunks[..|chunks| - 1]);
    }
  }

  /** The chunk that brings the count to the threshold schedules the flush. */
  lemma CrossingSchedules(c: Codec, b: InboundBuffer, chunk: string)
    requires c.b64decode(chunk).Some?
    requires b.pendingSamples + SampleCount(c, chunk) >= MinCommitSamples
    ensures Accept(c, b, chunk).flushScheduled
  {
  }

  /** A flush below the threshold, or of an empty buffer, sends nothing and changes nothing. */
  lemma FlushNoOp(b: InboundBuffer)
    requires b.pendingSamples < MinCommitSamples || b.audioBuffer == []
    ensures Flush(b) == (b, [])
  {
  }

  /**
   * A flush that proceeds sends exactly one append per buffered chunk, in
   * buffer order and carrying the chunk unchanged, and nothing else; the
   * buffer is then empty and the counter zero.
   */
  lemma FlushSendsAll(b: InboundBuffer)
    requires b.pendingSamples >= MinCommitSamples && b.audioBuffer != []
    ensures var (after, sent) := Flush(b);
            && after.audioBuffer == [] && after.pendingSamples == 0
            && |sent| == |b.audioBuffer|
            && forall i | 0 <= i < |sent| :: sent[i] == InputAudioBufferAppend(b.audioBuffer[i])
  {
    AppendMessagesSpec(b.audioBuffer);
  }

  /** A pending flush always finds the threshold met: when the timer fires everything goes out. */
  lemma ScheduledFlushSends(c: Codec, b: InboundBuffer)
    requires Consistent(c, b) && b.flushScheduled
    ensures TimerFired(b) == (EmptyBuffer, AppendMessages(b.audioBuffer))
    ensures Consistent(c, TimerFired(b).0)
  {
    SumSamplesEmptyOnly(c, b.audioBuffer);
  }

  /** The timer, firing under the invariant, keeps it. */
  lemma TimerPreservesConsistent(c: Codec, b: InboundBuffer)
    requires Consistent(c, b)
    ensures Consistent(c, TimerFired(b).0)
    ensures !TimerFired(b).0.flushScheduled
  {
  }

  /**
   * Closing always ends with an empty buffer, no pending flush and a zero
   * counter; it sends the buffered chunks iff the threshold was met, so a
   * tail below the threshold is discarded.
   */
  lemma TeardownEmpties(c: Codec, b: InboundBuffer)
    ensures Teardown(b).0 == EmptyBuffer && Consistent(c, EmptyBuffer)
    ensures b.pendingSamples >= MinCommitSamples && b.audioBuffer != [] ==>
              Teardown(b).1 == AppendMessages(b.audioBuffer)
    ensures b.pendingSamples < MinCommitSamples || b.audioBuffer == [] ==> Teardown(b).1 == []
  {
  }

  /** Closing twice: the second close finds nothing to send. */
  lemma TeardownTwice(b: InboundBuffer)
    ensures Teardown(Teardown(b).0) == (EmptyBuffer, [])
  {
  }

  /**
   * The debounce scenario: chunks of 1000, 1000 and 600 samples. The first
   * two leave the flush unscheduled; the third reaches 2600 and schedules
   * it, and firing sends the three chunks in order.
   */
  lemma DebounceScenario(c: Codec, x: string, y: string, z: string, bytesX: Bytes, bytesY: Bytes, bytesZ: Bytes)
    requires c.b64decode(x) == Some(bytesX) && |bytesX| == 2000
    requires c.b64decode(y) == Some(bytesY) && |bytesY| == 2000
    requires c.b64decode(z) == Some(bytesZ) && |bytesZ| == 1200
    ensures var one := Accept(c, EmptyBuffer, x);
            var two := Accept(c, one, y);
            var three := Accept(c, two, z);
            && !one.flushScheduled && !two.flushScheduled && two.pendingSamples == 2000
            && three.flushScheduled && three.pendingSamples == 2600
            && TimerFired(three) == (EmptyBuffer, [InputAudioBufferAppend(x), InputAudioBufferAppend(y), InputAudioBufferAppend(z)])
  {
    var one := Accept(c, EmptyBuffer, x);
    assert one == InboundBuffer([x], 1000, false);
    var two := Accept(c, one, y);
    assert two == InboundBuffer([x, y], 2000, false);
    var three := Accept(c, two, z);
    assert three == InboundBuffer([x, y, z], 2600, true);
    assert [x, y, z][..2] == [x, y];
    assert [x, y][..1] == [x];
    assert AppendMessages([x]) == [InputAudioBufferAppend(x)];
    assert AppendMessages([x, y]) == [InputAudioBufferAppend(x), InputAudioBufferAppend(y)];
    assert AppendMessages([x, y, z]) == [InputAudioBufferAppend(x), InputAudioBufferAppend(y), InputAudioBufferAppend(z)];
  }

  // -------------------------------------------------------------------
  // Events received from the AI service
  // -------------------------------------------------------------------

  datatype EventKind =
    | SessionCreated
    | SessionUpdated
    | InputAudioBufferCommitted
    | InputAudioTranscriptionCompleted
    | ResponseCreated
    | OutputAudioDelta
    | OutputAudioDone
    | OutputItemAdded
    | ContentPartAdded
    | OutputAudioTranscriptDelta
    | OutputTextDelta
    | ResponseDone
    | ResponseCompleted
    | ResponseError
    | Error
    | Unlisted(eventType: Option<string>)

  /** The "type" string of each listed event kind. */
  function TypeName(k: EventKind): string
    requires !k.Unlisted?
  {
    match k
    case SessionCreated => "session.created"
    case SessionUpdated => "session.updated"
    case InputAudioBufferCommitted => "input_audio_buffer.committed"
    case InputAudioTranscriptionCompleted => "conversation.item.input_audio_transcription.completed"
    case ResponseCreated => "response.created"
    case OutputAudioDelta => "response.output_audio.delta"
    case OutputAudioDone => "response.output_audio.done"
    case OutputItemAdded => "response.output_item.added"
    case ContentPartAdded => "response.content_part.added"
    case OutputAudioTranscriptDelta => "response.output_audio_transcript.delta"
    case OutputTextDelta => "response.output_text.delta"
    case ResponseDone => "response.done"
    case ResponseCompleted => "response.completed"
    case ResponseError => "response.error"
    case Error => "error"
  }

  /** The "type" strings the dispatch has a branch for. */
  const ListedTypeNames: set<string> := {
    "session.created", "session.updated", "input_audio_buffer.committed",
    "conversation.item.input_audio_transcription.completed", "response.created",
    "response.output_audio.delta", "response.output_audio.done", "response.output_item.added",
    "response.content_part.added", "response.output_audio_transcript.delta", "response.output_text.delta",
    "response.done", "response.completed", "response.error", "error"
  }

  /**
   * The branch of the dispatch an event's "type" field selects (None: no
   * such field): a listed string selects the kind it names, anything else
   * (no field, or an unlisted string) falls through to Unlisted.
   */
  function Classify(eventType: Option<string>): (k: EventKind)
    ensures k.Unlisted? <==> (eventType.None? || eventType.value !in ListedTypeNames)
    ensures k.Unlisted? ==> k.eventType == eventType
    ensures !k.Unlisted? ==> eventType == Some(TypeName(k))
  {
    if eventType == Some("session.created") then SessionCreated
    else if eventType == Some("session.updated") then SessionUpdated
    else if eventType == Some("input_audio_buffer.committed") then InputAudioBufferCommitted
    else if eventType == Some("conversation.item.input_audio_transcription.completed") then InputAudioTranscriptionCompleted
    else if eventType == Some("response.created") then ResponseCreated
    else if eventType == Some("response.output_audio.delta") then OutputAudioDelta
    else if eventType == Some("response.output_audio.done") then OutputAudioDone
    else if eventType == Some("response.output_item.added") then OutputItemAdded
    else if eventType == Some("response.content_part.added") then ContentPartAdded
    else if eventType == Some("response.output_audio_transcript.delta") then OutputAudioTranscriptDelta
    else if eventType == Some("response.output_text.delta") then OutputTextDelta
    else if eventType == Some("response.done") then ResponseDone
    else if eventType == Some("response.completed") then ResponseCompleted
    else if eventType == Some("response.error") then ResponseError
    else if eventType == Some("error") then Error
    else Unlisted(eventType)
  }

  /** Each listed kind is the branch its own "type" string selects. */
  lemma ClassifyTypeName(k: EventKind)
    requires !k.Unlisted?
    ensures TypeName(k) in ListedTypeNames
    ensures Classify(Some(TypeName(k))) == k
  {
  }

  /**
   * The fields of an event that the dispatch reads: the branch its "type"
   * field selects, its "delta" field, and whether the nested value its log
   * line reads is malformed. That value is `session` for session.updated,
   * `response` for response.created, `item` for response.output_item.added,
   * `part` for response.content_part.added, and `response` with its
   * `output` list for response.done. It is malformed when it is present
   * but not of the shape those reads need (null, or not an object or list
   * of objects), so that reading it raises.
   */
  datatype AiEvent = AiEvent(kind: EventKind, delta: Key<string>, malformedNested: bool)

  /** An event as received: its "type" (None: no such field), its "delta", and its nested value's shape. */
  function ParseEvent(eventType: Option<string>, delta: Key<string>, malformedNested: bool): (ev: AiEvent)
    ensures ev.delta == delta && ev.malformedNested == malformedNested
    ensures ev.kind.Unlisted? <==> (eventType.None? || eventType.value !in ListedTypeNames)
    ensures ev.kind.Unlisted? ==> ev.kind.eventType == eventType
    ensures !ev.kind.Unlisted? ==> eventType == Some(TypeName(ev.kind))
  {
    AiEvent(Classify(eventType), delta, malformedNested)
  }

  /** A received text frame: not JSON, JSON but not an object, or an object. */
  datatype AiFrame = Undecodable | NotAnObject | Decoded(event: AiEvent)

  /** The session fields the events update. */
  datatype EventState = EventState(isWaitingResponse: bool, transcriptBuffer: string, sessionUpdated: bool)

  /** What an event makes the client do outside the session. */
  datatype Effect =
    | ForwardAudio(delta: string)       // send the audio delta to the telephony stream
    | RecordResponse(text: string)      // store the transcript as the last AI response

  const LastAiResponseKey: string := "last_ai_response"

  /** A completed response: no longer waiting; a non-empty transcript is recorded and reset. */
  function Finish(st: EventState): (EventState, seq<Effect>) {
    if st.transcriptBuffer != "" then
      (st.(isWaitingResponse := false, transcriptBuffer := ""), [RecordResponse(st.transcriptBuffer)])
    else (st.(isWaitingResponse := false), [])
  }

  /** The kinds whose log line reads a nested value. */
  const NestedReaders: set<EventKind> := {SessionUpdated, ResponseCreated, OutputItemAdded, ContentPartAdded, ResponseDone}

  /**
   * Whether the event's branch raises: appending a null text delta to the
   * transcript is a type error, and so is reading a malformed nested value.
   * The broad `except` around the loop then ends it.
   */
  predicate Raises(ev: AiEvent) {
    || (ev.kind == OutputTextDelta && ev.delta.KeyNull?)
    || (ev.kind in NestedReaders && ev.malformedNested)
  }

  /**
   * One event: the new session fields and the effects, in the order the
   * dispatch performs them. A branch that raises keeps what it did before
   * the raise: session.updated has set its flag and response.done has
   * ended the wait, but records nothing.
   */
  function Step(st: EventState, ev: AiEvent, hasHandler: bool): (EventState, seq<Effect>) {
    match ev.kind
    case SessionUpdated => (st.(sessionUpdated := true), [])
    case OutputAudioDelta =>
      var audio := ev.delta.Get();
      if audio.Some? && audio.value != "" && hasHandler then (st, [ForwardAudio(audio.value)])
      else (st, [])
    case OutputTextDelta =>
      var text := ev.delta.GetOr("");
      if text.Some? then (st.(transcriptBuffer := st.transcriptBuffer + text.value), []) else (st, [])
    case ResponseDone => if ev.malformedNested then (st.(isWaitingResponse := false), []) else Finish(st)
    case ResponseCompleted => Finish(st)
    case ResponseError => (st.(isWaitingResponse := false), [])
    case Error => (st.(isWaitingResponse := false), [])
    case _ => (st, [])
  }

  /** Progress of the receive loop: the session fields, the effects so far, and whether it ended. */
  datatype Progress = Progress(state: EventState, effects: seq<Effect>, stopped: bool)

  /**
   * One frame: undecodable JSON is skipped; a non-object ends the loop (its
   * `.get` raises); an event is dispatched, and ends the loop if its branch
   * raises.
   */
  function Advance(p: Progress, frame: AiFrame, hasHandler: bool): Progress {
    match frame
    case Undecodable => p
    case NotAnObject => p.(stopped := true)
    case Decoded(ev) =>
      var (st, effects) := Step(p.state, ev, hasHandler);
      Progress(st, p.effects + effects, Raises(ev))
  }

  /** The receive loop over the frames received so far. */
  function Receive(st: EventState, frames: seq<AiFrame>, hasHandler: bool): Progress
    decreases |frames|
  {
    if frames == [] then Progress(st, [], false)
    else
      var p := Receive(st, frames[..|frames| - 1], hasHandler);
      if p.stopped then p else Advance(p, frames[|frames| - 1], hasHandler)
  }

  /** session.updated sets the acknowledgement flag; its log line raises on a malformed `session`. */
  lemma SessionUpdatedSetsFlag(st: EventState, ev: AiEvent, hasHandler: bool)
    requires ev.kind == SessionUpdated
    ensures Step(st, ev, hasHandler) == (st.(sessionUpdated := true), [])
    ensures Raises(ev) <==> ev.malformedNested
  {
  }

  /**
   * Every event outside the seven that act (among them response.created
   * and response.output_audio_transcript.delta) changes no state and has
   * no effect; the three whose log line reads a nested value raise when
   * it is malformed.
   */
  lemma OtherEventsChangeNothing(st: EventState, ev: AiEvent, hasHandler: bool)
    requires ev.kind !in {SessionUpdated, OutputAudioDelta, OutputTextDelta,
                                        ResponseDone, ResponseCompleted, ResponseError, Error}
    ensures Step(st, ev, hasHandler) == (st, [])
    ensures Raises(ev) <==> (ev.kind in {ResponseCreated, OutputItemAdded, ContentPartAdded} && ev.malformedNested)
  {
  }

  /**
   * An audio delta is forwarded exactly once iff it is present, not null,
   * non-empty and a handler is registered; the state stays and the loop
   * goes on.
   */
  lemma AudioDeltaForwardedIff(st: EventState, ev: AiEvent, hasHandler: bool)
    requires ev.kind == OutputAudioDelta
    ensures !Raises(ev)
    ensures Step(st, ev, hasHandler).0 == st
    ensures |Step(st, ev, hasHandler).1| <= 1
    ensures Step(st, ev, hasHandler).1 != [] <==> (ev.delta.KeyValue? && ev.delta.value != "" && hasHandler)
    ensures Step(st, ev, hasHandler).1 != [] ==> Step(st, ev, hasHandler).1 == [ForwardAudio(ev.delta.value)]
  {
  }

  /**
   * A text delta is appended to the transcript and a missing one appends
   * nothing; a null one raises, leaving the transcript as it was.
   */
  lemma TextDeltaAppends(st: EventState, ev: AiEvent, hasHandler: bool)
    requires ev.kind == OutputTextDelta
    ensures Raises(ev) <==> ev.delta.KeyNull?
    ensures ev.delta.KeyValue? ==> Step(st, ev, hasHandler).0 == st.(transcriptBuffer := st.transcriptBuffer + ev.delta.value)
    ensures !ev.delta.KeyValue? ==> Step(st, ev, hasHandler).0 == st
    ensures Step(st, ev, hasHandler).1 == []
  {
  }

  /**
   * response.done and response.completed end the wait; a non-empty
   * transcript is recorded once and reset, an empty one records nothing.
   * A response.done whose `response` is malformed raises in its log line
   * after ending the wait, so it records nothing and keeps the transcript.
   */
  lemma ResponseEndRecordsTranscript(st: EventState, ev: AiEvent, hasHandler: bool)
    requires ev.kind in {ResponseDone, ResponseCompleted}
    ensures Raises(ev) <==> (ev.kind == ResponseDone && ev.malformedNested)
    ensures !Raises(ev) ==>
            var (after, effects) := Step(st, ev, hasHandler);
            && !after.isWaitingResponse && after.transcriptBuffer == ""
            && after.sessionUpdated == st.sessionUpdated
            && (st.transcriptBuffer != "" <==> effects == [RecordResponse(st.transcriptBuffer)])
            && (st.transcriptBuffer == "" <==> effects == [])
    ensures Raises(ev) ==> Step(st, ev, hasHandler) == (st.(isWaitingResponse := false), [])
  {
  }

  /** response.error and error end the wait and nothing else. */
  lemma ErrorsEndWait(st: EventState, ev: AiEvent, hasHandler: bool)
    requires ev.kind in {ResponseError, Error}
    ensures !Raises(ev)
    ensures Step(st, ev, hasHandler) == (st.(isWaitingResponse := false), [])
  {
  }

  /** The frames that carry the given events. */
  function DecodedFrames(events: seq<AiEvent>): (frames: seq<AiFrame>)
    ensures |frames| == |events|
    decreases |events|
  {
    if events == [] then []
    else DecodedFrames(events[..|events| - 1]) + [Decoded(events[|events| - 1])]
  }

  /** Whether some event carries a null delta. */
  predicate HasNullDelta(events: seq<AiEvent>) {
    exists i | 0 <= i < |events| :: events[i].delta.KeyNull?
  }

  /** The text the deltas of some events add up to, up to the first null delta. */
  function DeltaText(events: seq<AiEvent>): string
    decreases |events|
  {
    if events == [] then ""
    else
      var front, last := events[..|events| - 1], events[|events| - 1];
      if HasNullDelta(front) then DeltaText(front)
      else DeltaText(front) + (if last.delta.KeyValue? then last.delta.value else "")
  }

  ghost predicate AllTextDeltas(events: seq<AiEvent>) {
    forall i | 0 <= i < |events| :: events[i].kind == OutputTextDelta
  }

  /**
   * A run of text deltas builds the transcript as the concatenation of its
   * deltas and has no effect; it ends the loop iff one delta is null, and
   * then the transcript holds the text before that one.
   */
  lemma {:induction false} TextDeltasAccumulate(st: EventState, events: seq<AiEvent>, hasHandler: bool)
    requires AllTextDeltas(events)
    ensures var p := Receive(st, DecodedFrames(events), hasHandler);
            && (p.stopped <==> HasNullDelta(events)) && p.effects == []
            && p.state == st.(transcriptBuffer := st.transcriptBuffer + DeltaText(events))
    decreases |events|
  {
    if events != [] {
      var front, last := events[..|events| - 1], events[|events| - 1];
      var frames := DecodedFrames(events);
      assert frames[..|frames| - 1] == DecodedFrames(front);
      TextDeltasAccumulate(st, front, hasHandler);
      NullDeltaSnoc(events);
      assert last.kind == OutputTextDelta;
      TextDeltaAppends(Receive(st, DecodedFrames(front), hasHandler).state, last, hasHandler);
    }
  }

  /** A null delta among some events is one among all but the last, or the last. */
  lemma NullDeltaSnoc(events: seq<AiEvent>)
    requires events != []
    ensures HasNullDelta(events)
            <==> (HasNullDelta(events[..|events| - 1]) || events[|events| - 1].delta.KeyNull?)
  {
    var front := events[..|events| - 1];
    if HasNullDelta(front) {
      var i :| 0 <= i < |front| && front[i].delta.KeyNull?;
      assert events[i] == front[i];
    }
    if HasNullDelta(events) {
      var i :| 0 <= i < |events| && events[i].delta.KeyNull?;
      if i < |front| {
        assert front[i] == events[i];
      }
    }
  }

  /** Once the loop has ended, later frames change nothing. */
  lemma {:induction false} StoppedIgnoresRest(st: EventState, frames: seq<AiFrame>, rest: seq<AiFrame>, hasHandler: bool)
    requires Receive(st, frames, hasHandler).stopped
    ensures Receive(st, frames + rest, hasHandler) == Receive(st, frames, hasHandler)
    decreases |rest|
  {
    if rest == [] {
      assert frames + rest == frames;
    } else {
      var all := frames + rest;
      assert all[..|all| - 1] == frames + rest[..|rest| - 1];
      StoppedIgnoresRest(st, frames, rest[..|rest| - 1], hasHandler);
    }
  }

  /** Undecodable frames are skipped and the loop goes on. */
  lemma UndecodableSkipped(st: EventState, frames: seq<AiFrame>, hasHandler: bool)
    ensures Receive(st, frames + [Undecodable], hasHandler) == Receive(st, frames, hasHandler)
  {
    var all := frames + [Undecodable];
    assert all[..|all| - 1] == frames;
  }

  /** A JSON value that is not an object ends the loop with the state it had reached. */
  lemma NonObjectEndsLoop(st: EventState, frames: seq<AiFrame>, rest: seq<AiFrame>, hasHandler: bool)
    requires !Receive(st, frames, hasHandler).stopped
    ensures var p := Receive(st, frames + [NotAnObject] + rest, hasHandler);
            && p.stopped
            && p.state == Receive(st, frames, hasHandler).state
            && p.effects == Receive(st, frames, hasHandler).effects
  {
    var prefix := frames + [NotAnObject];
    assert prefix[..|prefix| - 1] == frames;
    StoppedIgnoresRest(st, prefix, rest, hasHandler);
  }

  /** An event whose branch raises ends the loop with what the branch did before the raise. */
  lemma RaisingEventEndsLoop(st: EventState, frames: seq<AiFrame>, ev: AiEvent, rest: seq<AiFrame>, hasHandler: bool)
    requires !Receive(st, frames, hasHandler).stopped && Raises(ev)
    ensures var p := Receive(st, frames + [Decoded(ev)] + rest, hasHandler);
            && p.stopped
            && p.state == Step(Receive(st, frames, hasHandler).state, ev, hasHandler).0
            && p.effects == Receive(st, frames, hasHandler).effects
  {
    var prefix := frames + [Decoded(ev)];
    assert prefix[..|prefix| - 1] == frames;
    StoppedIgnoresRest(st, prefix, rest, hasHandler);
  }

  /**
   * A transcript built from text deltas is recorded, once, by the
   * response.done that follows, unless a null delta or a malformed
   * `response` on the response.done ends the loop first.
   */
  lemma DeltasThenDoneRecord(st: EventState, events: seq<AiEvent>, done: AiEvent, hasHandler: bool)
    requires st.transcriptBuffer == ""
    requires AllTextDeltas(events)
    requires done.kind == ResponseDone
    ensures var p := Receive(st, DecodedFrames(events) + [Decoded(done)], hasHandler);
            && (p.stopped <==> (HasNullDelta(events) || done.malformedNested))
            && (HasNullDelta(events) ==>
                  p.effects == [] && p.state.transcriptBuffer == DeltaText(events)
                  && p.state.isWaitingResponse == st.isWaitingResponse)
            && (!HasNullDelta(events) && done.malformedNested ==>
                  p.effects == [] && p.state.transcriptBuffer == DeltaText(events) && !p.state.isWaitingResponse)
            && (!HasNullDelta(events) && !done.malformedNested ==>
                  && p.effects == (if DeltaText(events) != "" then [RecordResponse(DeltaText(events))] else [])
                  && p.state.transcriptBuffer == "" && !p.state.isWaitingResponse)
  {
    var frames := DecodedFrames(events) + [Decoded(done)];
    assert frames[..|frames| - 1] == DecodedFrames(events);
    TextDeltasAccumulate(st, events, hasHandler);
    assert st.transcriptBuffer + DeltaText(events) == DeltaText(events);
    ResponseEndRecordsTranscript(Receive(st, DecodedFrames(events), hasHandler).state, done, hasHandler);
  }
}
