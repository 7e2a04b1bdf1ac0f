# Telephony ↔ realtime-AI voice bridge, modelled in Dafny

The program bridges a telephone call to an AI voice service. The telephony
provider opens a Media Stream WebSocket and sends JSON frames (`start`,
`media`, `stop`). The bridge registers the stream and records its audio
format. It opens a realtime session with the AI service, configured by a
system prompt built from a per-call context store. Caller audio is
transcoded to 16-bit PCM, buffered and sent to the AI in debounced batches
of at least 2400 samples. Audio deltas the AI sends back are
transcoded to 8 kHz µ-law and forwarded to the call. A finished response's
transcript is stored in the context store. When the stream ends, the
session, the socket bookkeeping and the context are torn down.

The project has six files, one module each:

- `wrappers.dfy` (`Wrappers`): `Option`, `Result`, `Outcome`, and `Key`
  (a JSON object's key: missing, null, or holding a value).
- `audio.dfy` (`Audio`): the two transcoding functions. The G.711 and
  rate-conversion primitives and base64 (RFC 4648, section 4) are fields of
  a `Codec` value. Each function is proved equal to an explicit plan of
  stages: which primitive runs, with which arguments, in which order.
- `conversation_state.dfy` (`ConversationState`): the context store as
  pure map functions, the system prompt, and the
  `ConversationStateManager` class. Each method of that class ensures its
  new `sessionContext` is the pure function of the old one.
- `realtime.dfy` (`Realtime`): the AI side as values:
  - the inbound audio buffer (`Accept`, `Flush`, `TimerFired`,
    `Teardown`) with its threshold and debounce promises;
  - the session-configuration messages;
  - the event state machine (`Step`, `Receive`) that the receive loop
    runs.
- `services.dfy` (`Services`): the classes `RealtimeSession`,
  `OpenAIVoiceClient` and `TwilioStreamHandler`. Their methods update
  fields in place and are proved against the `Realtime`,
  `ConversationState` and `Audio` functions. They keep the invariant that
  every session's buffer is `Consistent`: the pending-sample count is the
  samples its chunks hold, and a flush is scheduled only at the threshold.
  The invariant also says that no two streams share a session object, so
  a change to one stream's session leaves every other stream's buffer as
  it was.
- `voice_route.dfy` (`VoiceRoute`): the telephony WebSocket route.
  - `HandleStream` describes, as a pure function, the trace of handler
    calls the route makes for a sequence of frames.
  - `Apply` and `ApplyAll` describe what each call does to a view of the
    handler: its sockets and audio formats, every AI session's inbound
    buffer, and the context store.
  - `HandleTwilioStream` is the loop that drives the real handler. Its
    contract says the calls it makes are that trace, and that the
    handler's view afterwards is `ApplyAll` of those calls applied to the
    view before. A stream it terminates leaves nothing in the handler,
    the client or the context store.

Sockets are outboxes (`sent` sequences). A connection attempt or a socket
close that may raise is a boolean parameter, and a raised exception is a
`Fail` outcome.

Some behaviour of the code worth knowing, which the model keeps:

- `response.created` changes no session state; the dispatch only logs it.
- Closing a session does not cancel its receive task.
- The context store has four operations (build, update, pop, clear).
- The explicit response request exists but nothing calls it; it is
  modelled as an operation on its own.
- A key of a start's format object whose value is JSON null reads as
  missing (`.get` returns `None`), yet it still makes the object truthy.
  So `{"encoding": null}` is chosen as the format and applied, and the
  configure call changes nothing.
- In the AI receive loop, a branch can raise part-way. A null text delta
  makes the concatenation raise. So does a log line that reads a
  malformed nested value: `session`, `response`, `item`, `part`, or the
  `output` list of `response.done`. The broad `except` then ends the loop,
  and what the branch did before the raise stays done.

## Model

| member | source | states |
|---|---|---|
| Audio.ConvertAudioToPcm16 | app/utils/audio.py:14-43 | Undecodable base64 fails with InvalidBase64 whatever the encoding. A decodable chunk in an unsupported encoding fails with UnsupportedEncoding. Success implies a supported encoding and decodable input. |
| Audio.ConvertPcm16ToMulaw | app/utils/audio.py:46-66 | Undecodable base64 fails with InvalidBase64. Success implies the input decoded. |
| Audio.RunStagesAppend | app/utils/audio.py:22-43 | Running two stage plans one after the other is running their concatenation; the first failure stops the run. |
| Audio.InboundFollowsPlan | app/utils/audio.py:14-43 | The inbound conversion is exactly the run of its stage plan: base64 decode, G.711 expansion or pass-through, resample if needed, base64 encode. |
| Audio.OutboundFollowsPlan | app/utils/audio.py:46-66 | The outbound conversion is exactly the run of its stage plan: decode, resample if needed, µ-law encode, base64 encode. |
| Audio.UnsupportedEncodingRejected | app/utils/audio.py:24-31 | An encoding outside the four supported ones gives the plan decode-then-reject, and the conversion fails. |
| Audio.InboundResamplesIffRatesDiffer | app/utils/audio.py:33-41 | For a supported encoding, the inbound plan resamples if and only if the source and target rates differ. Every resample uses width 2, one channel, and source to target rate. |
| Audio.OutboundResamplesIffRatesDiffer | app/utils/audio.py:55-63 | The outbound plan resamples if and only if the rates differ, with width 2, one channel, and source to target rate. |
| Audio.InboundDecodesG711 | app/utils/audio.py:22-29 | µ-law is expanded exactly when the encoding is µ-law, and A-law exactly when it is A-law. Raw and L16 input is not expanded. Base64 decoding comes first. |
| Audio.OutboundEncodesLast | app/utils/audio.py:53-66 | The outbound plan decodes first, then µ-law encodes and base64 encodes last. Any resample comes before the µ-law step. |
| Audio.RawPassthrough | app/utils/audio.py:28-29 | Raw or L16 audio at equal rates converts successfully and decodes back to the same bytes. |
| Realtime.Settings | app/services/openai_voice_client.py:258-279 | The session update carries the system prompt as instructions, PCM16 in both directions, and text plus audio modalities. |
| Realtime.ConfigureSendsSettingsThenRule | app/services/openai_voice_client.py:249-318 | Configuring sends exactly two messages: the settings update carrying the prompt, then the Korean-only system message. It sends no audio and no response request. |
| Realtime.AppendMessagesSpec | app/services/openai_voice_client.py:91-98 | A flush sends one append message per buffered chunk, in buffer order, each carrying its chunk. |
| Realtime.AppendMessagesConcat | app/services/openai_voice_client.py:91-98 | The append messages of two buffers in sequence are the append messages of each, concatenated. |
| Realtime.SumSamplesEmptyOnly | app/services/openai_voice_client.py:181-185 | No chunks means no pending samples, so reaching the threshold implies a non-empty buffer. |
| Realtime.AcceptPreservesConsistent | app/services/openai_voice_client.py:166-199 | Accepting a chunk keeps the buffer's invariant: the pending count equals the samples the chunks hold, and a flush is scheduled only at the threshold. |
| Realtime.UndecodableChunkIgnored | app/services/openai_voice_client.py:174-178 | A chunk that is not base64 leaves the buffer unchanged. |
| Realtime.AcceptAppends | app/services/openai_voice_client.py:181-182 | A decodable chunk is appended to the buffer and adds half its byte length to the pending samples. |
| Realtime.BelowThresholdNeverSchedules | app/services/openai_voice_client.py:185-191 | While the total stays below 2400 samples, no sequence of chunks schedules a flush. The pending count is the running sum. |
| Realtime.CrossingSchedules | app/services/openai_voice_client.py:185-191 | A decodable chunk that brings the total to 2400 or more schedules a flush. |
| Realtime.FlushNoOp | app/services/openai_voice_client.py:62-71 | Below the threshold or with an empty buffer, a flush sends nothing and changes nothing. |
| Realtime.FlushSendsAll | app/services/openai_voice_client.py:59-121 | At the threshold with a non-empty buffer, a flush sends every chunk in order and empties the buffer. |
| Realtime.ScheduledFlushSends | app/services/openai_voice_client.py:123-133 | When a scheduled flush fires on a consistent buffer, it sends all buffered chunks and leaves the empty buffer. |
| Realtime.TimerPreservesConsistent | app/services/openai_voice_client.py:123-133 | The timer firing keeps the invariant and leaves no flush scheduled. |
| Realtime.TeardownEmpties | app/services/openai_voice_client.py:205-246 | Teardown sends a final flush only at the threshold with a non-empty buffer, and always leaves the empty buffer. |
| Realtime.TeardownTwice | app/services/openai_voice_client.py:205-246 | Tearing down twice sends nothing more the second time. |
| Realtime.DebounceScenario | app/services/openai_voice_client.py:166-199 | Worked case: chunks of 1000, 1000 and 600 samples schedule a flush only on the third. When the timer fires, the three chunks are sent in order. |
| Realtime.ParseEvent | app/services/openai_voice_client.py:382-516 | A parsed event keeps its delta and its nested-value flag. Its kind is unlisted exactly when the type is missing or outside the fifteen listed strings, and an unlisted kind keeps the type. A listed kind's type is that kind's `TypeName`. |
| Realtime.SessionUpdatedSetsFlag | app/services/openai_voice_client.py:396-404 | `session.updated` sets the acknowledgement flag and has no effect. It raises exactly when its `session` value is malformed; the flag is set before that. |
| Realtime.OtherEventsChangeNothing | app/services/openai_voice_client.py:390-469 | Events the dispatch only logs change no state and have no effect. They raise exactly when they are `response.created`, `response.output_item.added` or `response.content_part.added` with a malformed nested value. |
| Realtime.AudioDeltaForwardedIff | app/services/openai_voice_client.py:424-444 | An audio delta never raises and changes no state. It is forwarded, once, exactly when the delta is present, not null and non-empty, and a telephony handler is registered. |
| Realtime.TextDeltaAppends | app/services/openai_voice_client.py:470-472 | A string text delta is appended to the transcript. A missing one appends nothing. A null one raises and leaves the transcript as it was. None has an effect. |
| Realtime.ResponseEndRecordsTranscript | app/services/openai_voice_client.py:473-502 | `response.done` and `response.completed` end the wait and clear the transcript. They record it exactly when it is non-empty, and keep the acknowledgement flag. A `response.done` with a malformed `response` raises after ending the wait: it records nothing and keeps the transcript. No other case raises. |
| Realtime.ErrorsEndWait | app/services/openai_voice_client.py:503-516 | `response.error` and `error` only end the wait, and never raise. |
| Realtime.DecodedFrames | app/services/openai_voice_client.py:372-389 | One received frame per event. |
| Realtime.Classify | app/services/openai_voice_client.py:390-516 | A type string selects a listed kind exactly when it is one of the fifteen strings the dispatch branches on, and that kind's `TypeName` is the string. Anything else, a missing type included, is unlisted and keeps the type. |
| Realtime.ClassifyTypeName | app/services/openai_voice_client.py:390-516 | Each listed kind's `TypeName` is one of the listed strings, and classifying it gives that kind back. |
| Realtime.TextDeltasAccumulate | app/services/openai_voice_client.py:470-521 | A run of text deltas has no effect. The transcript becomes the concatenation of their texts up to the first null delta. The loop stops exactly when some delta is null. |
| Realtime.StoppedIgnoresRest | app/services/openai_voice_client.py:364-521 | Once the receive loop has stopped, later frames change nothing. |
| Realtime.UndecodableSkipped | app/services/openai_voice_client.py:376-380 | A frame that is not JSON is skipped. |
| Realtime.NonObjectEndsLoop | app/services/openai_voice_client.py:382-521 | A JSON value that is not an object stops the loop and keeps the state and effects so far. |
| Realtime.RaisingEventEndsLoop | app/services/openai_voice_client.py:390-521 | An event whose branch raises stops the loop, whatever frames follow. The state is what that branch did before the raise, and no effects are added. |
| Realtime.DeltasThenDoneRecord | app/services/openai_voice_client.py:470-521 | From an empty transcript: text deltas then a well-formed `response.done` record their concatenation once (nothing if it is empty), reset the transcript and end the wait. A null delta stops the loop first: nothing is recorded and the wait stays. A malformed `response` ends the wait and stops the loop without recording. The loop stops exactly in these two cases. |
| ConversationState.TrimEndShape | app/services/conversation_state.py:29 | Right-trimming removes exactly a whitespace suffix. The result does not end in whitespace. |
| ConversationState.TrimStartShape | app/services/conversation_state.py:29 | Left-trimming removes exactly a whitespace prefix. The result does not start with whitespace. |
| ConversationState.TrimEndAllSpace | app/services/conversation_state.py:29 | An all-whitespace string right-trims to empty. |
| ConversationState.TrimEndAfter | app/services/conversation_state.py:29 | Right-trimming text after a non-space character only trims the tail. |
| ConversationState.BasePromptStart | app/services/conversation_state.py:16-27 | The base prompt starts with a non-space character. |
| ConversationState.BasePromptEnd | app/services/conversation_state.py:16-27 | The base prompt ends with a non-space character. |
| ConversationState.StripAfter | app/services/conversation_state.py:29 | Stripping text that starts and ends with non-space characters, followed by any tail, keeps that text whole and right-trims the tail. |
| ConversationState.StripAfterBase | app/services/conversation_state.py:28-29 | Stripping the base prompt followed by anything keeps the base prompt whole and right-trims the tail. |
| ConversationState.TrimEndNewlineContext | app/services/conversation_state.py:28-29 | The newline before the context survives stripping exactly when the context is not all whitespace. |
| ConversationState.SystemPromptShape | app/services/conversation_state.py:12-29 | The prompt is the base prompt alone when the context is missing or blank. Otherwise it is the base prompt, a newline, and the right-trimmed context. |
| ConversationState.PromptShape | app/services/conversation_state.py:28-29 | For any base text that starts and ends with non-space characters, stripping base, newline and context gives the base alone when the context is blank, and otherwise the base, a newline and the right-trimmed context. |
| ConversationState.PromptWithoutContext | app/services/conversation_state.py:12-29 | Without a context entry the prompt is the base prompt. |
| ConversationState.PromptIgnoresOtherKeys | app/services/conversation_state.py:12-29 | Setting or removing any key other than `context` does not change the prompt. |
| ConversationState.WithEntry | app/services/conversation_state.py:15 | The stream gains an entry (empty if new), and every other entry is unchanged. |
| ConversationState.Updated | app/services/conversation_state.py:31-35 | The key is set to the value under the stream. Other keys and other streams are unchanged, and the stream entry is created if missing. |
| ConversationState.Popped | app/services/conversation_state.py:37-41 | Returns the stored value or the default, removes the key, creates the stream's entry if missing, and leaves other streams unchanged. |
| ConversationState.Cleared | app/services/conversation_state.py:43-46 | The stream's entry is gone, and every other entry is unchanged. Clearing an absent stream changes nothing. |
| ConversationState.PopAfterUpdate | app/services/conversation_state.py:31-41 | Popping a key just set returns that value, and the store ends as if it had been popped without the update. |
| ConversationState.PopMissingKey | app/services/conversation_state.py:37-41 | Popping a missing key returns the default and only creates the stream's entry. |
| ConversationState.ConversationStateManager.constructor | app/services/conversation_state.py:9-10 | The store starts empty. |
| ConversationState.ConversationStateManager.BuildSystemPrompt | app/services/conversation_state.py:12-29 | Creates the stream's entry and returns the prompt built from its previous data. |
| ConversationState.ConversationStateManager.UpdateContext | app/services/conversation_state.py:31-35 | The new store is `Updated` of the old one. |
| ConversationState.ConversationStateManager.PopContext | app/services/conversation_state.py:37-41 | The returned value and the new store are `Popped` of the old one. |
| ConversationState.ConversationStateManager.Clear | app/services/conversation_state.py:43-46 | The new store is `Cleared` of the old one. |
| Services.Reconfigured | app/services/twilio_stream_handler.py:50-53 | Only a non-empty encoding and a non-zero sample rate overwrite the stored format. |
| Services.ReconfiguredStable | app/services/twilio_stream_handler.py:42-53 | Missing or falsy values change nothing, and reconfiguring twice with the same values is reconfiguring once. |
| Services.InboundChunk | app/services/twilio_stream_handler.py:61-88 | Nothing is forwarded for an unregistered stream or an unsupported encoding. A chunk is forwarded exactly when the stream is known and its conversion to 16 kHz PCM succeeds, and the chunk forwarded is that conversion's result, from the stream's stored encoding and rate. |
| Services.ForwardRawUnchanged | app/services/twilio_stream_handler.py:61-88 | A raw or L16 stream at 16 kHz forwards the caller's bytes unchanged. |
| Services.MediaFrames | app/services/twilio_stream_handler.py:90-123 | At most one frame is sent. It is sent exactly when the socket is registered and the 24 kHz to 8 kHz µ-law conversion succeeds. It is a `media` frame for that stream on that socket, carrying the converted payload. |
| Services.MediaFramePayloadFollowsPlan | app/services/twilio_stream_handler.py:100-105 | The sent payload is the outbound plan run at 24 kHz to 8 kHz, and that plan resamples. |
| Services.ForwardedFramesAppend | app/services/openai_voice_client.py:424-444 | The telephony frames for two effect runs in sequence are the concatenation of each run's frames. |
| Services.RecordedAppend | app/services/openai_voice_client.py:473-502 | Recording two effect runs in sequence is recording one after the other. |
| Services.RecordedKeepsOtherStreams | app/services/openai_voice_client.py:473-502 | Recording transcripts for one stream leaves every other stream's context unchanged. |
| Services.RealtimeSession.constructor | app/services/openai_voice_client.py:30-41 | A new session has an empty buffer, no flush scheduled, no wait, an empty transcript, no acknowledgement, nothing sent, and an open socket. |
| Services.OpenAIVoiceClient.constructor | app/services/openai_voice_client.py:47-52 | No sessions, no telephony handler, and the invariant holds. |
| Services.OpenAIVoiceClient.RegisterTwilioHandler | app/services/openai_voice_client.py:54-57 | The handler is stored. |
| Services.OpenAIVoiceClient.FlushAudioBuffer | app/services/openai_voice_client.py:59-121 | The session's buffer and outbox become exactly what `Flush` gives. |
| Services.OpenAIVoiceClient.DebouncedFlush | app/services/openai_voice_client.py:123-133 | When a scheduled flush fires, it sends every buffered chunk, leaves the empty buffer with no flush scheduled, and keeps the invariant. |
| Services.OpenAIVoiceClient.SendAudioChunk | app/services/openai_voice_client.py:166-199 | Keeps the invariant. A known stream's buffer becomes `Accept` of the old buffer and the chunk, and no other stream's buffer changes. An unknown stream changes nothing. |
| Services.OpenAIVoiceClient.ConfigureSession | app/services/openai_voice_client.py:249-318 | The session sends exactly the two configuration messages for the prompt. |
| Services.OpenAIVoiceClient.CreateSession | app/services/openai_voice_client.py:135-164 | The prompt's stream entry is created either way. It succeeds exactly when connecting succeeds. On success, a fresh session is stored for the stream (other sessions unchanged) with an empty buffer and initial event state, and it has sent exactly the configuration for the prompt built from the old context. The buffer map gains the empty buffer for the stream on success and is unchanged on failure. |
| Services.OpenAIVoiceClient.OpenSession | app/services/openai_voice_client.py:145-159 | A fresh session is stored for the stream, other sessions unchanged. It has an empty buffer and initial event state, its socket is open, and it has sent exactly the configuration for the prompt. The invariant holds. |
| Services.OpenAIVoiceClient.RequestResponse | app/services/openai_voice_client.py:320-336 | Sends one response request with the Korean instructions and sets the wait flag. |
| Services.OpenAIVoiceClient.TeardownBuffer | app/services/openai_voice_client.py:207-246 | The buffer becomes `Teardown` of the old one (empty), the outbox gains exactly the final flush, and the invariant holds. |
| Services.OpenAIVoiceClient.CloseSession | app/services/openai_voice_client.py:201-247 | The stream's session is removed and torn down: final flush by `Teardown`, empty buffer, socket closed when closing succeeds. The outcome fails exactly when the close raises. An unknown stream passes. The buffer map loses the stream and is otherwise unchanged. |
| Services.OpenAIVoiceClient.FinishResponse | app/services/openai_voice_client.py:473-502 | The event state and effects are `Finish` of the old state. The acknowledgement flag is kept. The store records the transcript. |
| Services.OpenAIVoiceClient.ForwardAudioDelta | app/services/openai_voice_client.py:424-444 | The audio branch matches `Step` and records nothing. The telephony outbox gains exactly the media frames of the forwarded delta. |
| Services.OpenAIVoiceClient.HandleEvent | app/services/openai_voice_client.py:390-516 | The session's event state and the effects are `Step` of the old state. Recorded transcripts reach the store, and forwarded audio reaches the telephony outbox as its media frames. A null text delta leaves the transcript, and a `response.done` with a malformed `response` only ends the wait. |
| Services.OpenAIVoiceClient.ReceiveAndForward | app/services/openai_voice_client.py:364-521 | An unknown stream has no effect. Otherwise the session's event state and the effects are `Receive` over the frames, and the store and the telephony outbox receive exactly those effects. |
| Services.OpenAIVoiceClient.ReceiveFrames | app/services/openai_voice_client.py:372-521 | The loop over received frames yields `Receive` of the old state, and delivers its effects to the store and the telephony outbox. A frame that is not an object, or an event whose branch raises, ends the loop. |
| Services.OpenAIVoiceClient.DispatchDecoded | app/services/openai_voice_client.py:390-516 | One decoded frame: the session's events advance by `Step`, and its effects are appended to the loop's so far. The store and the telephony outbox stay in step with all effects so far. |
| Services.TwilioStreamHandler.constructor | app/services/twilio_stream_handler.py:20-30 | No connections, no audio formats, nothing sent; the handler's invariant holds. |
| Services.TwilioStreamHandler.RegisterStream | app/services/twilio_stream_handler.py:32-40 | Stores the socket and the default 8 kHz µ-law format for the stream. The AI buffers are unchanged. |
| Services.TwilioStreamHandler.ConfigureStreamAudio | app/services/twilio_stream_handler.py:42-53 | An unknown stream is left alone. A known stream's format becomes `Reconfigured` of the old one. The AI buffers are unchanged. |
| Services.TwilioStreamHandler.StartSession | app/services/twilio_stream_handler.py:55-59 | Creates the AI session: the context entry is created, and it succeeds iff connecting succeeds. On success a fresh session is stored and the buffer map gains an empty buffer for the stream; on failure the buffer map is unchanged. The new session has the initial event state and an open socket, and has been sent exactly the configure messages for the prompt built from the stream's context. |
| Services.TwilioStreamHandler.ForwardMediaChunk | app/services/twilio_stream_handler.py:61-88 | Keeps the invariant. When the stream has a session and `InboundChunk` yields a chunk, that stream's buffer becomes `Accept` of it. Otherwise, and for every other stream, the buffer map is unchanged. |
| Services.TwilioStreamHandler.SendAudioToTwilio | app/services/twilio_stream_handler.py:90-123 | The outbox gains exactly the media frames for the payload. |
| Services.TwilioStreamHandler.TerminateSession | app/services/twilio_stream_handler.py:125-134 | The AI session is closed and torn down, and its socket is marked closed exactly when it was already closed or the close succeeds. The socket, the audio format, the AI buffer and the context of the stream are removed whether or not closing raises. The outcome fails exactly when an existing session's close raises. |
| Services.TwilioStreamHandler.ForgetStream | app/services/twilio_stream_handler.py:131-134 | The stream's socket and audio format are removed and its context is `Cleared`. The AI buffers are unchanged and the invariant holds. |
| VoiceRoute.ClassifyTelephonyEvent | app/routes/voice.py:112-158 | `start`, `media` and `stop` are recognised, each if and only if the event is that string. |
| VoiceRoute.ChooseFormat | app/routes/voice.py:121-122 | A truthy `mediaFormat` is chosen, else a truthy `media_format`. A chosen object is applied, and a chosen value that is not an object raises. No format is used exactly when both are falsy. |
| VoiceRoute.SampleRateOf | app/routes/voice.py:128-135 | `sampleRate` when non-zero, else `sample_rate`. |
| VoiceRoute.LoopNeverTerminates | app/routes/voice.py:89-159 | The receive loop itself never terminates a stream. |
| VoiceRoute.TerminatesOnceAtEnd | app/routes/voice.py:163-165 | The route terminates at most once, as its last call, and only the stream it last saw. It terminates exactly when that stream id is non-empty. |
| VoiceRoute.StepCalls | app/routes/voice.py:114-152 | A frame that names a new stream registers it first, and all its calls concern that stream. Any other call concerns the current stream. |
| VoiceRoute.LoopRegisteredFirst | app/routes/voice.py:89-159 | During the loop, every call names a stream registered earlier, and the current stream has been registered. |
| VoiceRoute.CallsFollowRegistration | app/routes/voice.py:86-165 | In the whole route's trace, every configure, start, forward and terminate follows the stream's registration. |
| VoiceRoute.StartOrder | app/routes/voice.py:114-137 | A start with a format registers, then configures with that format's encoding and rate, then starts the session, recording whether it connected. The loop ends if the start raises. |
| VoiceRoute.StartWithoutSid | app/routes/voice.py:115-118 | A start without a stream id makes no call, does not end the loop, and forgets the current stream. |
| VoiceRoute.MediaForwardedIff | app/routes/voice.py:140-152 | A media frame forwards its payload exactly when there is a current stream and a non-empty payload. |
| VoiceRoute.SkippedFrames | app/routes/voice.py:99-159 | Empty text, non-JSON text and unknown events are skipped. |
| VoiceRoute.EndedIgnoresRest | app/routes/voice.py:89-159 | After the loop has ended, later frames make no difference. |
| VoiceRoute.StopEndsLoop | app/routes/voice.py:89-161 | A disconnect, a failed receive, a non-object payload or a `stop` ends the loop and keeps everything so far. |
| VoiceRoute.FailedStartTerminates | app/routes/voice.py:114-165 | When the AI connection fails on start, the route registers, starts (unconnected), and then terminates the stream. |
| VoiceRoute.SecondStartWithoutSidSkipsTermination | app/routes/voice.py:114-165 | A second start without a stream id forgets the first stream, which is then never terminated. |
| VoiceRoute.NullKeyFormatApplied | app/routes/voice.py:121-135 | A format object holding only a null `encoding` is still truthy: the route registers, configures with no encoding and no rate, and starts. An empty format object is falsy and is only registered and started. Configuring with no values leaves any format unchanged. |
| VoiceRoute.ApplyAllAppend | app/routes/voice.py:89-165 | Applying two traces in sequence is applying their concatenation. |
| VoiceRoute.UntouchedStreamKept | app/services/twilio_stream_handler.py:32-134 | A stream that no call of a trace names keeps its socket, audio format, AI buffer and context entry. |
| VoiceRoute.RouteLeavesNothing | app/routes/voice.py:161-165 | After the whole trace, the stream the loop last remembered, when non-empty, has no socket, format, buffer or context entry left, whatever the handler held before. |
| VoiceRoute.HandleStart | app/routes/voice.py:114-137 | Makes exactly the calls `StartStep` describes and keeps the handler's invariant. The handler's view afterwards is `ApplyAll` of those calls applied to the view before. |
| VoiceRoute.ConfigureAndStart | app/routes/voice.py:121-137 | A registered start makes exactly the calls `FormatAndStart` gives: the chosen format is applied (a non-object one raises and stops here), then the session is started. The loop ends exactly when the format raises or starting fails. The view afterwards is `ApplyAll` of those calls. |
| VoiceRoute.StartRecorded | app/routes/voice.py:136 | Starts the AI session, which fails exactly when connecting fails. Keeps the invariant, and the view follows the calls so far with the `StartSession` call appended. |
| VoiceRoute.HandleMedia | app/routes/voice.py:140-152 | Makes exactly the calls `MediaStep` describes, and keeps the invariant. The handler's view afterwards is `ApplyAll` of those calls applied to the view before. |
| VoiceRoute.HandleFrame | app/routes/voice.py:90-159 | Makes exactly the calls `FrameStep` describes for one frame and keeps the invariant. The handler's view afterwards is `ApplyAll` of those calls applied to the view before. |
| VoiceRoute.HandleTwilioStream | app/routes/voice.py:77-165 | The calls made are exactly `HandleStream` of the frames, and the handler's view afterwards is `ApplyAll` of them applied to the view before. A stream it terminates is afterwards absent from the connections, the audio formats, the AI sessions and the context store. The outcome passes exactly when closing succeeds, there is no stream to terminate, or the stream has no AI session at that point. |
| VoiceRoute.ReceiveLoop | app/routes/voice.py:89-159 | The loop ends with the stream id and the calls `RunFrames` gives, keeps the invariant, and leaves the handler in the view `ApplyAll` of those calls gives. |
| VoiceRoute.LoopStep | app/routes/voice.py:90-159 | One pass advances the loop state to `RunFrames` of one more frame, and the handler's view follows the new calls. |
| VoiceRoute.TerminateRemembered | app/routes/voice.py:161-165 | A non-empty remembered id is terminated, and nothing happens without one. The outcome fails exactly when a session existed and its close raised. Afterwards the stream is absent everywhere. |

## Left out

- Sockets, HTTP and JSON encoding are left out: messages are values appended to outboxes, and received frames arrive already classified.
- Send failures on any socket (`send`, `send_json`) are not modelled; every send succeeds.
- Timing is not modelled, and there is no concurrency. This covers the debounce and settle sleeps, `last_commit_request`, and scheduling of the receive and commit tasks. The debounced flush is an explicit `DebouncedFlush` or `TimerFired` step.
- The commit-task race is left out: a cancelled task's `finally` could clear the reference to a newer task. The model keeps one `commitScheduled` flag.
- The receive task that `create_session` starts is modelled as a separate `ReceiveAndForward` call.
- Logging and the debug `print` are left out.
- The acknowledgement wait loop is left out, and so is `_connect_websocket_direct`; a connection attempt is a boolean parameter.
- The incoming-call webhook, the settings module and the application entry point are not part of this model.
- The VAD threshold is a `real` in the session settings and is never computed with. The 0.15 s debounce interval is not modelled, since time is not.
- JSON null is modelled (as `Key`) where the code tells it apart from a missing key. These are the keys of a start's format object and the `delta` of an AI event. `.get(key)` gives `None` for both. `.get(key, default)` gives the default only for a missing key, so a null text delta stays `None` and the concatenation raises. The other string fields (`streamSid`, `payload`, `type`) are read with `.get(key)`, so a null one reads as a missing one. A null `mediaFormat` is falsy like a missing one. A null `start` or `media` field raises on its `.get`, like any other value that is not an object.
- A nested value that a log line reads (`session`, `response`, `item`, `part`, and the `output` list) is modelled only as well-formed or malformed (`malformedNested`); what it holds is not. Values of the wrong JSON type elsewhere (a number for `encoding` or `delta`, say) are not modelled.
- The telephony `websocket.close()` in the route's `finally` is left out; it has no observable effect on the modelled state.
- The end of the frame sequence is treated as a disconnect.
- Realtime.DecodedFrames: states only the frame count; it is a helper that builds frames from events.
- Services.OpenAIVoiceClient.SendAudioChunk: the frame says nothing else changes, so the ensures does not restate that the outbox and the event state are untouched.
