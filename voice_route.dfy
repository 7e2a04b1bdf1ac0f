/**
 * The telephony Media Stream WebSocket route: it reads text frames until
 * the socket closes, a `stop` event arrives or something raises, drives
 * the stream handler (register, configure, start, forward) and, on the way
 * out, terminates the stream it last saw.
 *
 * A received frame is already classified: the socket closed, receiving
 * raised, an empty text, text that is not JSON, or a decoded JSON value.
 * A decoded object carries its `event` (classified once by
 * ClassifyTelephonyEvent) and the shapes of its `start` and `media`
 * fields. The handler calls the route makes are recorded, in order, as
 * RouteCall values; HandleStream is the pure description of that trace and
 * HandleTwilioStream the loop that drives the real handler.
 */
module VoiceRoute {
  import opened Wrappers
  import Audio
  import Realtime
  import ConversationState
  import Services

  // -------------------------------------------------------------------
  // Frames
  // -------------------------------------------------------------------

  /** The `event` of a telephony message. */
  datatype TelephonyEvent = StartEvent | MediaEvent | StopEvent | OtherEvent

  function ClassifyTelephonyEvent(event: Option<string>): (k: TelephonyEvent)
    ensures k == StartEvent <==> event == Some("start")
    ensures k == MediaEvent <==> event == Some("media")
    ensures k == StopEvent <==> event == Some("stop")
  {
    if event == Some("start") then StartEvent
    else if event == Some("media") then MediaEvent
    else if event == Some("stop") then StopEvent
    else OtherEvent
  }

  /** A `mediaFormat` object: its three recognised keys, and whether it holds any other key. */
  datatype Format = Format(encoding: Key<string>, sampleRate: Key<int>, sample_rate: Key<int>, otherKeys: bool)

  /** A format field: missing or null, an object, or any other JSON value (with its truthiness). */
  datatype FormatField = FormatMissing | FormatObject(format: Format) | FormatOther(truthy: bool)

  /** The `start` field: missing, an object, or any other value (null included). */
  datatype StartField =
    | StartMissing
    | StartObject(streamSid: Option<string>, mediaFormat: FormatField, media_format: FormatField)
    | StartOther

  /** The `media` field: missing, an object with its `payload`, or any other value. */
  datatype MediaField = MediaMissing | MediaObject(payload: Option<string>) | MediaOther

  /** A decoded JSON value: an object, or anything else (whose `.get` raises). */
  datatype Message = NotAnObject | Message(event: TelephonyEvent, start: StartField, media: MediaField)

  datatype Frame = Disconnect | ReceiveFailed | EmptyText | Undecodable | Decoded(message: Message)

  /** The handler calls the route makes. */
  datatype RouteCall =
    | Register(sid: string)
    | Configure(sid: string, encoding: Option<string>, sampleRate: Option<int>)
    | StartSession(sid: string, connected: bool)
    | Forward(sid: string, payload: string)
    | Terminate(sid: string)

  // -------------------------------------------------------------------
  // One frame
  // -------------------------------------------------------------------

  /** Python truthiness of a decoded format object: a non-empty dict, whatever its values. */
  predicate FormatTruthy(f: FormatField) {
    match f
    case FormatMissing => false
    case FormatObject(fmt) =>
      fmt.otherKeys || !fmt.encoding.KeyMissing? || !fmt.sampleRate.KeyMissing? || !fmt.sample_rate.KeyMissing?
    case FormatOther(truthy) => truthy
  }

  /** What `mediaFormat or media_format` leads to: nothing, a format to apply, or a raise. */
  datatype FormatChoice = NoFormat | UseFormat(format: Format) | FormatCrash

  function ChooseFormat(mediaFormat: FormatField, media_format: FormatField): (r: FormatChoice)
    ensures FormatTruthy(mediaFormat) ==>
              r == if mediaFormat.FormatObject? then UseFormat(mediaFormat.format) else FormatCrash
    ensures !FormatTruthy(mediaFormat) && FormatTruthy(media_format) ==>
              r == if media_format.FormatObject? then UseFormat(media_format.format) else FormatCrash
    ensures r == NoFormat <==> !FormatTruthy(mediaFormat) && !FormatTruthy(media_format)
  {
    var chosen := if FormatTruthy(mediaFormat) then mediaFormat else media_format;
    if !FormatTruthy(chosen) then NoFormat
    else match chosen
         case FormatObject(fmt) => UseFormat(fmt)
         case _ => FormatCrash
  }

  /** `sampleRate or sample_rate`. */
  function SampleRateOf(f: Format): (r: Option<int>)
    ensures Services.GivenNumber(f.sampleRate.Get()) ==> r == f.sampleRate.Get()
    ensures !Services.GivenNumber(f.sampleRate.Get()) ==> r == f.sample_rate.Get()
  {
    if Services.GivenNumber(f.sampleRate.Get()) then f.sampleRate.Get() else f.sample_rate.Get()
  }

  /** The effect of one frame on the remembered stream id. */
  datatype StepResult = StepResult(sid: Option<string>, calls: seq<RouteCall>, started: bool, ended: bool)

  /**
   * A `start` event. The remembered id is overwritten by whatever the
   * event carries, even nothing; without a (non-empty) id the event is
   * skipped. Otherwise the stream is registered, the chosen format applied,
   * and the AI session started, whose failed connection ends the loop.
   */
  function StartStep(sid: Option<string>, start: StartField, connectOk: bool): StepResult {
    match start
    case StartOther => StepResult(sid, [], false, true)
    case StartMissing => StepResult(None, [], false, false)
    case StartObject(streamSid, mediaFormat, media_format) =>
      if !Services.GivenText(streamSid) then StepResult(streamSid, [], false, false)
      else
        var choice := ChooseFormat(mediaFormat, media_format);
        StepResult(streamSid, [Register(streamSid.value)] + FormatAndStart(streamSid.value, choice, connectOk),
                   !choice.FormatCrash?, choice.FormatCrash? || !connectOk)
  }

  /** The calls after a start's registration: the chosen format (a raise stops here), then the session start. */
  function FormatAndStart(s: string, choice: FormatChoice, connectOk: bool): seq<RouteCall> {
    match choice
    case FormatCrash => []
    case NoFormat => [StartSession(s, connectOk)]
    case UseFormat(fmt) => [Configure(s, fmt.encoding.Get(), SampleRateOf(fmt)), StartSession(s, connectOk)]
  }

  /** A `media` event: forwarded only when both the stream id and the payload are non-empty. */
  function MediaStep(sid: Option<string>, media: MediaField): StepResult {
    match media
    case MediaOther => StepResult(sid, [], false, true)
    case MediaMissing => StepResult(sid, [], false, false)
    case MediaObject(payload) =>
      if Services.GivenText(sid) && Services.GivenText(payload) then
        StepResult(sid, [Forward(sid.value, payload.value)], false, false)
      else StepResult(sid, [], false, false)
  }

  function FrameStep(sid: Option<string>, frame: Frame, connectOk: bool): StepResult {
    match frame
    case Disconnect => StepResult(sid, [], false, true)
    case ReceiveFailed => StepResult(sid, [], false, true)
    case EmptyText => StepResult(sid, [], false, false)
    case Undecodable => StepResult(sid, [], false, false)
    case Decoded(NotAnObject) => StepResult(sid, [], false, true)
    case Decoded(Message(event, start, media)) =>
      match event
      case StartEvent => StartStep(sid, start, connectOk)
      case MediaEvent => MediaStep(sid, media)
      case StopEvent => StepResult(sid, [], false, true)
      case OtherEvent => StepResult(sid, [], false, false)
  }

  // -------------------------------------------------------------------
  // The whole stream
  // -------------------------------------------------------------------

  /** The loop's state: the remembered id, the calls so far, the sessions started, and whether it ended. */
  datatype Route = Route(sid: Option<string>, calls: seq<RouteCall>, starts: nat, ended: bool)

  /** The outcome of the k-th connection attempt; attempts beyond the given ones succeed. */
  function ConnectResult(connects: seq<bool>, k: nat): bool {
    if k < |connects| then connects[k] else true
  }

  function Advance(p: Route, frame: Frame, connects: seq<bool>): Route {
    var res := FrameStep(p.sid, frame, ConnectResult(connects, p.starts));
    Route(res.sid, p.calls + res.calls, p.starts + (if res.started then 1 else 0), res.ended)
  }

  /** The receive loop over the frames delivered so far. */
  function RunFrames(frames: seq<Frame>, connects: seq<bool>): Route
    decreases |frames|
  {
    if frames == [] then Route(None, [], 0, false)
    else
      var p := RunFrames(frames[..|frames| - 1], connects);
      if p.ended then p else Advance(p, frames[|frames| - 1], connects)
  }

  /** The calls of the whole route: the loop's, then the `finally` that terminates a remembered stream. */
  function HandleStream(frames: seq<Frame>, connects: seq<bool>): seq<RouteCall> {
    var p := RunFrames(frames, connects);
    p.calls + (if Services.GivenText(p.sid) then [Terminate(p.sid.value)] else [])
  }

  function CallSid(call: RouteCall): string {
    call.sid
  }

  /** Every call after the first names a stream registered earlier in the trace. */
  ghost predicate RegisteredFirst(calls: seq<RouteCall>) {
    forall i | 0 <= i < |calls| && !calls[i].Register? :: Register(CallSid(calls[i])) in calls[..i]
  }

  predicate NoTerminate(calls: seq<RouteCall>) {
    forall i | 0 <= i < |calls| :: !calls[i].Terminate?
  }

  // -------------------------------------------------------------------
  // Properties
  // -------------------------------------------------------------------

  /** The loop itself never terminates a stream; only the `finally` does. */
  lemma {:induction false} LoopNeverTerminates(frames: seq<Frame>, connects: seq<bool>)
    ensures NoTerminate(RunFrames(frames, connects).calls)
    decreases |frames|
  {
    if frames != [] {
      LoopNeverTerminates(frames[..|frames| - 1], connects);
    }
  }

  /**
   * Exactly one termination happens when the loop ends remembering a
   * non-empty id, none otherwise, and it is the last call.
   */
  lemma TerminatesOnceAtEnd(frames: seq<Frame>, connects: seq<bool>)
    ensures var p := RunFrames(frames, connects);
            var calls := HandleStream(frames, connects);
            && ((exists i :: 0 <= i < |calls| && calls[i].Terminate?) <==> Services.GivenText(p.sid))
            && (forall i | 0 <= i < |calls| && calls[i].Terminate? :: i == |calls| - 1 && calls[i] == Terminate(p.sid.value))
  {
    LoopNeverTerminates(frames, connects);
    var p := RunFrames(frames, connects);
    var calls := HandleStream(frames, connects);
    if Services.GivenText(p.sid) {
      assert calls[|calls| - 1].Terminate?;
    } else {
      assert calls == p.calls;
    }
  }

  /**
   * The calls of one frame: a start's calls all name the new id and begin
   * with its registration; a forward names the remembered id; a newly
   * remembered non-empty id comes with its registration.
   */
  lemma StepCalls(sid: Option<string>, frame: Frame, connectOk: bool)
    ensures var res := FrameStep(sid, frame, connectOk);
            && (Services.GivenText(res.sid) && res.sid != sid ==> res.calls != [] && res.calls[0] == Register(res.sid.value))
            && (res.calls != [] && res.calls[0].Register? ==>
                  Services.GivenText(res.sid)
                  && forall j | 0 <= j < |res.calls| :: CallSid(res.calls[j]) == res.sid.value)
            && (res.calls != [] && !res.calls[0].Register? ==>
                  Services.GivenText(sid) && res.sid == sid && |res.calls| == 1 && CallSid(res.calls[0]) == sid.value)
  {
  }

  /** After the loop, a remembered non-empty id has been registered. */
  lemma {:induction false} LoopRegisteredFirst(frames: seq<Frame>, connects: seq<bool>)
    ensures var p := RunFrames(frames, connects);
            && RegisteredFirst(p.calls)
            && (Services.GivenText(p.sid) ==> Register(p.sid.value) in p.calls)
    decreases |frames|
  {
    if frames != [] {
      var prefix := frames[..|frames| - 1];
      LoopRegisteredFirst(prefix, connects);
      var p := RunFrames(prefix, connects);
      if !p.ended {
        var res := FrameStep(p.sid, frames[|frames| - 1], ConnectResult(connects, p.starts));
        StepCalls(p.sid, frames[|frames| - 1], ConnectResult(connects, p.starts));
        var calls := p.calls + res.calls;
        forall i | 0 <= i < |calls| && !calls[i].Register?
          ensures Register(CallSid(calls[i])) in calls[..i]
        {
          if i < |p.calls| {
            assert calls[..i] == p.calls[..i];
          } else if res.calls[0].Register? {
            assert calls[|p.calls|] == res.calls[0];
            assert CallSid(calls[i]) == res.sid.value;
          } else {
            assert calls[..i] == p.calls;
          }
        }
        if Services.GivenText(res.sid) && res.sid != p.sid {
          assert calls[|p.calls|] == Register(res.sid.value);
        }
      }
    }
  }

  /** Every configure, start, forward and terminate names a stream the route registered before. */
  lemma CallsFollowRegistration(frames: seq<Frame>, connects: seq<bool>)
    ensures RegisteredFirst(HandleStream(frames, connects))
  {
    LoopRegisteredFirst(frames, connects);
    var p := RunFrames(frames, connects);
    var calls := HandleStream(frames, connects);
    if Services.GivenText(p.sid) {
      forall i | 0 <= i < |calls| && !calls[i].Register?
        ensures Register(CallSid(calls[i])) in calls[..i]
      {
        if i < |p.calls| {
          assert calls[..i] == p.calls[..i];
        } else {
          assert calls[..i] == p.calls;
        }
      }
    } else {
      assert calls == p.calls;
    }
  }

  /**
   * A start with an id and a format object registers, configures with the
   * object's encoding and `sampleRate or sample_rate`, then starts, in that
   * order; a failed connection ends the loop.
   */
  lemma StartOrder(sid: Option<string>, s: string, fmt: Format, other: FormatField, connectOk: bool)
    requires s != ""
    requires FormatTruthy(FormatObject(fmt))
    ensures StartStep(sid, StartObject(Some(s), FormatObject(fmt), other), connectOk)
            == StepResult(Some(s),
                          [Register(s), Configure(s, fmt.encoding.Get(), SampleRateOf(fmt)), StartSession(s, connectOk)],
                          true, !connectOk)
  {
  }

  /**
   * A format object is truthy as soon as it holds a key, even one whose
   * value is null: it is then applied, and its null values overwrite
   * nothing. An empty object is not applied.
   */
  lemma NullKeyFormatApplied(sid: Option<string>, s: string, connectOk: bool)
    requires s != ""
    ensures var nullEncoding := FormatObject(Format(KeyNull, KeyMissing, KeyMissing, false));
            StartStep(sid, StartObject(Some(s), nullEncoding, FormatMissing), connectOk).calls
            == [Register(s), Configure(s, None, None), StartSession(s, connectOk)]
    ensures var empty := FormatObject(Format(KeyMissing, KeyMissing, KeyMissing, false));
            StartStep(sid, StartObject(Some(s), empty, FormatMissing), connectOk).calls
            == [Register(s), StartSession(s, connectOk)]
    ensures forall cfg :: Services.Reconfigured(cfg, None, None) == cfg
  {
    assert ChooseFormat(FormatObject(Format(KeyNull, KeyMissing, KeyMissing, false)), FormatMissing)
           == UseFormat(Format(KeyNull, KeyMissing, KeyMissing, false));
  }

  /** A start without a usable id only overwrites the remembered id, with nothing. */
  lemma StartWithoutSid(sid: Option<string>, start: StartField, connectOk: bool)
    requires start.StartMissing? || (start.StartObject? && !Services.GivenText(start.streamSid))
    ensures var r := StartStep(sid, start, connectOk);
            r.calls == [] && !r.ended && !r.started && !Services.GivenText(r.sid)
  {
  }

  /** A media payload is forwarded, under the remembered id, exactly when both are non-empty. */
  lemma MediaForwardedIff(sid: Option<string>, payload: Option<string>)
    ensures var r := MediaStep(sid, MediaObject(payload));
            && !r.ended && r.sid == sid
            && (r.calls != [] <==> Services.GivenText(sid) && Services.GivenText(payload))
            && (r.calls != [] ==> r.calls == [Forward(sid.value, payload.value)])
  {
  }

  /** Empty text, invalid JSON and unknown events are skipped. */
  lemma SkippedFrames(p: Route, frame: Frame, connects: seq<bool>)
    requires !p.ended
    requires frame.EmptyText? || frame.Undecodable? || (frame.Decoded? && frame.message.Message? && frame.message.event == OtherEvent)
    ensures Advance(p, frame, connects) == p
  {
  }

  /** Once the loop has ended, later frames change nothing. */
  lemma {:induction false} EndedIgnoresRest(frames: seq<Frame>, rest: seq<Frame>, connects: seq<bool>)
    requires RunFrames(frames, connects).ended
    ensures RunFrames(frames + rest, connects) == RunFrames(frames, connects)
    decreases |rest|
  {
    if rest == [] {
      assert frames + rest == frames;
    } else {
      var all := frames + rest;
      assert all[..|all| - 1] == frames + rest[..|rest| - 1];
      EndedIgnoresRest(frames, rest[..|rest| - 1], connects);
    }
  }

  /** One more frame advances the loop unless it has already ended. */
  lemma RunFramesNext(frames: seq<Frame>, i: nat, connects: seq<bool>)
    requires i < |frames|
    ensures var p := RunFrames(frames[..i], connects);
            RunFrames(frames[..i + 1], connects) == if p.ended then p else Advance(p, frames[i], connects)
  {
    assert frames[..i + 1][..i] == frames[..i];
  }

  /** A stop, a closed socket, a failed receive or a non-object ends the loop; nothing after it counts. */
  lemma StopEndsLoop(frames: seq<Frame>, frame: Frame, rest: seq<Frame>, connects: seq<bool>)
    requires !RunFrames(frames, connects).ended
    requires frame.Disconnect? || frame.ReceiveFailed? || frame == Decoded(NotAnObject)
             || (frame.Decoded? && frame.message.Message? && frame.message.event == StopEvent)
    ensures RunFrames(frames + [frame] + rest, connects) == RunFrames(frames, connects).(ended := true)
  {
    var prefix := frames + [frame];
    assert prefix[..|prefix| - 1] == frames;
    EndedIgnoresRest(prefix, rest, connects);
  }

  /** A session whose connection fails is still terminated: register, start, terminate. */
  lemma FailedStartTerminates(s: string, other: Frame)
    requires s != ""
    ensures HandleStream([Decoded(Message(StartEvent, StartObject(Some(s), FormatMissing, FormatMissing), MediaMissing)),
                          other], [false])
            == [Register(s), StartSession(s, false), Terminate(s)]
  {
    var first := Decoded(Message(StartEvent, StartObject(Some(s), FormatMissing, FormatMissing), MediaMissing));
    var frames := [first, other];
    assert frames[..1] == [first];
    assert [first][..0] == [];
    assert ChooseFormat(FormatMissing, FormatMissing) == NoFormat;
    assert RunFrames([first], [false]) == Route(Some(s), [Register(s), StartSession(s, false)], 1, true);
  }

  /**
   * A second start without an id replaces the remembered id, so the first
   * stream, already started, is never terminated by this route.
   */
  lemma SecondStartWithoutSidSkipsTermination(s: string)
    requires s != ""
    ensures var frames := [Decoded(Message(StartEvent, StartObject(Some(s), FormatMissing, FormatMissing), MediaMissing)),
                           Decoded(Message(StartEvent, StartMissing, MediaMissing))];
            HandleStream(frames, []) == [Register(s), StartSession(s, true)]
  {
    var first := Decoded(Message(StartEvent, StartObject(Some(s), FormatMissing, FormatMissing), MediaMissing));
    var second := Decoded(Message(StartEvent, StartMissing, MediaMissing));
    var frames := [first, second];
    assert frames[..1] == [first];
    assert [first][..0] == [];
    assert ChooseFormat(FormatMissing, FormatMissing) == NoFormat;
    assert RunFrames([first], []) == Route(Some(s), [Register(s), StartSession(s, true)], 1, false);
    assert RunFrames(frames, []) == Route(None, [Register(s), StartSession(s, true)], 1, false);
  }

  // -------------------------------------------------------------------
  // What the calls do to the handler
  // -------------------------------------------------------------------

  /**
   * The handler's state as the route's calls change it: the telephony
   * sockets and audio formats, every AI session's inbound buffer, and the
   * context store.
   */
  datatype HandlerView = HandlerView(connections: map<string, Services.SocketId>,
                                     audioConfig: map<string, Services.AudioConfig>,
                                     buffers: map<string, Realtime.InboundBuffer>,
                                     context: ConversationState.Store)

  function View(h: Services.TwilioStreamHandler): HandlerView
    reads h`connections, h`audioConfig, h.client`sessions, h.client.sessions.Values`audioBuffer,
          h.client.sessions.Values`pendingSamples, h.client.sessions.Values`commitScheduled, h.state`sessionContext
  {
    HandlerView(h.connections, h.audioConfig, h.client.Buffers(), h.state.sessionContext)
  }

  /**
   * What one handler call does, for the route's socket: a registration
   * stores the socket and the default format; a configure overwrites the
   * given fields of a known stream's format; a start creates the context
   * entry and, when connected, a session with an empty buffer; a forward
   * converts the payload with the stored format and, when that succeeds,
   * the stream's session accepts the chunk; a termination removes the
   * stream everywhere.
   */
  function Apply(c: Audio.Codec, websocket: Services.SocketId, call: RouteCall, v: HandlerView): HandlerView {
    match call
    case Register(s) =>
      v.(connections := v.connections[s := websocket], audioConfig := v.audioConfig[s := Services.DefaultAudioConfig])
    case Configure(s, encoding, sampleRate) =>
      if s in v.audioConfig
      then v.(audioConfig := v.audioConfig[s := Services.Reconfigured(v.audioConfig[s], encoding, sampleRate)])
      else v
    case StartSession(s, connected) =>
      v.(buffers := if connected then v.buffers[s := Realtime.EmptyBuffer] else v.buffers,
         context := ConversationState.WithEntry(v.context, s))
    case Forward(s, payload) =>
      var chunk := Services.InboundChunk(c, v.audioConfig, s, payload);
      if s in v.buffers && chunk.Some?
      then v.(buffers := v.buffers[s := Realtime.Accept(c, v.buffers[s], chunk.value)])
      else v
    case Terminate(s) =>
      HandlerView(v.connections - {s}, v.audioConfig - {s}, v.buffers - {s}, ConversationState.Cleared(v.context, s))
  }

  /** A trace of calls, applied in order. */
  function ApplyAll(c: Audio.Codec, websocket: Services.SocketId, calls: seq<RouteCall>, v: HandlerView): HandlerView
    decreases |calls|
  {
    if calls == [] then v
    else Apply(c, websocket, calls[|calls| - 1], ApplyAll(c, websocket, calls[..|calls| - 1], v))
  }

  lemma ApplyAllSnoc(c: Audio.Codec, websocket: Services.SocketId, calls: seq<RouteCall>, call: RouteCall, v: HandlerView)
    ensures ApplyAll(c, websocket, calls + [call], v) == Apply(c, websocket, call, ApplyAll(c, websocket, calls, v))
  {
    assert (calls + [call])[..|calls|] == calls;
  }

  lemma {:induction false} ApplyAllAppend(c: Audio.Codec, websocket: Services.SocketId, a: seq<RouteCall>,
                                          b: seq<RouteCall>, v: HandlerView)
    ensures ApplyAll(c, websocket, a + b, v) == ApplyAll(c, websocket, b, ApplyAll(c, websocket, a, v))
    decreases |b|
  {
    if b == [] {
      assert a + b == a;
    } else {
      assert (a + b)[..|a + b| - 1] == a + b[..|b| - 1];
      ApplyAllAppend(c, websocket, a, b[..|b| - 1], v);
    }
  }

  /** Stream `t` has the same socket, format, buffer and context in both views. */
  ghost predicate SameEntry(v: HandlerView, w: HandlerView, t: string) {
    && (t in v.connections <==> t in w.connections) && (t in v.connections ==> v.connections[t] == w.connections[t])
    && (t in v.audioConfig <==> t in w.audioConfig) && (t in v.audioConfig ==> v.audioConfig[t] == w.audioConfig[t])
    && (t in v.buffers <==> t in w.buffers) && (t in v.buffers ==> v.buffers[t] == w.buffers[t])
    && (t in v.context <==> t in w.context) && (t in v.context ==> v.context[t] == w.context[t])
  }

  /** A stream that no call names keeps its socket, format, buffer and context. */
  lemma {:induction false} UntouchedStreamKept(c: Audio.Codec, websocket: Services.SocketId, calls: seq<RouteCall>,
                                               v: HandlerView, t: string)
    requires forall i | 0 <= i < |calls| :: CallSid(calls[i]) != t
    ensures SameEntry(v, ApplyAll(c, websocket, calls, v), t)
    decreases |calls|
  {
    if calls != [] {
      var init := calls[..|calls| - 1];
      UntouchedStreamKept(c, websocket, init, v, t);
      ApplyKeepsOther(c, websocket, calls[|calls| - 1], ApplyAll(c, websocket, init, v), t);
    }
  }

  /** One call keeps the entries of every stream it does not name. */
  lemma ApplyKeepsOther(c: Audio.Codec, websocket: Services.SocketId, call: RouteCall, v: HandlerView, t: string)
    requires CallSid(call) != t
    ensures SameEntry(v, Apply(c, websocket, call, v), t)
  {
  }

  /** After the whole route, the stream it last saw has left nothing behind, whatever came before. */
  lemma RouteLeavesNothing(c: Audio.Codec, websocket: Services.SocketId, frames: seq<Frame>, connects: seq<bool>,
                           v: HandlerView)
    ensures var sid := RunFrames(frames, connects).sid;
            var w := ApplyAll(c, websocket, HandleStream(frames, connects), v);
            Services.GivenText(sid) ==>
              sid.value !in w.connections && sid.value !in w.audioConfig
              && sid.value !in w.buffers && sid.value !in w.context
  {
    var p := RunFrames(frames, connects);
    if Services.GivenText(p.sid) {
      ApplyAllSnoc(c, websocket, p.calls, Terminate(p.sid.value), v);
    }
  }

  // -------------------------------------------------------------------
  // The route, driving the handler
  // -------------------------------------------------------------------

  /** The sessions now held are the ones held before or new ones. */
  twostate predicate SessionsOldOrFresh(client: Services.OpenAIVoiceClient)
    reads client
  {
    forall sid | sid in client.sessions :: client.sessions[sid] in old(client.sessions.Values) || fresh(client.sessions[sid])
  }

  /** Keeping the session map, or storing a fresh session under one stream, keeps only old or fresh sessions. */
  twostate lemma StoredOrFresh(client: Services.OpenAIVoiceClient, new s: string)
    requires || client.sessions == old(client.sessions)
             || (s in client.sessions && fresh(client.sessions[s])
                 && client.sessions == old(client.sessions)[s := client.sessions[s]])
    ensures SessionsOldOrFresh(client)
  {
    forall sid | sid in client.sessions && !fresh(client.sessions[sid])
      ensures client.sessions[sid] in old(client.sessions.Values)
    {
      assert old(client.sessions)[sid] in old(client.sessions).Values;
    }
  }

  /** The `start` branch of the loop body. */
  method HandleStart(handler: Services.TwilioStreamHandler, websocket: Services.SocketId, sid: Option<string>,
                     start: StartField, connectOk: bool) returns (res: StepResult)
    requires handler.Valid()
    modifies handler`connections, handler`audioConfig, handler.client`sessions, handler.state`sessionContext
    ensures handler.Valid()
    ensures SessionsOldOrFresh(handler.client)
    ensures res == StartStep(sid, start, connectOk)
    ensures View(handler) == ApplyAll(handler.codec, websocket, res.calls, old(View(handler)))
  {
    var newSid := sid;
    var calls: seq<RouteCall> := [];
    var started := false;
    var ended := false;
    match start {
      case StartOther =>
        // `.get` on a start value that is not an object raises.
        ended := true;
      case StartMissing =>
        newSid := None;
      case StartObject(streamSid, mediaFormat, media_format) =>
        newSid := streamSid;
        if Services.GivenText(streamSid) {
          var s := streamSid.value;
          handler.RegisterStream(s, websocket);
          ApplyAllSnoc(handler.codec, websocket, [], Register(s), old(View(handler)));
          var more;
          more, started, ended := ConfigureAndStart(handler, websocket, s, ChooseFormat(mediaFormat, media_format), connectOk);
          ApplyAllAppend(handler.codec, websocket, [Register(s)], more, old(View(handler)));
          calls := [Register(s)] + more;
        }
    }
    res := StepResult(newSid, calls, started, ended);
  }

  /**
   * A registered stream's start: the chosen format is applied (a
   * non-object one raises), then the AI session is started, on the route's
   * socket.
   */
  method ConfigureAndStart(handler: Services.TwilioStreamHandler, ghost websocket: Services.SocketId, s: string,
                           choice: FormatChoice, connectOk: bool)
    returns (calls: seq<RouteCall>, started: bool, ended: bool)
    requires handler.Valid()
    modifies handler`audioConfig, handler.client`sessions, handler.state`sessionContext
    ensures handler.Valid()
    ensures SessionsOldOrFresh(handler.client)
    ensures calls == FormatAndStart(s, choice, connectOk)
    ensures started == !choice.FormatCrash? && ended == (choice.FormatCrash? || !connectOk)
    ensures View(handler) == ApplyAll(handler.codec, websocket, calls, old(View(handler)))
  {
    calls := [];
    started := false;
    ended := false;
    match choice {
      case FormatCrash =>
        // The debug line's `.get` on a truthy value that is not an object raises.
        ended := true;
        StoredOrFresh(handler.client, s);
        return;
      case NoFormat =>
      case UseFormat(fmt) =>
        var encoding, sampleRate := fmt.encoding.Get(), SampleRateOf(fmt);
        handler.ConfigureStreamAudio(s, encoding, sampleRate);
        ApplyAllSnoc(handler.codec, websocket, [], Configure(s, encoding, sampleRate), old(View(handler)));
        calls := [Configure(s, encoding, sampleRate)];
    }
    ghost var v0 := old(View(handler));
    var r := StartRecorded(handler, websocket, s, connectOk, calls, v0);
    calls := calls + [StartSession(s, connectOk)];
    started := true;
    ended := r.Fail?;
  }

  /** The session start of a start event, following the calls made before it. */
  method StartRecorded(handler: Services.TwilioStreamHandler, ghost websocket: Services.SocketId, s: string,
                       connectOk: bool, ghost calls: seq<RouteCall>, ghost v0: HandlerView)
    returns (r: Outcome<Services.ClientError>)
    requires handler.Valid() && View(handler) == ApplyAll(handler.codec, websocket, calls, v0)
    modifies handler.client`sessions, handler.state`sessionContext
    ensures handler.Valid()
    ensures SessionsOldOrFresh(handler.client)
    ensures r.Fail? <==> !connectOk
    ensures View(handler) == ApplyAll(handler.codec, websocket, calls + [StartSession(s, connectOk)], v0)
  {
    r := handler.StartSession(s, connectOk);
    StoredOrFresh(handler.client, s);
    ApplyAllSnoc(handler.codec, websocket, calls, StartSession(s, connectOk), v0);
  }

  /**
   * A `media` event: a non-empty payload for a remembered stream is handed
   * to the handler; a `media` value that is not an object raises.
   */
  method HandleMedia(handler: Services.TwilioStreamHandler, ghost websocket: Services.SocketId, sid: Option<string>,
                     media: MediaField) returns (res: StepResult)
    requires handler.Valid()
    modifies handler.client.sessions.Values
    ensures handler.Valid()
    ensures SessionsOldOrFresh(handler.client)
    ensures res == MediaStep(sid, media)
    ensures View(handler) == ApplyAll(handler.codec, websocket, res.calls, old(View(handler)))
  {
    res := StepResult(sid, [], false, false);
    match media {
      case MediaOther =>
        // `.get` on a value that is not an object raises.
        res := res.(ended := true);
      case MediaMissing =>
      case MediaObject(payload) =>
        if Services.GivenText(sid) && Services.GivenText(payload) {
          handler.ForwardMediaChunk(sid.value, payload.value);
          ApplyAllSnoc(handler.codec, websocket, [], Forward(sid.value, payload.value), old(View(handler)));
          res := res.(calls := [Forward(sid.value, payload.value)]);
        }
    }
  }

  /**
   * One pass of the loop body: the handler calls it makes, recorded as
   * they are made, the stream id it leaves, and whether the loop ends
   * (a `break`, or an exception caught around the loop).
   */
  method HandleFrame(handler: Services.TwilioStreamHandler, websocket: Services.SocketId, sid: Option<string>,
                     frame: Frame, connectOk: bool) returns (res: StepResult)
    requires handler.Valid()
    modifies handler`connections, handler`audioConfig, handler.client`sessions, handler.state`sessionContext,
             handler.client.sessions.Values
    ensures handler.Valid()
    ensures SessionsOldOrFresh(handler.client)
    ensures res == FrameStep(sid, frame, connectOk)
    ensures View(handler) == ApplyAll(handler.codec, websocket, res.calls, old(View(handler)))
  {
    var newSid := sid;
    var calls: seq<RouteCall> := [];
    var started := false;
    var ended := false;
    match frame {
      case Disconnect =>
        ended := true;
      case ReceiveFailed =>
        ended := true;
      case EmptyText =>
      case Undecodable =>
      case Decoded(NotAnObject) =>
        // `.get` on a value that is not an object raises.
        ended := true;
      case Decoded(Message(event, start, media)) =>
        match event {
          case StartEvent =>
            var r := HandleStart(handler, websocket, sid, start, connectOk);
            newSid, calls, started, ended := r.sid, r.calls, r.started, r.ended;
          case MediaEvent =>
            var r := HandleMedia(handler, websocket, sid, media);
            newSid, calls, started, ended := r.sid, r.calls, r.started, r.ended;
          case StopEvent =>
            ended := true;
          case OtherEvent =>
        }
    }
    res := StepResult(newSid, calls, started, ended);
  }

  /**
   * handle_twilio_stream: the receive loop over the frames, then, in the
   * `finally`, the termination of the remembered stream, whose failed
   * socket close propagates. The calls made are exactly HandleStream's,
   * the handler ends in the state those calls describe, and a terminated
   * stream leaves nothing behind in the handler, the client or the
   * context store.
   */
  method HandleTwilioStream(handler: Services.TwilioStreamHandler, websocket: Services.SocketId, frames: seq<Frame>,
                            connects: seq<bool>, closeOk: bool)
    returns (calls: seq<RouteCall>, r: Outcome<Services.ClientError>)
    requires handler.Valid()
    modifies handler`connections, handler`audioConfig, handler.client`sessions, handler.state`sessionContext,
             handler.client.sessions.Values
    ensures handler.Valid()
    ensures calls == HandleStream(frames, connects)
    ensures View(handler) == ApplyAll(handler.codec, websocket, calls, old(View(handler)))
    ensures var p := RunFrames(frames, connects);
            r.Pass? <==>
              (closeOk || !Services.GivenText(p.sid)
               || p.sid.value !in ApplyAll(handler.codec, websocket, p.calls, old(View(handler))).buffers)
    ensures var sid := RunFrames(frames, connects).sid;
            Services.GivenText(sid) ==>
              && sid.value !in handler.connections
              && sid.value !in handler.audioConfig
              && sid.value !in handler.client.sessions
              && sid.value !in handler.state.sessionContext
  {
    var sid;
    sid, calls := ReceiveLoop(handler, websocket, frames, connects);
    var more;
    more, r := TerminateRemembered(handler, websocket, sid, closeOk);
    ApplyAllAppend(handler.codec, websocket, calls, more, old(View(handler)));
    calls := calls + more;
  }

  /** The receive loop: frames are handled one by one until one ends the loop or none is left. */
  method ReceiveLoop(handler: Services.TwilioStreamHandler, websocket: Services.SocketId, frames: seq<Frame>,
                     connects: seq<bool>)
    returns (sid: Option<string>, calls: seq<RouteCall>)
    requires handler.Valid()
    modifies handler`connections, handler`audioConfig, handler.client`sessions, handler.state`sessionContext,
             handler.client.sessions.Values
    ensures handler.Valid()
    ensures SessionsOldOrFresh(handler.client)
    ensures sid == RunFrames(frames, connects).sid && calls == RunFrames(frames, connects).calls
    ensures View(handler) == ApplyAll(handler.codec, websocket, calls, old(View(handler)))
  {
    var p := Route(None, [], 0, false);
    var i := 0;
    while i < |frames| && !p.ended
      invariant 0 <= i <= |frames|
      invariant handler.Valid()
      invariant SessionsOldOrFresh(handler.client)
      invariant RunFrames(frames[..i], connects) == p
      invariant View(handler) == ApplyAll(handler.codec, websocket, p.calls, old(View(handler)))
    {
      p := LoopStep(handler, websocket, old(View(handler)), frames, connects, i, p);
      i := i + 1;
    }
    if p.ended {
      EndedIgnoresRest(frames[..i], frames[i..], connects);
      assert frames[..i] + frames[i..] == frames;
    } else {
      assert frames[..i] == frames;
    }
    sid, calls := p.sid, p.calls;
  }

  /** One pass of the receive loop: the next frame is handled and the route advances by it. */
  method LoopStep(handler: Services.TwilioStreamHandler, websocket: Services.SocketId, ghost v0: HandlerView,
                  frames: seq<Frame>, connects: seq<bool>, i: nat, p: Route)
    returns (q: Route)
    requires handler.Valid()
    requires i < |frames| && RunFrames(frames[..i], connects) == p && !p.ended
    requires View(handler) == ApplyAll(handler.codec, websocket, p.calls, v0)
    modifies handler`connections, handler`audioConfig, handler.client`sessions, handler.state`sessionContext,
             handler.client.sessions.Values
    ensures handler.Valid()
    ensures SessionsOldOrFresh(handler.client)
    ensures RunFrames(frames[..i + 1], connects) == q
    ensures View(handler) == ApplyAll(handler.codec, websocket, q.calls, v0)
  {
    RunFramesNext(frames, i, connects);
    var res := HandleFrame(handler, websocket, p.sid, frames[i], ConnectResult(connects, p.starts));
    ApplyAllAppend(handler.codec, websocket, p.calls, res.calls, v0);
    q := Route(res.sid, p.calls + res.calls, p.starts + (if res.started then 1 else 0), res.ended);
  }

  /** The `finally`: a remembered non-empty stream id is terminated, and a failed close propagates. */
  method TerminateRemembered(handler: Services.TwilioStreamHandler, ghost websocket: Services.SocketId,
                             sid: Option<string>, closeOk: bool)
    returns (calls: seq<RouteCall>, r: Outcome<Services.ClientError>)
    requires handler.Valid()
    modifies handler`connections, handler`audioConfig, handler.client`sessions, handler.state`sessionContext,
             handler.client.sessions.Values
    ensures handler.Valid()
    ensures calls == if Services.GivenText(sid) then [Terminate(sid.value)] else []
    ensures View(handler) == ApplyAll(handler.codec, websocket, calls, old(View(handler)))
    ensures r.Pass? <==> (closeOk || !Services.GivenText(sid) || sid.value !in old(View(handler)).buffers)
    ensures Services.GivenText(sid) ==>
              && sid.value !in handler.connections
              && sid.value !in handler.audioConfig
              && sid.value !in handler.client.sessions
              && sid.value !in handler.state.sessionContext
  {
    calls := [];
    r := Pass;
    if Services.GivenText(sid) {
      r := handler.TerminateSession(sid.value, closeOk);
      ApplyAllSnoc(handler.codec, websocket, [], Terminate(sid.value), old(View(handler)));
      calls := [Terminate(sid.value)];
    }
  }
}
