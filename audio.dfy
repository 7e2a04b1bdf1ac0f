/**
 * Audio transcoding between the telephony side (G.711 µ-law / A-law or raw
 * linear PCM at the stream's rate) and the AI service (16-bit linear PCM).
 *
 * The numeric primitives (G.711 tables, rate conversion) and base64
 * (RFC 4648, section 4) are foreign calls; they are fields of a `Codec`
 * value that every conversion receives, so the model fixes which primitive
 * is applied, with which arguments and in which order, and nothing about
 * what the primitives compute.
 */
module Audio {
  import opened Wrappers

  type Bytes = seq<bv8>

  const MuLaw: string := "audio/x-mulaw"
  const ALaw: string := "audio/x-alaw"
  const RawPcm: string := "audio/x-raw"
  const L16: string := "audio/L16"

  const TwilioDefaultEncoding: string := MuLaw
  const TwilioDefaultSampleRate: int := 8000
  const OpenAIDefaultSampleRate: int := 16000

  /** Every primitive is called with 2-byte samples and one channel. */
  const SampleWidth: int := 2
  const MonoChannels: int := 1

  /**
   * The foreign primitives. `None` stands for the exception the primitive
   * raises (an invalid base64 string, `audioop.error` on a fragment that is
   * not a whole number of samples or a non-positive rate).
   */
  datatype Codec = Codec(
    b64decode: string -> Option<Bytes>,
    b64encode: Bytes -> string,
    ulaw2lin: (Bytes, int) -> Bytes,
    alaw2lin: (Bytes, int) -> Bytes,
    lin2ulaw: (Bytes, int) -> Option<Bytes>,
    ratecv: (Bytes, int, int, int, int) -> Option<Bytes>)

  /** The base64 assumption: decoding an encoding gives the bytes back. */
  ghost predicate Base64RoundTrips(c: Codec) {
    forall b: Bytes :: c.b64decode(c.b64encode(b)) == Some(b)
  }

  datatype AudioError =
    | InvalidBase64                      // binascii.Error from b64decode
    | UnsupportedEncoding(encoding: string)  // the ValueError of the dispatch
    | AudioopError                       // audioop.error from a primitive

  predicate IsSupported(encoding: string) {
    encoding == MuLaw || encoding == ALaw || encoding == RawPcm || encoding == L16
  }

  /**
   * Telephony audio (base64 text) to base64 PCM16 at `targetSampleRate`.
   * Base64 is decoded before the encoding is looked at, so an undecodable
   * chunk fails with InvalidBase64 whatever its encoding.
   */
  function ConvertAudioToPcm16(c: Codec, mediaChunkB64: string, encoding: string,
                               sourceSampleRate: int,
                               targetSampleRate: int := OpenAIDefaultSampleRate)
    : (r: Result<string, AudioError>)
    ensures c.b64decode(mediaChunkB64).None? ==> r == Failure(InvalidBase64)
    ensures c.b64decode(mediaChunkB64).Some? && !IsSupported(encoding) ==>
              r == Failure(UnsupportedEncoding(encoding))
    ensures r.Success? ==> IsSupported(encoding) && c.b64decode(mediaChunkB64).Some?
  {
    match c.b64decode(mediaChunkB64)
    case None => Failure(InvalidBase64)
    case Some(rawBytes) =>
      var decoded :=
        if encoding == MuLaw then Success(c.ulaw2lin(rawBytes, SampleWidth))
        else if encoding == ALaw then Success(c.alaw2lin(rawBytes, SampleWidth))
        else if encoding == RawPcm || encoding == L16 then Success(rawBytes)
        else Failure(UnsupportedEncoding(encoding));
      match decoded
      case Failure(e) => Failure(e)
      case Success(pcm16) =>
        var resampled :=
          if sourceSampleRate != targetSampleRate
          then c.ratecv(pcm16, SampleWidth, MonoChannels, sourceSampleRate, targetSampleRate)
          else Some(pcm16);
        match resampled
        case None => Failure(AudioopError)
        case Some(out) => Success(c.b64encode(out))
  }

  /** Base64 PCM16 from the AI service to base64 µ-law at `targetSampleRate`. */
  function ConvertPcm16ToMulaw(c: Codec, audioChunkB64: string,
                               sourceSampleRate: int := OpenAIDefaultSampleRate,
                               targetSampleRate: int := TwilioDefaultSampleRate)
    : (r: Result<string, AudioError>)
    ensures c.b64decode(audioChunkB64).None? ==> r == Failure(InvalidBase64)
    ensures r.Success? ==> c.b64decode(audioChunkB64).Some?
  {
    match c.b64decode(audioChunkB64)
    case None => Failure(InvalidBase64)
    case Some(rawBytes) =>
      var resampled :=
        if sourceSampleRate != targetSampleRate
        then c.ratecv(rawBytes, SampleWidth, MonoChannels, sourceSampleRate, targetSampleRate)
        else Some(rawBytes);
      match resampled
      case None => Failure(AudioopError)
      case Some(pcm) =>
        match c.lin2ulaw(pcm, SampleWidth)
        case None => Failure(AudioopError)
        case Some(mulaw) => Success(c.b64encode(mulaw))
  }

  // ---------------------------------------------------------------------
  // A reference description of both conversions as a plan of primitive
  // applications. The lemmas below prove that the functions above run
  // exactly these plans, and state the ordering properties on the plans.
  // ---------------------------------------------------------------------

  datatype Stage =
    | DecodeBase64
    | Reject(encoding: string)
    | ULawToLinear(width: int)
    | ALawToLinear(width: int)
    | Resample(width: int, channels: int, fromRate: int, toRate: int)
    | LinearToULaw(width: int)
    | EncodeBase64

  datatype Data = Text(text: string) | Pcm(bytes: Bytes)

  function InboundStages(encoding: string, sourceSampleRate: int, targetSampleRate: int): seq<Stage> {
    if !IsSupported(encoding) then [DecodeBase64, Reject(encoding)]
    else
      [DecodeBase64]
      + (if encoding == MuLaw then [ULawToLinear(SampleWidth)]
         else if encoding == ALaw then [ALawToLinear(SampleWidth)]
         else [])
      + (if sourceSampleRate != targetSampleRate
         then [Resample(SampleWidth, MonoChannels, sourceSampleRate, targetSampleRate)]
         else [])
      + [EncodeBase64]
  }

  function OutboundStages(sourceSampleRate: int, targetSampleRate: int): seq<Stage> {
    [DecodeBase64]
    + (if sourceSampleRate != targetSampleRate
       then [Resample(SampleWidth, MonoChannels, sourceSampleRate, targetSampleRate)]
       else [])
    + [LinearToULaw(SampleWidth), EncodeBase64]
  }

  function ApplyStage(c: Codec, s: Stage, d: Data): Result<Data, AudioError> {
    match s
    case DecodeBase64 =>
      if !d.Text? then Failure(AudioopError)
      else (match c.b64decode(d.text)
            case None => Failure(InvalidBase64)
            case Some(b) => Success(Pcm(b)))
    case Reject(e) => Failure(UnsupportedEncoding(e))
    case ULawToLinear(w) => if d.Pcm? then Success(Pcm(c.ulaw2lin(d.bytes, w))) else Failure(AudioopError)
    case ALawToLinear(w) => if d.Pcm? then Success(Pcm(c.alaw2lin(d.bytes, w))) else Failure(AudioopError)
    case Resample(w, ch, a, b) =>
      if !d.Pcm? then Failure(AudioopError)
      else (match c.ratecv(d.bytes, w, ch, a, b)
            case None => Failure(AudioopError)
            case Some(out) => Success(Pcm(out)))
    case LinearToULaw(w) =>
      if !d.Pcm? then Failure(AudioopError)
      else (match c.lin2ulaw(d.bytes, w)
            case None => Failure(AudioopError)
            case Some(out) => Success(Pcm(out)))
    case EncodeBase64 => if d.Pcm? then Success(Text(c.b64encode(d.bytes))) else Failure(AudioopError)
  }

  /** Applies the stages left to right, stopping at the first failure. */
  function RunStages(c: Codec, stages: seq<Stage>, d: Data): Result<Data, AudioError>
    decreases |stages|
  {
    if stages == [] then Success(d)
    else match ApplyStage(c, stages[0], d)
         case Failure(e) => Failure(e)
         case Success(d') => RunStages(c, stages[1..], d')
  }

  /** The text a successful plan ends with. */
  function AsText(r: Result<Data, AudioError>): Result<string, AudioError> {
    match r
    case Failure(e) => Failure(e)
    case Success(d) => if d.Text? then Success(d.text) else Failure(AudioopError)
  }

  lemma {:induction false} RunStagesAppend(c: Codec, a: seq<Stage>, b: seq<Stage>, d: Data)
    ensures RunStages(c, a + b, d) ==
            (match RunStages(c, a, d)
             case Failure(e) => Failure(e)
             case Success(d') => RunStages(c, b, d'))
    decreases |a|
  {
    if a == [] {
      assert a + b == b;
    } else {
      assert (a + b)[0] == a[0];
      assert (a + b)[1..] == a[1..] + b;
      match ApplyStage(c, a[0], d)
      case Failure(e) =>
      case Success(d') => RunStagesAppend(c, a[1..], b, d');
    }
  }

  /** convert_audio_to_pcm16 runs exactly the inbound plan. */
  lemma InboundFollowsPlan(c: Codec, chunk: string, encoding: string, sourceSampleRate: int, targetSampleRate: int)
    ensures ConvertAudioToPcm16(c, chunk, encoding, sourceSampleRate, targetSampleRate)
            == AsText(RunStages(c, InboundStages(encoding, sourceSampleRate, targetSampleRate), Text(chunk)))
  {
    var dec := [DecodeBase64];
    var conv := if encoding == MuLaw then [ULawToLinear(SampleWidth)]
                else if encoding == ALaw then [ALawToLinear(SampleWidth)] else [];
    var rs := if sourceSampleRate != targetSampleRate
              then [Resample(SampleWidth, MonoChannels, sourceSampleRate, targetSampleRate)] else [];
    if IsSupported(encoding) {
      var stages := InboundStages(encoding, sourceSampleRate, targetSampleRate);
      assert stages == dec + (conv + (rs + [EncodeBase64]));
      RunStagesAppend(c, dec, conv + (rs + [EncodeBase64]), Text(chunk));
      match c.b64decode(chunk)
      case None =>
      case Some(b) =>
        RunStagesAppend(c, conv, rs + [EncodeBase64], Pcm(b));
        var pcm := if encoding == MuLaw then c.ulaw2lin(b, SampleWidth)
                   else if encoding == ALaw then c.alaw2lin(b, SampleWidth) else b;
        assert RunStages(c, conv, Pcm(b)) == Success(Pcm(pcm));
        RunStagesAppend(c, rs, [EncodeBase64], Pcm(pcm));
    }
  }

  /** convert_pcm16_to_mulaw runs exactly the outbound plan. */
  lemma OutboundFollowsPlan(c: Codec, chunk: string, sourceSampleRate: int, targetSampleRate: int)
    ensures ConvertPcm16ToMulaw(c, chunk, sourceSampleRate, targetSampleRate)
            == AsText(RunStages(c, OutboundStages(sourceSampleRate, targetSampleRate), Text(chunk)))
  {
    var rs := if sourceSampleRate != targetSampleRate
              then [Resample(SampleWidth, MonoChannels, sourceSampleRate, targetSampleRate)] else [];
    var tail := [LinearToULaw(SampleWidth), EncodeBase64];
    assert OutboundStages(sourceSampleRate, targetSampleRate) == [DecodeBase64] + (rs + tail);
    RunStagesAppend(c, [DecodeBase64], rs + tail, Text(chunk));
    match c.b64decode(chunk)
    case None =>
    case Some(b) =>
      assert RunStages(c, [DecodeBase64], Text(chunk)) == Success(Pcm(b));
      RunStagesAppend(c, rs, tail, Pcm(b));
      var resampled := if sourceSampleRate != targetSampleRate
                       then c.ratecv(b, SampleWidth, MonoChannels, sourceSampleRate, targetSampleRate)
                       else Some(b);
      match resampled
      case None =>
        assert RunStages(c, rs, Pcm(b)) == Failure(AudioopError);
      case Some(pcm) =>
        assert RunStages(c, rs, Pcm(b)) == Success(Pcm(pcm));
        assert tail[1..] == [EncodeBase64];
        match c.lin2ulaw(pcm, SampleWidth)
        case None =>
        case Some(m) =>
          assert RunStages(c, [EncodeBase64], Pcm(m)) == Success(Text(c.b64encode(m)));
  }

  predicate Resamples(stages: seq<Stage>) {
    exists i :: 0 <= i < |stages| && stages[i].Resample?
  }

  /** Any encoding outside the four supported ones is rejected right after base64 decoding. */
  lemma UnsupportedEncodingRejected(c: Codec, chunk: string, encoding: string, sourceSampleRate: int, targetSampleRate: int)
    requires !IsSupported(encoding)
    ensures InboundStages(encoding, sourceSampleRate, targetSampleRate) == [DecodeBase64, Reject(encoding)]
    ensures ConvertAudioToPcm16(c, chunk, encoding, sourceSampleRate, targetSampleRate).Failure?
  {
  }

  /** Inbound resampling happens iff the two rates differ, and only with the two rates given. */
  lemma InboundResamplesIffRatesDiffer(encoding: string, sourceSampleRate: int, targetSampleRate: int)
    requires IsSupported(encoding)
    ensures Resamples(InboundStages(encoding, sourceSampleRate, targetSampleRate)) <==> sourceSampleRate != targetSampleRate
    ensures forall s | s in InboundStages(encoding, sourceSampleRate, targetSampleRate) && s.Resample? ::
              s == Resample(SampleWidth, MonoChannels, sourceSampleRate, targetSampleRate)
  {
    var stages := InboundStages(encoding, sourceSampleRate, targetSampleRate);
    if sourceSampleRate != targetSampleRate {
      assert stages[|stages| - 2].Resample?;
    }
  }

  /** Outbound resampling happens iff the two rates differ. */
  lemma OutboundResamplesIffRatesDiffer(sourceSampleRate: int, targetSampleRate: int)
    ensures Resamples(OutboundStages(sourceSampleRate, targetSampleRate)) <==> sourceSampleRate != targetSampleRate
    ensures forall s | s in OutboundStages(sourceSampleRate, targetSampleRate) && s.Resample? ::
              s == Resample(SampleWidth, MonoChannels, sourceSampleRate, targetSampleRate)
  {
    if sourceSampleRate != targetSampleRate {
      assert OutboundStages(sourceSampleRate, targetSampleRate)[1].Resample?;
    }
  }

  /** G.711 decoding is chosen by the encoding tag and always uses 2-byte samples. */
  lemma InboundDecodesG711(encoding: string, sourceSampleRate: int, targetSampleRate: int)
    ensures var stages := InboundStages(encoding, sourceSampleRate, targetSampleRate);
            && (encoding == MuLaw <==> ULawToLinear(SampleWidth) in stages)
            && (encoding == ALaw <==> ALawToLinear(SampleWidth) in stages)
            && (encoding == RawPcm || encoding == L16 ==>
                  forall s | s in stages :: !s.ULawToLinear? && !s.ALawToLinear?)
            && stages[0] == DecodeBase64
  {
  }

  /** µ-law encoding comes after any resampling and just before base64 encoding. */
  lemma OutboundEncodesLast(sourceSampleRate: int, targetSampleRate: int)
    ensures var stages := OutboundStages(sourceSampleRate, targetSampleRate);
            && |stages| >= 3
            && stages[0] == DecodeBase64
            && stages[|stages| - 2] == LinearToULaw(SampleWidth)
            && stages[|stages| - 1] == EncodeBase64
            && forall i | 0 <= i < |stages| && stages[i].Resample? :: i < |stages| - 2
  {
  }

  /** Raw or L16 audio at an unchanged rate passes through: the output decodes to the input's bytes. */
  lemma RawPassthrough(c: Codec, chunk: string, encoding: string, rate: int, bytes: Bytes)
    requires Base64RoundTrips(c)
    requires encoding == RawPcm || encoding == L16
    requires c.b64decode(chunk) == Some(bytes)
    ensures var r := ConvertAudioToPcm16(c, chunk, encoding, rate, rate);
            r.Success? && c.b64decode(r.value) == Some(bytes)
  {
  }
}
