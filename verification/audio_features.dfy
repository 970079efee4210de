/** `analyze_audio_features` (app.py): reject the inputs it cannot read, read
    the frame payload as one stream of signed 16-bit little-endian integers,
    scale them by 1/32768, and reduce the result to four scalar features.
    The `wave` module's parse of the container is an input here. */
module AudioFeatures {
  import opened Wrappers

  type byte = b: int | 0 <= b < 256

  /** What `wave.open(...)` reports for a container it accepts:
      `getnframes()`, `getframerate()` and `readframes(getnframes())`. */
  datatype WavReading = WavReading(nFrames: nat, framerate: nat, frames: seq<byte>)

  /** The record the function returns; `waveform` is the normalized stream. */
  datatype Features = Features(
    waveform: seq<real>,
    framerate: nat,
    duration: real,
    avgAmplitude: real,
    peakAmplitude: real,
    dynamicRange: real)

  /** Why the function returned `None`, one constructor per path to it. */
  datatype AudioError =
    | EmptyInput          // `if not audio_bytes`
    | Mp3NotSupported     // the bytes start with an ID3 tag
    | InvalidContainer    // `wave.open` raised
    | NoFrames            // `n_frames == 0`
    | OddPayload          // `np.frombuffer(..., dtype=np.int16)` raised
    | ZeroFramerate       // `n_frames / float(framerate)` raised
    | NoSamples           // `np.max` of an empty array raised

  /** The divisor of the normalization, the magnitude of the most negative int16. */
  const FullScale: real := 32768.0

  predicate StartsWithId3(audio: seq<byte>) {
    |audio| >= 3 && audio[0] == 0x49 && audio[1] == 0x44 && audio[2] == 0x33
  }

  predicate IsInt16(x: int) {
    -32768 <= x < 32768
  }

  /** One signed 16-bit little-endian integer from its two bytes. */
  function Int16LE(lo: byte, hi: byte): (x: int)
    ensures IsInt16(x)
    ensures (x + 65536) % 65536 == lo + 256 * hi
  {
    var u := lo + 256 * hi;
    if u >= 32768 then u - 65536 else u
  }

  /** `np.frombuffer(frames, dtype=np.int16)` on a payload of even length. */
  function DecodeInt16LE(b: seq<byte>): (xs: seq<int>)
    requires |b| % 2 == 0
    ensures |xs| == |b| / 2
    ensures forall i :: 0 <= i < |xs| ==> xs[i] == Int16LE(b[2 * i], b[2 * i + 1])
    decreases |b|
  {
    if b == [] then []
    else
      var rest := DecodeInt16LE(b[2..]);
      assert forall i :: 1 <= i <= |rest| ==> b[2..][2 * (i - 1)] == b[2 * i];
      [Int16LE(b[0], b[1])] + rest
  }

  /** The inverse direction: int16 values written as little-endian byte pairs. */
  function EncodeInt16LE(xs: seq<int>): (b: seq<byte>)
    requires forall i :: 0 <= i < |xs| ==> IsInt16(xs[i])
    ensures |b| == 2 * |xs|
  {
    if xs == [] then []
    else
      var u := if xs[0] < 0 then xs[0] + 65536 else xs[0];
      assert IsInt16(xs[0]);
      var lo: byte, hi: byte := u % 256, u / 256;
      [lo, hi] + EncodeInt16LE(xs[1..])
  }

  /** Decoding what was encoded gives back the int16 values. */
  lemma {:induction false} DecodeEncode(xs: seq<int>)
    requires forall i :: 0 <= i < |xs| ==> IsInt16(xs[i])
    ensures DecodeInt16LE(EncodeInt16LE(xs)) == xs
    decreases |xs|
  {
    if xs != [] {
      var b := EncodeInt16LE(xs);
      DecodeEncode(xs[1..]);
      assert b[2..] == EncodeInt16LE(xs[1..]);
      assert Int16LE(b[0], b[1]) == xs[0];
    }
  }

  /** Encoding what was decoded gives back the payload: the decode loses nothing. */
  lemma {:induction false} EncodeDecode(b: seq<byte>)
    requires |b| % 2 == 0
    ensures EncodeInt16LE(DecodeInt16LE(b)) == b
    decreases |b|
  {
    if b != [] {
      var xs := DecodeInt16LE(b);
      EncodeDecode(b[2..]);
      assert xs[1..] == DecodeInt16LE(b[2..]);
      assert EncodeInt16LE(xs)[..2] == [b[0], b[1]];
      assert b == [b[0], b[1]] + b[2..];
    }
  }

  /** `audio_array / 32768.0`. */
  function Normalize(xs: seq<int>): (s: seq<real>)
    ensures |s| == |xs|
    ensures forall i :: 0 <= i < |s| ==> s[i] * FullScale == xs[i] as real
  {
    seq(|xs|, i requires 0 <= i < |xs| => xs[i] as real / FullScale)
  }

  /** The normalized stream the function works on. */
  function Samples(frames: seq<byte>): (s: seq<real>)
    requires |frames| % 2 == 0
    ensures |s| == |frames| / 2
    ensures forall i :: 0 <= i < |s| ==> s[i] * FullScale == Int16LE(frames[2 * i], frames[2 * i + 1]) as real
  {
    Normalize(DecodeInt16LE(frames))
  }

  /** Every normalized sample lies in [-1, 32767/32768]. */
  lemma SampleBounds(frames: seq<byte>)
    requires |frames| % 2 == 0
    ensures |Samples(frames)| == |frames| / 2
    ensures forall i :: 0 <= i < |Samples(frames)| ==>
              -1.0 <= Samples(frames)[i] <= 32767.0 / 32768.0
  {
  }

  function Abs(x: real): real {
    if x < 0.0 then -x else x
  }

  /** The sum of |s| over the stream (the numerator of `np.mean(np.abs(...))`). */
  function SumAbs(s: seq<real>): (t: real)
    ensures t >= 0.0
  {
    if s == [] then 0.0 else Abs(s[0]) + SumAbs(s[1..])
  }

  /** `np.max(np.abs(s))`: an upper bound of |s| that is attained. */
  function MaxAbs(s: seq<real>): (m: real)
    requires s != []
    ensures forall i :: 0 <= i < |s| ==> Abs(s[i]) <= m
    ensures exists i :: 0 <= i < |s| && Abs(s[i]) == m
  {
    if |s| == 1 then Abs(s[0])
    else
      var m := MaxAbs(s[1..]);
      if Abs(s[0]) >= m then Abs(s[0]) else m
  }

  /** `np.min(np.abs(s))`: a lower bound of |s| that is attained. */
  function MinAbs(s: seq<real>): (m: real)
    requires s != []
    ensures forall i :: 0 <= i < |s| ==> m <= Abs(s[i])
    ensures exists i :: 0 <= i < |s| && Abs(s[i]) == m
  {
    if |s| == 1 then Abs(s[0])
    else
      var m := MinAbs(s[1..]);
      if Abs(s[0]) <= m then Abs(s[0]) else m
  }

  /** `x` added to itself `n` times. */
  function Rep(n: nat, x: real): real {
    if n == 0 then 0.0 else x + Rep(n - 1, x)
  }

  lemma {:induction false} RepIsProduct(n: nat, x: real)
    ensures Rep(n, x) == n as real * x
  {
    if n > 0 {
      RepIsProduct(n - 1, x);
    }
  }

  /** A sum of n terms each in [lo, hi] lies in [n * lo, n * hi]. */
  lemma {:induction false} SumAbsBetween(s: seq<real>, lo: real, hi: real)
    requires forall i :: 0 <= i < |s| ==> lo <= Abs(s[i]) <= hi
    ensures Rep(|s|, lo) <= SumAbs(s) <= Rep(|s|, hi)
  {
    if s != [] {
      assert forall i :: 0 <= i < |s[1..]| ==> s[1..][i] == s[i + 1];
      SumAbsBetween(s[1..], lo, hi);
    }
  }

  /** Division of reals, kept out of the larger proofs. */
  lemma QuotientBetween(sum: real, n: real, lo: real, hi: real)
    requires n > 0.0 && n * lo <= sum <= n * hi
    ensures lo <= sum / n <= hi
  {
    assert (sum / n) * n == sum;
  }

  lemma QuotientScales(x: real, y: real)
    requires y > 0.0
    ensures (x / y) * y == x
    ensures x > 0.0 ==> x / y > 0.0
  {
  }

  /** The mean of n magnitudes each in [lo, hi] lies in [lo, hi]. */
  lemma MeanAbsBetween(s: seq<real>, lo: real, hi: real)
    requires s != []
    requires forall i :: 0 <= i < |s| ==> lo <= Abs(s[i]) <= hi
    ensures lo <= SumAbs(s) / |s| as real <= hi
  {
    SumAbsBetween(s, lo, hi);
    RepIsProduct(|s|, lo);
    RepIsProduct(|s|, hi);
    QuotientBetween(SumAbs(s), |s| as real, lo, hi);
  }

  /** The four reductions the dictionary literal computes. */
  function ExtractFeatures(s: seq<real>, nFrames: nat, framerate: nat): (f: Features)
    requires s != [] && framerate > 0
    ensures f.waveform == s && f.framerate == framerate
    ensures f.duration == nFrames as real / framerate as real
    ensures nFrames > 0 ==> f.duration > 0.0
    ensures f.avgAmplitude == SumAbs(s) / |s| as real
    ensures f.peakAmplitude == MaxAbs(s)
    ensures f.dynamicRange == MaxAbs(s) - MinAbs(s)
  {
    QuotientScales(nFrames as real, framerate as real);
    Features(
      waveform := s,
      framerate := framerate,
      duration := nFrames as real / framerate as real,
      avgAmplitude := SumAbs(s) / |s| as real,
      peakAmplitude := MaxAbs(s),
      dynamicRange := MaxAbs(s) - MinAbs(s))
  }

  /** `analyze_audio_features`, with each path to `None` kept apart. */
  function AnalyzeAudioFeatures(audio: seq<byte>, wav: Option<WavReading>): (r: Result<Features, AudioError>)
    ensures audio == [] ==> r == Failure(EmptyInput)
    ensures audio != [] && StartsWithId3(audio) ==> r == Failure(Mp3NotSupported)
    ensures r.Success? <==>
              && audio != [] && !StartsWithId3(audio) && wav.Some?
              && wav.value.nFrames > 0 && wav.value.framerate > 0
              && |wav.value.frames| % 2 == 0 && |wav.value.frames| > 0
    ensures r.Success? ==>
              && r.value.waveform == Samples(wav.value.frames)
              && |r.value.waveform| == |wav.value.frames| / 2 > 0
              && r.value.framerate == wav.value.framerate
              && r.value.duration == wav.value.nFrames as real / wav.value.framerate as real
              && r.value.duration > 0.0
    ensures r.Success? ==>
              r.value == ExtractFeatures(Samples(wav.value.frames), wav.value.nFrames, wav.value.framerate)
  {
    if audio == [] then Failure(EmptyInput)
    else if StartsWithId3(audio) then Failure(Mp3NotSupported)
    else if wav.None? then Failure(InvalidContainer)
    else
      var w := wav.value;
      if w.nFrames == 0 then Failure(NoFrames)
      else if |w.frames| % 2 != 0 then Failure(OddPayload)
      else if w.framerate == 0 then Failure(ZeroFramerate)
      else if |w.frames| == 0 then Failure(NoSamples)
      else
        var f := ExtractFeatures(Samples(w.frames), w.nFrames, w.framerate);
        assert f.duration > 0.0;
        Success(f)
  }

  /** The reductions over a stream whose magnitudes are at most 1. */
  lemma ReductionBounds(s: seq<real>, nFrames: nat, framerate: nat)
    requires s != [] && framerate > 0
    requires forall i :: 0 <= i < |s| ==> Abs(s[i]) <= 1.0
    ensures var f := ExtractFeatures(s, nFrames, framerate);
      && 0.0 <= f.avgAmplitude <= f.peakAmplitude <= 1.0
      && f.dynamicRange == f.peakAmplitude - MinAbs(s)
      && 0.0 <= f.dynamicRange <= f.peakAmplitude
  {
    var f := ExtractFeatures(s, nFrames, framerate);
    var lo, hi := MinAbs(s), MaxAbs(s);
    MeanAbsBetween(s, lo, hi);
    assert f.avgAmplitude == SumAbs(s) / |s| as real;
    assert f.peakAmplitude == hi && f.dynamicRange == hi - lo;
    assert 0.0 <= Abs(s[0]) && lo <= Abs(s[0]);
    var k :| 0 <= k < |s| && Abs(s[k]) == hi;
    assert hi <= 1.0;
    assert 0.0 <= lo by {
      var j :| 0 <= j < |s| && Abs(s[j]) == lo;
    }
  }

  /** The bounds the features satisfy whenever the analysis succeeds:
      0 <= avg <= peak <= 1 and 0 <= dynamic range <= peak, with the dynamic
      range the spread between the largest and the smallest |sample|. */
  lemma FeatureBounds(audio: seq<byte>, wav: Option<WavReading>)
    requires AnalyzeAudioFeatures(audio, wav).Success?
    ensures var f := AnalyzeAudioFeatures(audio, wav).value;
      && 0.0 <= f.avgAmplitude <= f.peakAmplitude <= 1.0
      && f.dynamicRange == f.peakAmplitude - MinAbs(f.waveform)
      && 0.0 <= f.dynamicRange <= f.peakAmplitude
  {
    var w := wav.value;
    var s := Samples(w.frames);
    assert AnalyzeAudioFeatures(audio, wav) == Success(ExtractFeatures(s, w.nFrames, w.framerate));
    SampleBounds(w.frames);
    forall i | 0 <= i < |s|
      ensures Abs(s[i]) <= 1.0
    {
    }
    ReductionBounds(s, w.nFrames, w.framerate);
  }

  /** A stream whose samples all have the same magnitude `c` has average and
      peak `c` and no dynamic range. */
  lemma ConstantMagnitude(s: seq<real>, c: real, nFrames: nat, framerate: nat)
    requires s != [] && framerate > 0
    requires forall i :: 0 <= i < |s| ==> Abs(s[i]) == c
    ensures var f := ExtractFeatures(s, nFrames, framerate);
      f.avgAmplitude == c && f.peakAmplitude == c && f.dynamicRange == 0.0
  {
    MeanAbsBetween(s, c, c);
  }

  /** The duration comes from the header's frame count alone: two payloads
      read under the same header give the same duration, however many
      samples each decodes to. */
  lemma DurationIgnoresPayload(audio: seq<byte>, w1: WavReading, w2: WavReading)
    requires w1.nFrames == w2.nFrames && w1.framerate == w2.framerate
    requires AnalyzeAudioFeatures(audio, Some(w1)).Success?
    requires AnalyzeAudioFeatures(audio, Some(w2)).Success?
    ensures AnalyzeAudioFeatures(audio, Some(w1)).value.duration
         == AnalyzeAudioFeatures(audio, Some(w2)).value.duration
  {
  }
}
