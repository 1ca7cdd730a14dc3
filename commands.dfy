/**
  Command construction. Each editing operation of the audio tool hands the
  FFmpeg engine an argument vector of the form

      -y -i <working file> <filter-specific arguments> <working file>

  so the engine overwrites the working file with its own edited version.
  `Filter` describes the filter-specific part with its numeric parameters
  still as numbers; `Segment` renders it the way the tool's string
  concatenation does, and `Argv` frames it. The builders below apply the
  limiter before a descriptor is made.

  Java renders a `float` with `Float.toString`; that formatting is not
  modelled, and every rendering function takes it as the parameter `fmt`.
 */
module Commands {
  import opened JavaLang
  import opened Limiter
  import opened Wrappers

  /** The echo presets of `applyEchoEffect`. */
  datatype Echo =
    | EchoTwiceInstruments
    | EchoMetallic
    | EchoOpenAir
      /** any other constant, which takes the `default` branch of the switch */
    | OtherEcho

  /** The filter-specific part of one engine invocation. */
  datatype Filter =
      /** `-ss <from> -to <to>`: keep a time range */
    | Trim(from: string, to: string)
      /** gain applied only while `start <= t <= end` (seconds) */
    | WindowedGain(volume: real, start: int, end: int)
      /** gain over the whole file */
    | Gain(volume: real)
    | Loudnorm
      /** the fixed tempo factor 2.0 */
    | Tempo
    | Bass(gain: real, width: real, frequency: int)
    | BandPass(highpass: int, lowpass: int)
      /** stereo phase cancellation, output forced to one channel */
    | VocalCancel
    | Reverse
    | EchoEffect(preset: Echo)
    | Vibrato(rate: real, depth: real)
      /** drop the video stream */
    | AudioOnly

  const MAX_WINDOW_VOLUME: real := 12000.0
  const BASS_GAIN_LIMIT: real := 20.0
  const MAX_FREQUENCY: int := 999999
  /** the lower vibrato bound, the float literal `0.1f` taken as the real 0.1 */
  const MIN_VIBRATO_FREQUENCY: real := 0.1
  const MAX_VIBRATO_FREQUENCY: real := 20000.0

  /** The text around the window ends in the windowed gain argument. */
  const WINDOW_HEAD: string := "volume=enable='between(t,"
  const WINDOW_TAIL: string := ")':volume="

  /** The default two-tap echo. */
  const DEFAULT_ECHO: string := "\"aecho=0.8:0.9:1000|1800:0.3|0.25\""

  /**
    Every number a descriptor carries lies in the range the tool declares
    for it; `seconds` is the length of the file in whole seconds, which
    bounds the window of a windowed gain. Trim and global gain declare no
    range.
   */
  predicate WithinDeclaredRanges(f: Filter, seconds: int)
  {
    match f
    case WindowedGain(volume, start, end) =>
      0.0 <= volume <= MAX_WINDOW_VOLUME && 0 <= start <= seconds && 0 <= end <= seconds
    case Bass(gain, width, frequency) =>
      -BASS_GAIN_LIMIT <= gain <= BASS_GAIN_LIMIT && 0.0 <= width <= 1.0 && 0 <= frequency <= MAX_FREQUENCY
    case BandPass(highpass, lowpass) =>
      0 <= highpass <= MAX_FREQUENCY && 0 <= lowpass <= MAX_FREQUENCY
    case Vibrato(rate, depth) =>
      MIN_VIBRATO_FREQUENCY <= rate <= MAX_VIBRATO_FREQUENCY && 0.0 <= depth <= 1.0
    case _ => true
  }

  /** The `aecho` argument for each preset. */
  function EchoArgument(e: Echo): (s: string)
    ensures e == OtherEcho <==> s == DEFAULT_ECHO
  {
    match e
    case EchoTwiceInstruments => "\"aecho=0.8:0.88:60:0.4\""
    case EchoMetallic => "\"aecho=0.8:0.88:6:0.4\""
    case EchoOpenAir => "\"aecho=0.8:0.9:1000:0.3\""
    case OtherEcho => DEFAULT_ECHO
  }

  /** Distinct presets select distinct echo arguments. */
  lemma EchoArgumentInjective(a: Echo, b: Echo)
    requires EchoArgument(a) == EchoArgument(b)
    ensures a == b
  {
  }

  /** The filter-specific arguments, rendered as the tool concatenates them. */
  function Segment(f: Filter, fmt: real -> string): (s: seq<string>)
    ensures |s| >= 1
  {
    match f
    case Trim(from, to) => ["-ss", from, "-to", to]
    case WindowedGain(volume, start, end) =>
      ["-af", WINDOW_HEAD + Decimal(start) + "," + Decimal(end) + WINDOW_TAIL + fmt(volume)]
    case Gain(volume) => ["-filter:a", "\"volume=" + fmt(volume) + "\""]
    case Loudnorm => ["-filter:a", "loudnorm"]
    case Tempo => ["-filter:a", "\"atempo=2.0\""]
    case Bass(gain, width, frequency) =>
      ["-af", "bass=g=" + fmt(gain) + ":w=" + fmt(width) + ":f=" + Decimal(frequency)]
    case BandPass(highpass, lowpass) =>
      ["-af", "\"highpass=f=" + Decimal(highpass) + ", lowpass=f=" + Decimal(lowpass) + "\""]
    case VocalCancel => ["-af", "pan=\"stereo|c0=c0|c1=-1*c1\"", "-ac", "1"]
    case Reverse => ["-map", "0", "-c:v", "copy", "-af", "\"areverse\""]
    case EchoEffect(preset) => ["-filter_complex", EchoArgument(preset)]
    case Vibrato(rate, depth) => ["-filter_complex", "vibrato=f=" + fmt(rate) + ":d=" + fmt(depth)]
    case AudioOnly => ["-vn"]
  }

  /**
    An argument vector that edits one file in place: it starts with the
    overwrite flag and `-i <file>`, carries at least one argument of its
    own, and names the same file as output.
   */
  predicate IsInPlaceEdit(a: seq<string>)
  {
    |a| >= 5 && a[0] == "-y" && a[1] == "-i" && a[|a| - 1] == a[2]
  }

  /** The complete argument vector of one editing operation on `path`. */
  function Argv(path: string, f: Filter, fmt: real -> string): (a: seq<string>)
    ensures IsInPlaceEdit(a) && a[2] == path
    ensures a[3..|a| - 1] == Segment(f, fmt)
  {
    ["-y", "-i", path] + Segment(f, fmt) + [path]
  }

  /** The integer `cutAudio`: both offsets are rendered unchanged, with no limiting. */
  function CutSecondsFilter(start: int32, end: int32): (f: Filter)
    ensures f.Trim?
    ensures ParseDecimal(f.from) == Some(start) && ParseDecimal(f.to) == Some(end)
  {
    DecimalRoundTrip(start);
    DecimalRoundTrip(end);
    Trim(Decimal(start), Decimal(end))
  }

  /**
    The windowed `changeAudioVolume`: the volume is limited to [0, 12000]
    and each end of the window, independently, to [0, the length in whole
    seconds]. The length is `durationMillis` after the cast to `int`, so it
    must fit an `int`.
   */
  function WindowedVolumeFilter(volume: real, start: int32, end: int32, durationMillis: int64): (f: Filter)
    requires 0 <= durationMillis <= INT32_MAX
    ensures f.WindowedGain? && WithinDeclaredRanges(f, durationMillis / 1000)
    ensures 0.0 <= volume <= MAX_WINDOW_VOLUME ==> f.volume == volume
    ensures 0 <= start <= durationMillis / 1000 ==> f.start == start
    ensures 0 <= end <= durationMillis / 1000 ==> f.end == end
    ensures volume < 0.0 ==> f.volume == 0.0
    ensures MAX_WINDOW_VOLUME < volume ==> f.volume == MAX_WINDOW_VOLUME
    ensures start < 0 ==> f.start == 0
    ensures end < 0 ==> f.end == 0
    ensures durationMillis / 1000 < start ==> f.start == durationMillis / 1000
    ensures durationMillis / 1000 < end ==> f.end == durationMillis / 1000
    ensures start <= end ==> f.start <= f.end
  {
    var seconds := Quot(durationMillis, 1000);
    ClampMonotone(0, seconds, start, end);
    WindowedGain(ClampReal(0.0, MAX_WINDOW_VOLUME, volume), Clamp(0, seconds, start), Clamp(0, seconds, end))
  }

  /** The two ends are limited separately, so a reversed window stays reversed. */
  lemma WindowMayStayReversed()
    ensures var f := WindowedVolumeFilter(1.0, 8, 3, 10000); f.start == 8 && f.end == 3
  {
  }

  /** `changeAudioBass`: gain to [-20, 20], width to [0, 1], frequency to [0, 999999]. */
  function BassFilter(gain: real, width: real, frequency: int32): (f: Filter)
    ensures f.Bass? && WithinDeclaredRanges(f, 0)
    ensures -BASS_GAIN_LIMIT <= gain <= BASS_GAIN_LIMIT ==> f.gain == gain
    ensures 0.0 <= width <= 1.0 ==> f.width == width
    ensures 0 <= frequency <= MAX_FREQUENCY ==> f.frequency == frequency
    ensures gain < -BASS_GAIN_LIMIT ==> f.gain == -BASS_GAIN_LIMIT
    ensures BASS_GAIN_LIMIT < gain ==> f.gain == BASS_GAIN_LIMIT
    ensures width < 0.0 ==> f.width == 0.0
    ensures 1.0 < width ==> f.width == 1.0
    ensures frequency < 0 ==> f.frequency == 0
    ensures MAX_FREQUENCY < frequency ==> f.frequency == MAX_FREQUENCY
  {
    Bass(ClampReal(-BASS_GAIN_LIMIT, BASS_GAIN_LIMIT, gain), ClampReal(0.0, 1.0, width), Clamp(0, MAX_FREQUENCY, frequency))
  }

  /** `filterAudio`: both cut-off frequencies to [0, 999999]. */
  function BandPassFilter(highpass: int32, lowpass: int32): (f: Filter)
    ensures f.BandPass? && WithinDeclaredRanges(f, 0)
    ensures 0 <= highpass <= MAX_FREQUENCY ==> f.highpass == highpass
    ensures 0 <= lowpass <= MAX_FREQUENCY ==> f.lowpass == lowpass
    ensures highpass < 0 ==> f.highpass == 0
    ensures lowpass < 0 ==> f.lowpass == 0
    ensures MAX_FREQUENCY < highpass ==> f.highpass == MAX_FREQUENCY
    ensures MAX_FREQUENCY < lowpass ==> f.lowpass == MAX_FREQUENCY
  {
    BandPass(Clamp(0, MAX_FREQUENCY, highpass), Clamp(0, MAX_FREQUENCY, lowpass))
  }

  /** `removeAudioNoise` passes 400 Hz and 4000 Hz, which the limiter leaves alone. */
  lemma NoiseRemovalBand()
    ensures BandPassFilter(400, 4000) == BandPass(400, 4000)
  {
  }

  /** `applyVibratoEffect`: frequency to [0.1, 20000], depth to [0, 1]. */
  function VibratoFilter(frequency: real, depth: real): (f: Filter)
    ensures f.Vibrato? && WithinDeclaredRanges(f, 0)
    ensures MIN_VIBRATO_FREQUENCY <= frequency <= MAX_VIBRATO_FREQUENCY ==> f.rate == frequency
    ensures 0.0 <= depth <= 1.0 ==> f.depth == depth
    ensures frequency < MIN_VIBRATO_FREQUENCY ==> f.rate == MIN_VIBRATO_FREQUENCY
    ensures MAX_VIBRATO_FREQUENCY < frequency ==> f.rate == MAX_VIBRATO_FREQUENCY
    ensures depth < 0.0 ==> f.depth == 0.0
    ensures 1.0 < depth ==> f.depth == 1.0
  {
    Vibrato(ClampReal(MIN_VIBRATO_FREQUENCY, MAX_VIBRATO_FREQUENCY, frequency), ClampReal(0.0, 1.0, depth))
  }

  /**
    Limiting is idempotent at the level of whole descriptors: feeding the
    numbers of a built descriptor back into its builder reproduces it.
   */
  lemma BuildersIdempotent(gain: real, width: real, frequency: int32, highpass: int32, lowpass: int32, vf: real, depth: real)
    ensures var b := BassFilter(gain, width, frequency); BassFilter(b.gain, b.width, b.frequency as int32) == b
    ensures var p := BandPassFilter(highpass, lowpass); BandPassFilter(p.highpass as int32, p.lowpass as int32) == p
    ensures var v := VibratoFilter(vf, depth); VibratoFilter(v.rate, v.depth) == v
  {
  }

  /**
    The limiting survives rendering: the window ends written into the
    argument of a windowed gain read back as the limited, in-range numbers.
   */
  lemma WindowedGainTextInRange(volume: real, start: int32, end: int32, durationMillis: int64, fmt: real -> string)
    requires 0 <= durationMillis <= INT32_MAX
    ensures var f := WindowedVolumeFilter(volume, start, end, durationMillis);
      exists a, b ::
        && Segment(f, fmt)[1] == WINDOW_HEAD + a + "," + b + WINDOW_TAIL + fmt(f.volume)
        && ParseDecimal(a) == Some(f.start) && 0 <= f.start <= durationMillis / 1000
        && ParseDecimal(b) == Some(f.end) && 0 <= f.end <= durationMillis / 1000
  {
    var f := WindowedVolumeFilter(volume, start, end, durationMillis);
    DecimalRoundTrip(f.start);
    DecimalRoundTrip(f.end);
    var a, b := Decimal(f.start), Decimal(f.end);
    assert Segment(f, fmt)[1] == WINDOW_HEAD + a + "," + b + WINDOW_TAIL + fmt(f.volume);
  }

  /** The bass frequency written into the argument reads back in [0, 999999]. */
  lemma BassTextInRange(gain: real, width: real, frequency: int32, fmt: real -> string)
    ensures var f := BassFilter(gain, width, frequency);
      exists n ::
        && Segment(f, fmt)[1] == "bass=g=" + fmt(f.gain) + ":w=" + fmt(f.width) + ":f=" + n
        && ParseDecimal(n) == Some(f.frequency) && 0 <= f.frequency <= MAX_FREQUENCY
  {
    var f := BassFilter(gain, width, frequency);
    DecimalRoundTrip(f.frequency);
    var n := Decimal(f.frequency);
    assert Segment(f, fmt)[1] == "bass=g=" + fmt(f.gain) + ":w=" + fmt(f.width) + ":f=" + n;
  }

  /** Both cut-off frequencies written into the argument read back in [0, 999999]. */
  lemma BandPassTextInRange(highpass: int32, lowpass: int32, fmt: real -> string)
    ensures var f := BandPassFilter(highpass, lowpass);
      exists h, l ::
        && Segment(f, fmt)[1] == "\"highpass=f=" + h + ", lowpass=f=" + l + "\""
        && ParseDecimal(h) == Some(f.highpass) && 0 <= f.highpass <= MAX_FREQUENCY
        && ParseDecimal(l) == Some(f.lowpass) && 0 <= f.lowpass <= MAX_FREQUENCY
  {
    var f := BandPassFilter(highpass, lowpass);
    DecimalRoundTrip(f.highpass);
    DecimalRoundTrip(f.lowpass);
    var h, l := Decimal(f.highpass), Decimal(f.lowpass);
    assert Segment(f, fmt)[1] == "\"highpass=f=" + h + ", lowpass=f=" + l + "\"";
  }
}
