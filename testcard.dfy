/**
 * The testcard capture module: the audio sample-count cadence that keeps
 * embedded 48 kHz audio in step with the video rate, the ring of audio
 * data the grab walks, the format and option parsing of its init string,
 * and the mode table it advertises.
 */
module Testcard {
  import opened Wrappers
  import opened CStrings
  import opened Video

  // ---------------------------------------------------------------------
  // Audio cadence
  // ---------------------------------------------------------------------

  const AUDIO_SAMPLE_RATE: nat := 48000
  const AUDIO_BPS: nat := 2
  const BUFFER_SEC: nat := 1

  /** `AUDIO_BUFFER_SIZE(ch_count)`: one second of audio, in bytes. */
  function AudioBufferSize(channels: nat): nat
  {
    AUDIO_SAMPLE_RATE * AUDIO_BPS * channels * BUFFER_SEC
  }

  /** Samples per frame for 30000/1001, 60000/1001 and 120000/1001 frames per second. */
  const PATTERN_2997: seq<nat> := [1602, 1601, 1602, 1601, 1602]
  const PATTERN_5994: seq<nat> := [801, 801, 800, 801, 801]
  const PATTERN_11988: seq<nat> := [400, 401, 400, 401, 400]

  /** `struct audio_len_pattern`: the first `count` of the five `samples` are the cadence. */
  datatype AudioPattern = AudioPattern(count: nat, samples: seq<nat>, currentIdx: nat)
  {
    predicate Valid() { 1 <= count <= |samples| == 5 && currentIdx < count }

    /** Every frame's audio fits in the one-second buffer. */
    predicate SamplesFit()
    {
      forall i :: 0 <= i < |samples| ==> samples[i] <= AUDIO_SAMPLE_RATE * BUFFER_SEC
    }
  }

  function Sum(s: seq<nat>): nat
  {
    if s == [] then 0 else Sum(s[..|s| - 1]) + s[|s| - 1]
  }

  /** Over one cycle of the pattern, exactly 48000 samples go with each second of video. */
  predicate ExactCadence(p: AudioPattern, vnum: nat, vden: nat)
  {
    p.count <= |p.samples| && Sum(p.samples[..p.count]) * vnum == AUDIO_SAMPLE_RATE * vden * p.count
  }

  lemma SumOfOne(a: nat)
    ensures Sum([a]) == a
  {
    assert [a][..0] == [];
  }

  lemma SumOfFive(a: nat, b: nat, c: nat, d: nat, e: nat)
    ensures Sum([a, b, c, d, e]) == a + b + c + d + e
  {
    SumOfOne(a);
    assert [a, b][..1] == [a];
    assert Sum([a, b]) == a + b;
    assert [a, b, c][..2] == [a, b];
    assert Sum([a, b, c]) == a + b + c;
    assert [a, b, c, d][..3] == [a, b, c];
    assert Sum([a, b, c, d]) == a + b + c + d;
    assert [a, b, c, d, e][..4] == [a, b, c, d];
  }

  /** The three five-frame cadences add up to 8008, 4004 and 2002 samples. */
  lemma CadenceSums()
    ensures Sum(PATTERN_2997) == 8008 && Sum(PATTERN_5994) == 4004 && Sum(PATTERN_11988) == 2002
  {
    SumOfFive(1602, 1601, 1602, 1601, 1602);
    SumOfFive(801, 801, 800, 801, 801);
    SumOfFive(400, 401, 400, 401, 400);
  }

  /** A whole quotient times the divisor gives back the dividend. */
  lemma ExactQuotient(a: nat, b: nat)
    requires b > 0 && a % b == 0
    ensures a / b * b == a
  {
  }

  /**
   * `configure_audio` as the source has it, for a rate of `vnum / vden`
   * frames per second: one sample count when 48000 * vden / vnum is
   * whole, a five-frame cadence for the three NTSC-style rates, and no
   * audio otherwise.
   */
  function ConfigureAudioAsWritten(vnum: nat, vden: nat): (r: Option<AudioPattern>)
    requires vnum > 0
    ensures r.Some? ==> r.value.Valid() && r.value.currentIdx == 0 && ExactCadence(r.value, vnum, vden)
    ensures r.None? <==> (AUDIO_SAMPLE_RATE * vden) % vnum != 0 && !(vden == 1001 && vnum in {30000, 60000, 120000})
    ensures (AUDIO_SAMPLE_RATE * vden) % vnum == 0 ==> r.Some? && r.value.count == 1
  {
    CadenceSums();
    assert PATTERN_2997[..5] == PATTERN_2997 && PATTERN_5994[..5] == PATTERN_5994 && PATTERN_11988[..5] == PATTERN_11988;
    if (AUDIO_SAMPLE_RATE * vden) % vnum == 0 then
      var single := [AUDIO_SAMPLE_RATE * vden / vnum, 0, 0, 0, 0];
      assert single[..1] == [single[0]];
      SumOfOne(single[0]);
      ExactQuotient(AUDIO_SAMPLE_RATE * vden, vnum);
      Some(AudioPattern(1, single, 0))
    else if vden == 1001 && vnum == 30000 then Some(AudioPattern(5, PATTERN_2997, 0))
    else if vden == 1001 && vnum == 60000 then Some(AudioPattern(5, PATTERN_5994, 0))
    else if vden == 1001 && vnum == 120000 then Some(AudioPattern(5, PATTERN_11988, 0))
    else None
  }

  /**
   * `configure_audio` with the rates below one frame per second refused:
   * for them one frame's audio is longer than the buffer.
   */
  function ConfigureAudio(vnum: nat, vden: nat): (r: Option<AudioPattern>)
    requires vnum > 0
    ensures r.Some? ==> r.value.Valid() && r.value.currentIdx == 0 && ExactCadence(r.value, vnum, vden)
    ensures r.Some? ==> r.value.SamplesFit()
    ensures r.None? <==> ConfigureAudioAsWritten(vnum, vden).None? || vden > vnum
    ensures r.Some? ==> r == ConfigureAudioAsWritten(vnum, vden)
  {
    if vden > vnum then None
    else
      var r := ConfigureAudioAsWritten(vnum, vden);
      assert r.Some? && r.value.count == 1 ==> r.value.samples[0] <= AUDIO_SAMPLE_RATE by {
        if r.Some? && r.value.count == 1 && (AUDIO_SAMPLE_RATE * vden) % vnum == 0 {
          assert AUDIO_SAMPLE_RATE * vden <= AUDIO_SAMPLE_RATE * vnum;
          DivBound(AUDIO_SAMPLE_RATE * vden, vnum, AUDIO_SAMPLE_RATE);
        }
      }
      r
  }

  lemma DivBound(a: nat, b: nat, c: nat)
    requires b > 0 && a <= c * b
    ensures a / b <= c
  {
  }

  /** Where the audio pointer is after a grab: one frame further, moved back by one buffer once past it. */
  function AdvanceAudio(offset: int, p: AudioPattern, channels: nat): (next: int)
    requires p.Valid()
  {
    var advanced := offset + channels * AUDIO_BPS * p.samples[p.currentIdx];
    if advanced >= AudioBufferSize(channels) then advanced - AudioBufferSize(channels) else advanced
  }

  /** The audio a grab hands out lies inside the twice-one-second allocation, starting in its first half. */
  predicate AudioInBuffer(offset: int, dataLen: int, channels: nat)
  {
    0 <= offset < AudioBufferSize(channels) && 0 <= dataLen && offset + dataLen <= 2 * AudioBufferSize(channels)
  }

  /** One frame's audio of at most a second is at most a buffer. */
  lemma FrameWithinBuffer(channels: nat, samples: nat)
    requires samples <= AUDIO_SAMPLE_RATE * BUFFER_SEC
    ensures channels * AUDIO_BPS * samples <= AudioBufferSize(channels)
  {
    assert channels * AUDIO_BPS * samples == (channels * AUDIO_BPS) * samples;
    assert AudioBufferSize(channels) == (channels * AUDIO_BPS) * AUDIO_SAMPLE_RATE;
  }

  /** A grab of at most a second, followed by at most a second, stays inside the buffer. */
  lemma StepInBuffer(offset: int, dataLen: int, channels: nat, p: AudioPattern, nextSamples: nat)
    requires p.Valid() && AudioInBuffer(offset, dataLen, channels)
    requires p.samples[p.currentIdx] <= AUDIO_SAMPLE_RATE * BUFFER_SEC && nextSamples <= AUDIO_SAMPLE_RATE * BUFFER_SEC
    ensures AudioInBuffer(AdvanceAudio(offset, p, channels), channels * AUDIO_BPS * nextSamples, channels)
  {
    FrameWithinBuffer(channels, p.samples[p.currentIdx]);
    FrameWithinBuffer(channels, nextSamples);
  }

  /**
   * The audio part of `vidcap_testcard_grab`, on the state `configure_audio`
   * leaves: `offset` is `audio.data - audio_data`.
   */
  class AudioGrabber {
    const channels: nat
    var pattern: AudioPattern
    var offset: int
    var dataLen: int

    constructor (channelCount: nat, p: AudioPattern)
      requires channelCount > 0 && p.Valid()
      ensures channels == channelCount && pattern == p && offset == 0 && dataLen == 0
      ensures AudioInBuffer(offset, dataLen, channels)
    {
      channels := channelCount;
      pattern := p;
      offset := 0;
      dataLen := 0;
    }

    /**
     * One grab: the audio pointer moves past the frame's samples and wraps
     * once, the pattern index moves on modulo `count`, and the new length
     * is the next frame's. With every sample count within one second, the
     * data stays inside the buffer.
     */
    method GrabAudio()
      requires pattern.Valid()
      modifies this`pattern, this`offset, this`dataLen
      ensures pattern == old(pattern).(currentIdx := (old(pattern.currentIdx) + 1) % old(pattern.count))
      ensures pattern.Valid() && offset == AdvanceAudio(old(offset), old(pattern), channels)
      ensures dataLen == channels * AUDIO_BPS * pattern.samples[pattern.currentIdx]
      ensures AudioInBuffer(old(offset), old(dataLen), channels) && pattern.SamplesFit() ==>
        AudioInBuffer(offset, dataLen, channels)
    {
      if AudioInBuffer(offset, dataLen, channels) && pattern.SamplesFit() {
        StepInBuffer(offset, dataLen, channels, pattern, pattern.samples[(pattern.currentIdx + 1) % pattern.count]);
      }
      offset := offset + channels * AUDIO_BPS * pattern.samples[pattern.currentIdx];
      pattern := pattern.(currentIdx := (pattern.currentIdx + 1) % pattern.count);
      dataLen := channels * AUDIO_BPS * pattern.samples[pattern.currentIdx];
      if offset >= AudioBufferSize(channels) {
        offset := offset - AudioBufferSize(channels);
      }
    }
  }

  /**
   * At 0.5 frames per second (1/2) the source configures 96000 samples
   * per frame; from the start of the buffer the first grab leaves the
   * pointer a whole buffer in, and hands out audio reaching a buffer past
   * the allocation.
   */
  lemma HalfFpsOverrunsBuffer(channels: nat)
    requires channels > 0
    ensures ConfigureAudioAsWritten(1, 2).Some?
    ensures var p := ConfigureAudioAsWritten(1, 2).value;
      && p.samples[0] == 96000 && !p.SamplesFit()
      && AdvanceAudio(0, p, channels) == AudioBufferSize(channels)
      && !AudioInBuffer(AdvanceAudio(0, p, channels), channels * AUDIO_BPS * p.samples[0], channels)
    ensures ConfigureAudio(1, 2).None?
  {
  }

  /** Every cadence the corrected configuration yields keeps the grab inside the buffer. */
  lemma ConfiguredCadenceStaysInBuffer(vnum: nat, vden: nat, channels: nat, offset: int, dataLen: int)
    requires vnum > 0 && channels > 0 && ConfigureAudio(vnum, vden).Some?
    requires AudioInBuffer(offset, dataLen, channels)
    ensures var p := ConfigureAudio(vnum, vden).value;
      var next := p.(currentIdx := (p.currentIdx + 1) % p.count);
      AudioInBuffer(AdvanceAudio(offset, p, channels), channels * AUDIO_BPS * next.samples[next.currentIdx], channels)
  {
    var p := ConfigureAudio(vnum, vden).value;
    var next := p.(currentIdx := (p.currentIdx + 1) % p.count);
    StepInBuffer(offset, dataLen, channels, p, next.samples[next.currentIdx]);
  }

  // ---------------------------------------------------------------------
  // Format parsing
  // ---------------------------------------------------------------------

  /** The lookups of other modules the parsers call, given as functions. */
  datatype Names = Names(
    codecFromName: string -> Codec,          // get_codec_from_name
    hasConversion: Codec -> bool,            // testcard_has_conversion
    interlacingFromSuffix: string -> Interlacing,  // get_interlacing_from_suffix
    descFromString: string -> VideoDesc)     // get_video_desc_from_string

  datatype FpsSetting = FpsSetting(fps: Fps, interlacing: Interlacing)

  /**
   * `parse_fps`: the number, then an optional suffix naming the
   * interlacing. Only progressive, segmented-frame and interlaced-merged
   * are accepted; interlaced-merged halves the rate.
   */
  function ParseFps(s: string, names: Names): (r: Option<FpsSetting>)
    ensures var d := Strtod(s);
      var interlacing := if d.rest == [] then Progressive else names.interlacingFromSuffix(d.rest);
      && (r.Some? <==> interlacing in {Progressive, SegmentedFrame, InterlacedMerged})
      && (r.Some? ==> r.value.interlacing == interlacing)
      && (r.Some? ==> r.value.fps == if interlacing == InterlacedMerged then Fps(d.num, 2 * d.den) else Fps(d.num, d.den))
  {
    var d := Strtod(s);
    var interlacing := if d.rest == [] then Progressive else names.interlacingFromSuffix(d.rest);
    if interlacing !in {Progressive, SegmentedFrame, InterlacedMerged} then None
    else if interlacing == InterlacedMerged then Some(FpsSetting(Fps(d.num, d.den).Half(), interlacing))
    else Some(FpsSetting(Fps(d.num, d.den), interlacing))
  }

  /** "50i" is 25 interlaced frames per second: 50 fields. */
  lemma FiftyInterlaced(names: Names)
    requires names.interlacingFromSuffix("i") == InterlacedMerged
    ensures ParseFps("50i", names) == Some(FpsSetting(Fps(50, 2), InterlacedMerged))
  {
    assert NatToString(50) + "i" == "50i";
    StrtodOfNatToString(50, "i");
  }

  /** A side of the format: `strtol` with negative values clamped to 0, stored in an `unsigned int`. */
  function Dimension(tok: string): U32
  {
    ToU32(Max(Strtol(tok).value, 0))
  }

  /**
   * `parse_format`: width, height, rate and pixel format from the first
   * four tokens. A missing token, a zero area (a negative side counts as
   * 0; the product is taken in `unsigned int`), an unusable rate or an
   * unknown or unconvertible codec all give the zero description.
   */
  function ParseFormat(toks: seq<string>, names: Names): (d: VideoDesc)
    ensures d != ZERO_DESC ==>
      && |toks| >= 4 && d.tileCount == 1
      && d.width == Dimension(toks[0]) && d.height == Dimension(toks[1])
      && MulU32(d.width, d.height) != 0 && d.width > 0 && d.height > 0
      && ParseFps(toks[2], names).Some? && d.fps == ParseFps(toks[2], names).value.fps
      && d.interlacing == ParseFps(toks[2], names).value.interlacing
      && d.colorSpec == names.codecFromName(toks[3]) && d.colorSpec != CodecNone && names.hasConversion(d.colorSpec)
  {
    if |toks| < 2 then ZERO_DESC
    else
      var width := Dimension(toks[0]);
      var height := Dimension(toks[1]);
      if MulU32(width, height) == 0 || |toks| < 3 then ZERO_DESC
      else match ParseFps(toks[2], names)
        case None => ZERO_DESC
        case Some(setting) =>
          if |toks| < 4 then ZERO_DESC
          else
            var codec := names.codecFromName(toks[3]);
            if codec == CodecNone || !names.hasConversion(codec) then ZERO_DESC
            else VideoDesc(width, height, codec, setting.fps, setting.interlacing, 1)
  }

  /** Four tokens that pass every check give a format. */
  lemma ParseFormatAccepts(toks: seq<string>, names: Names)
    requires |toks| >= 4 && MulU32(Dimension(toks[0]), Dimension(toks[1])) != 0 && ParseFps(toks[2], names).Some?
    requires names.codecFromName(toks[3]) != CodecNone && names.hasConversion(names.codecFromName(toks[3]))
    ensures ParseFormat(toks, names).tileCount == 1
  {
  }

  /** A negative side is clamped to 0, so the format is refused. */
  lemma NegativeSideRefused(toks: seq<string>, names: Names)
    requires |toks| >= 2 && Strtol(toks[0]).value < 0
    ensures ParseFormat(toks, names) == ZERO_DESC
  {
    assert Dimension(toks[0]) == 0;
  }

  // ---------------------------------------------------------------------
  // Options
  // ---------------------------------------------------------------------

  /** `DEFAULT_FORMAT`: 1920 x 1080 UYVY at 25 interlaced frames per second. */
  const DEFAULT_FORMAT: VideoDesc := VideoDesc(1920, 1080, UYVY, Fps(25, 1), InterlacedMerged, 1)

  /** What the init string of the testcard sets. */
  datatype Config = Config(
    desc: VideoDesc, pan: nat, filename: Option<string>, stripFormat: Option<string>,
    still: bool, pattern: string, audioFrequency: int, pixfmtDefault: bool)

  const DEFAULT_CONFIG: Config := Config(DEFAULT_FORMAT, 0, None, None, false, "bars", 1000, true)

  /** `strncpy` into the 128-byte `pattern` buffer keeps at most 127 characters. */
  function PatternName(s: string): (r: string)
    ensures |r| <= 127 && r <= s
  {
    if |s| <= 127 then s else s[..127]
  }

  predicate StartsWith(tok: string, p: string) { p <= tok }

  datatype Step = Next(config: Config) | Fail

  /** One token of `vidcap_testcard_init`'s option loop; a value starts after the key's `=`. */
  function ApplyOption(c: Config, tok: string, names: Names): (r: Step)
  {
    if tok == "p" then Next(c.(pan := 48))
    else if StartsWith(tok, "file=") then Next(c.(filename := Some(tok[5..])))
    else if StartsWith(tok, "filename=") then Next(c.(filename := Some(tok[9..])))
    else if StartsWith(tok, "s=") then Next(c.(stripFormat := Some(tok)))
    else if tok == "i" then Next(c.(desc := c.desc.(interlacing := InterlacedMerged)))
    else if tok == "sf" then Next(c.(desc := c.desc.(interlacing := SegmentedFrame)))
    else if tok == "still" then Next(c.(still := true))
    else if StartsWith(tok, "pattern=") then Next(c.(pattern := PatternName(tok[8..])))
    else if StartsWith(tok, "codec=") then Next(c.(desc := c.desc.(colorSpec := names.codecFromName(tok[6..])), pixfmtDefault := false))
    else if StartsWith(tok, "mode=") then Next(c.(desc := names.descFromString(tok[5..]).(colorSpec := c.desc.colorSpec)))
    else if StartsWith(tok, "size=") && 'x' in tok then Next(SetSize(c, tok))
    else if StartsWith(tok, "fps=") then
      match ParseFps(tok[4..], names)
      case None => Fail
      case Some(setting) => Next(c.(desc := c.desc.(fps := setting.fps, interlacing := setting.interlacing)))
    else if StartsWith(tok, "afrequency=") then Next(c.(audioFrequency := Atoi(tok[11..])))
    else Fail
  }

  /** "mode=" replaces the whole format but keeps the pixel format chosen so far. */
  lemma ModeKeepsCodec(c: Config, tok: string, names: Names)
    requires StartsWith(tok, "mode=")
    ensures ApplyOption(c, tok, names) == Next(c.(desc := names.descFromString(tok[5..]).(colorSpec := c.desc.colorSpec)))
    ensures ApplyOption(c, tok, names).config.desc.colorSpec == c.desc.colorSpec
  {
    assert tok[0] == 'm';
  }

  /** "size=": the width from after the `=`, the height from after the first `x`, each by `atoi`. */
  function SetSize(c: Config, tok: string): Config
    requires StartsWith(tok, "size=") && 'x' in tok
  {
    c.(desc := c.desc.(width := ToU32(Atoi(tok[5..])), height := ToU32(Atoi(After(tok, 'x')))))
  }

  function SizeToken(w: nat, h: nat): string
  {
    "size=" + (NatToString(w) + "x" + NatToString(h))
  }

  /** "size=WxH" with decimal W and H sets both sides and nothing else. */
  lemma SizeSetsBothSides(c: Config, w: nat, h: nat, names: Names)
    ensures ApplyOption(c, SizeToken(w, h), names) == Next(c.(desc := c.desc.(width := ToU32(w), height := ToU32(h))))
  {
    SizeDispatch(c, NatToString(w) + "x" + NatToString(h), names);
    SizeOfNumbers(c, w, h);
  }

  lemma SizeDispatch(c: Config, rest: string, names: Names)
    requires 'x' in rest
    ensures StartsWith("size=" + rest, "size=") && 'x' in "size=" + rest
    ensures ApplyOption(c, "size=" + rest, names) == Next(SetSize(c, "size=" + rest))
  {
    var tok := "size=" + rest;
    assert tok[0] == 's' && tok[1] == 'i' && tok[..5] == "size=";
    assert tok != "p" && tok != "i" && tok != "sf" && tok != "still";
    assert !StartsWith(tok, "file=") && !StartsWith(tok, "filename=") && !StartsWith(tok, "s=");
    assert !StartsWith(tok, "pattern=") && !StartsWith(tok, "codec=") && !StartsWith(tok, "mode=");
    var i :| 0 <= i < |rest| && rest[i] == 'x';
    assert tok[5 + i] == 'x';
  }

  lemma SizeOfNumbers(c: Config, w: nat, h: nat)
    ensures StartsWith(SizeToken(w, h), "size=") && 'x' in SizeToken(w, h)
    ensures SetSize(c, SizeToken(w, h)) == c.(desc := c.desc.(width := ToU32(w), height := ToU32(h)))
  {
    SizeWidth(w, h);
    SizeHeight(w, h);
  }

  lemma SizeWidth(w: nat, h: nat)
    ensures |SizeToken(w, h)| >= 5 && Atoi(SizeToken(w, h)[5..]) == w
  {
    assert SizeToken(w, h)[5..] == NatToString(w) + ("x" + NatToString(h));
    AtoiOfNumberThen(w, "x" + NatToString(h));
  }

  lemma SizeHeight(w: nat, h: nat)
    ensures 'x' in SizeToken(w, h) && Atoi(After(SizeToken(w, h), 'x')) == h
  {
    var front := "size=" + NatToString(w);
    assert SizeToken(w, h) == front + ['x'] + NatToString(h);
    assert 'x' !in NatToString(w) && 'x' !in "size=";
    assert 'x' !in front;
    AfterFirst(front, 'x', NatToString(h));
    AtoiOfNatToString(h);
  }

  /** The options in order, stopping at the first that fails. */
  function RunOptions(c: Config, toks: seq<string>, names: Names): Step
    decreases |toks|
  {
    if toks == [] then Next(c)
    else match ApplyOption(c, toks[0], names)
      case Next(c') => RunOptions(c', toks[1..], names)
      case Fail => Fail
  }

  /** An option that fails, after options that are all accepted, fails the loop. */
  lemma {:induction false} FirstBadOptionFails(c: Config, toks: seq<string>, names: Names, k: nat)
    requires k < |toks|
    requires forall c' :: ApplyOption(c', toks[k], names).Fail?
    requires forall i, c' :: 0 <= i < k ==> ApplyOption(c', toks[i], names).Next?
    ensures RunOptions(c, toks, names).Fail?
    decreases k
  {
    if k > 0 {
      assert ApplyOption(c, toks[0], names).Next?;
      FirstBadOptionFails(ApplyOption(c, toks[0], names).config, toks[1..], names, k - 1);
    }
  }

  /** A token the loop does not know fails whatever the configuration so far. */
  lemma UnknownOptionFails(c: Config, tok: string, names: Names)
    requires tok !in {"p", "i", "sf", "still"}
    requires forall p :: p in {"file=", "filename=", "s=", "pattern=", "codec=", "mode=", "fps=", "afrequency=", "size="} ==> !StartsWith(tok, p)
    ensures ApplyOption(c, tok, names) == Fail
  {
    assert !StartsWith(tok, "file=") && !StartsWith(tok, "filename=") && !StartsWith(tok, "s=");
    assert !StartsWith(tok, "pattern=") && !StartsWith(tok, "codec=") && !StartsWith(tok, "mode=");
    assert !StartsWith(tok, "fps=") && !StartsWith(tok, "afrequency=") && !StartsWith(tok, "size=");
  }

  /** The final check of the options: a codec, a non-empty size and a positive rate. */
  predicate UsableFormat(d: VideoDesc)
  {
    d.colorSpec != CodecNone && d.width > 0 && d.height > 0 && d.fps.num > 0
  }

  datatype InitOutcome = Help | InitFailed | Started(config: Config, audio: Option<AudioPattern>)

  /**
   * What `get_framerate_n` and `get_framerate_d` make of a positive rate:
   * a numerator and a denominator, the numerator positive.
   */
  type Framerate = f: Fps | f.num > 0 witness Fps(1, 1)

  /** The audio cadence `configure_audio` sets up for the rate `v`: the source's, or with rates below 1 fps refused. */
  function AudioFor(v: Framerate, asWritten: bool): Option<AudioPattern>
  {
    if asWritten then ConfigureAudioAsWritten(v.num, v.den) else ConfigureAudio(v.num, v.den)
  }

  /**
   * `vidcap_testcard_init` up to the capture set-up: help, the optional
   * leading format, the options, the final checks (a format that cannot
   * be used and the no longer supported stripping both fail), and, when
   * the capture is asked for audio (`VIDCAP_FLAG_AUDIO_ANY`), the audio
   * cadence, whose absence fails the whole initialisation. `framerate`
   * stands for `get_framerate_n` and `get_framerate_d`.
   */
  function Init(fmt: string, names: Names, audioAny: bool, framerate: Fps -> Framerate, asWritten: bool): (r: InitOutcome)
    ensures r.Started? ==> UsableFormat(r.config.desc) && r.config.stripFormat.None?
    ensures r == Help <==> fmt == "help" || fmt == "fullhelp"
    ensures r.Started? ==> (r.audio.Some? <==> audioAny)
    ensures r.Started? && audioAny ==>
      var v := framerate(r.config.desc.fps);
      && r.audio == AudioFor(v, asWritten)
      && r.audio.value.Valid() && ExactCadence(r.audio.value, v.num, v.den)
      && (!asWritten ==> r.audio.value.SamplesFit())
  {
    if fmt == "help" || fmt == "fullhelp" then Help
    else
      var toks := Tokens(fmt, ':');
      var formatted := fmt != [] && IsDigit(fmt[0]);
      var desc := if formatted then ParseFormat(toks, names) else DEFAULT_FORMAT;
      if desc.width == 0 then InitFailed
      else
        var rest := if formatted then toks[4..] else toks;
        match RunOptions(DEFAULT_CONFIG.(desc := desc, pixfmtDefault := !formatted), rest, names)
        case Fail => InitFailed
        case Next(c) =>
          if !UsableFormat(c.desc) || c.stripFormat.Some? then InitFailed
          else if !audioAny then Started(c, None)
          else match AudioFor(framerate(c.desc.fps), asWritten)
            case None => InitFailed
            case Some(p) => Started(c, Some(p))
  }

  /**
   * The audio flag only adds the audio step: with it, the initialisation
   * starts the same capture exactly when the capture starts without it and
   * the rate has an audio cadence, and fails otherwise.
   */
  lemma AudioFlagAddsOnlyCadence(fmt: string, names: Names, framerate: Fps -> Framerate, asWritten: bool)
    requires fmt != "help" && fmt != "fullhelp"
    ensures var plain := Init(fmt, names, false, framerate, asWritten);
      var withAudio := Init(fmt, names, true, framerate, asWritten);
      && (plain == InitFailed ==> withAudio == InitFailed)
      && (plain.Started? ==>
            withAudio == match AudioFor(framerate(plain.config.desc.fps), asWritten)
                         case None => InitFailed
                         case Some(p) => Started(plain.config, Some(p)))
  {
  }

  /** `testcard_init` on the format string, as the source runs it. */
  method InitLoop(fmt: string, names: Names, audioAny: bool, framerate: Fps -> Framerate, asWritten: bool) returns (r: InitOutcome)
    ensures r == Init(fmt, names, audioAny, framerate, asWritten)
  {
    if fmt == "help" || fmt == "fullhelp" {
      return Help;
    }
    var toks := Tokens(fmt, ':');
    var formatted := fmt != [] && IsDigit(fmt[0]);
    var desc := if formatted then ParseFormat(toks, names) else DEFAULT_FORMAT;
    if desc.width == 0 {
      return InitFailed;
    }
    var rest := if formatted then toks[4..] else toks;
    var step := OptionsLoop(DEFAULT_CONFIG.(desc := desc, pixfmtDefault := !formatted), rest, names);
    if step.Fail? || !UsableFormat(step.config.desc) || step.config.stripFormat.Some? {
      return InitFailed;
    }
    var audio := None;
    if audioAny {
      audio := AudioFor(framerate(step.config.desc.fps), asWritten);
      if audio.None? {
        return InitFailed;
      }
    }
    return Started(step.config, audio);
  }

  /** The option loop as the source runs it, token by token, from the configuration `c0`. */
  method OptionsLoop(c0: Config, rest: seq<string>, names: Names) returns (r: Step)
    ensures r == RunOptions(c0, rest, names)
  {
    var c := c0;
    var i := 0;
    while i < |rest|
      invariant i <= |rest|
      invariant RunOptions(c, rest[i..], names) == RunOptions(c0, rest, names)
    {
      assert rest[i..][1..] == rest[i + 1..];
      var step := ApplyOption(c, rest[i], names);
      if step.Fail? {
        return Fail;
      }
      c := step.config;
      i := i + 1;
    }
    return Next(c);
  }

  // ---------------------------------------------------------------------
  // Probe
  // ---------------------------------------------------------------------

  datatype ProbeMode = DefaultMode | Mode(width: nat, height: nat, fps: nat, pixelFormat: string)

  const SIZES: seq<(nat, nat)> := [(1280, 720), (1920, 1080), (3840, 2160)]
  const FRAMERATES: seq<nat> := [24, 30, 60]
  const PIXEL_FORMATS: seq<string> := ["UYVY", "RGB"]

  /** The mode for pixel format `p`, size `s` and rate `f`. */
  function ModeAt(p: nat, s: nat, f: nat): ProbeMode
    requires p < 2 && s < 3 && f < 3
  {
    Mode(SIZES[s].0, SIZES[s].1, FRAMERATES[f], PIXEL_FORMATS[p])
  }

  /** Position of a mode in the probe's list: after "Default", by format, then size, then rate. */
  function ModeIndex(p: nat, s: nat, f: nat): nat
  {
    1 + 9 * p + 3 * s + f
  }

  /**
   * `vidcap_testcard_probe`'s mode table: "Default" first, then every
   * combination of the two pixel formats, three sizes and three rates,
   * the format varying slowest and the rate fastest.
   */
  method Probe() returns (modes: seq<ProbeMode>)
    ensures |modes| == 1 + |PIXEL_FORMATS| * |SIZES| * |FRAMERATES| && modes[0] == DefaultMode
    ensures forall p: nat, s: nat, f: nat :: p < 2 && s < 3 && f < 3 ==> modes[ModeIndex(p, s, f)] == ModeAt(p, s, f)
  {
    modes := [DefaultMode];
    var p := 0;
    while p < 2
      invariant p <= 2 && |modes| == 1 + 9 * p && modes[0] == DefaultMode
      invariant forall p': nat, s: nat, f: nat :: p' < p && s < 3 && f < 3 ==> modes[ModeIndex(p', s, f)] == ModeAt(p', s, f)
    {
      var s := 0;
      while s < 3
        invariant s <= 3 && |modes| == 1 + 9 * p + 3 * s && modes[0] == DefaultMode
        invariant forall p': nat, s': nat, f: nat :: p' < p && s' < 3 && f < 3 ==> modes[ModeIndex(p', s', f)] == ModeAt(p', s', f)
        invariant forall s': nat, f: nat :: s' < s && f < 3 ==> modes[ModeIndex(p, s', f)] == ModeAt(p, s', f)
      {
        var f := 0;
        while f < 3
          invariant f <= 3 && |modes| == 1 + 9 * p + 3 * s + f && modes[0] == DefaultMode
          invariant forall p': nat, s': nat, f': nat :: p' < p && s' < 3 && f' < 3 ==> modes[ModeIndex(p', s', f')] == ModeAt(p', s', f')
          invariant forall s': nat, f': nat :: s' < s && f' < 3 ==> modes[ModeIndex(p, s', f')] == ModeAt(p, s', f')
          invariant forall f': nat :: f' < f ==> modes[ModeIndex(p, s, f')] == ModeAt(p, s, f')
        {
          modes := modes + [ModeAt(p, s, f)];
          f := f + 1;
        }
        s := s + 1;
      }
      p := p + 1;
    }
  }

  /** Different choices give different positions and different modes: the table has no duplicates. */
  lemma ModesDistinct(p1: nat, s1: nat, f1: nat, p2: nat, s2: nat, f2: nat)
    requires p1 < 2 && s1 < 3 && f1 < 3 && p2 < 2 && s2 < 3 && f2 < 3
    requires (p1, s1, f1) != (p2, s2, f2)
    ensures ModeIndex(p1, s1, f1) != ModeIndex(p2, s2, f2)
    ensures ModeAt(p1, s1, f1) != ModeAt(p2, s2, f2)
  {
    assert PIXEL_FORMATS[0] != PIXEL_FORMATS[1] by { assert |PIXEL_FORMATS[0]| != |PIXEL_FORMATS[1]|; }
  }
}
