/**
 * The encode-parameter planner of ffmpeg.go: the split options, the defaults
 * they are applied to, the decision whether to scale at all and which bit-rate
 * and frame-rate ceilings survive (optimizeScale), the stream-copy choice, and
 * the encoder argument line that follows from the plan.
 *
 * `SplitArgs` is the mutable record the Go code threads through its options and
 * through optimizeScale; `Args` is its value, and the functions on `Args` are the
 * specification its methods are proved against.
 */
module FFmpeg {
  import opened Wrappers
  import opened GoLib
  import opened FFTool
  import opened FFprobe

  // ---------------------------------------------------------------------------
  // Data

  /** What a probe function returns for a file: a format (possibly nil) or an error. */
  datatype ProbeResult = Probed(format: Option<StreamFormat>) | ProbeFailed(message: string)

  /** `func(string) (*StreamFormat, error)`, the probe collaborator, as a function of the file name. */
  type ProbeFunc = string -> ProbeResult

  /** The value of a `SplitArgs` record, field by field. */
  datatype Args = Args(
    streamFormat: Option<StreamFormat>,
    auto: bool,
    scale: int64,
    start: string,
    end: string,
    output: string,
    video: string,
    audio: string,
    m3u8: string,
    segmentFileName: string,
    hlsTime: int64,
    probe: Option<ProbeFunc>,
    bitRate: int64,
    frameRate: real)

  /** The fields of `SplitArgs`, to say which ones an option writes. */
  datatype Field =
    | StreamFormatField | AutoField | ScaleField | StartField | EndField | OutputField
    | VideoField | AudioField | M3U8Field | SegmentFileNameField | HLSTimeField
    | ProbeField | BitRateField | FrameRateField

  /** `a` and `b` hold the same value in field `f`. */
  ghost predicate Agree(a: Args, b: Args, f: Field) {
    match f
    case StreamFormatField => a.streamFormat == b.streamFormat
    case AutoField => a.auto == b.auto
    case ScaleField => a.scale == b.scale
    case StartField => a.start == b.start
    case EndField => a.end == b.end
    case OutputField => a.output == b.output
    case VideoField => a.video == b.video
    case AudioField => a.audio == b.audio
    case M3U8Field => a.m3u8 == b.m3u8
    case SegmentFileNameField => a.segmentFileName == b.segmentFileName
    case HLSTimeField => a.hlsTime == b.hlsTime
    case ProbeField => a.probe == b.probe
    case BitRateField => a.bitRate == b.bitRate
    case FrameRateField => a.frameRate == b.frameRate
  }

  /** The record literal `FFMpegSplitToM3U8` starts from; unnamed fields hold Go's zero values. */
  function Defaults(): (d: Args)
    ensures d.streamFormat.None? && d.probe.None? && d.auto
    ensures d.scale == 0 && d.bitRate == 0 && d.frameRate == 0.0
    ensures d.video == "libx264" && d.audio == "aac" && d.hlsTime == 10
    ensures d.m3u8 == "media.m3u8" && d.segmentFileName == "media-%05d.ts"
    ensures d.start == "" && d.end == "" && d.output == ""
  {
    Args(None, true, 0, "", "", "", "libx264", "aac", "media.m3u8", "media-%05d.ts", 10, None, 0, 0.0)
  }

  // ---------------------------------------------------------------------------
  // Split options: each constructor of ffmpeg.go:122-187 is one closure over *SplitArgs

  datatype SplitOption =
    | HLSTimeOption(seconds: int64)
    | ScaleOption(height: int64, codecs: seq<string>)
    | OutputOption(dir: string)
    | AutoOption(auto: bool)
    | VideoOption(codec: string)
    | AudioOption(codec: string)
    | StreamFormatOption(format: Option<StreamFormat>)
    | BitRateOption(bitRate: int64)
    | ProbeInfoOption(probe: Option<ProbeFunc>)

  /** The fields an option's closure assigns. `AudioOption` assigns the video codec. */
  predicate Writes(o: SplitOption, f: Field) {
    match o
    case HLSTimeOption(_) => f == HLSTimeField
    case ScaleOption(_, _) => f == ScaleField || f == VideoField
    case OutputOption(_) => f == OutputField
    case AutoOption(_) => f == AutoField
    case VideoOption(_) => f == VideoField
    case AudioOption(_) => f == VideoField
    case StreamFormatOption(_) => f == StreamFormatField
    case BitRateOption(_) => f == BitRateField
    case ProbeInfoOption(_) => f == ProbeField
  }

  /** The effect of running one option's closure on a record. */
  function ApplyOption(a: Args, o: SplitOption): (r: Args)
    ensures forall f :: !Writes(o, f) ==> Agree(r, a, f)
    ensures o.HLSTimeOption? ==> r.hlsTime == o.seconds
    ensures o.OutputOption? ==> r.output == o.dir
    ensures o.AutoOption? ==> r.auto == o.auto
    ensures o.VideoOption? ==> r.video == o.codec
    ensures o.AudioOption? ==> r.video == o.codec && r.audio == a.audio
    ensures o.StreamFormatOption? ==> r.streamFormat == o.format
    ensures o.BitRateOption? ==> r.bitRate == o.bitRate
    ensures o.ProbeInfoOption? ==> r.probe == o.probe
    ensures o.ScaleOption? ==> r.scale == o.height
    ensures o.ScaleOption? && o.codecs == [] ==> r.video == "libx264"
    ensures o.ScaleOption? && o.codecs != [] ==> r.video == o.codecs[|o.codecs| - 1]
  {
    match o
    case HLSTimeOption(i) => a.(hlsTime := i)
    case ScaleOption(s, v) => a.(video := if |v| == 0 then "libx264" else v[|v| - 1], scale := s)
    case OutputOption(s) => a.(output := s)
    case AutoOption(s) => a.(auto := s)
    case VideoOption(s) => a.(video := s)
    case AudioOption(s) => a.(video := s)
    case StreamFormatOption(s) => a.(streamFormat := s)
    case BitRateOption(b) => a.(bitRate := b)
    case ProbeInfoOption(f) => a.(probe := f)
  }

  /** Options applied in order, as the loop at ffmpeg.go:315-317 does. */
  function ApplyOptions(a: Args, opts: seq<SplitOption>): (r: Args)
    ensures |opts| == 0 ==> r == a
    ensures r.audio == a.audio && r.frameRate == a.frameRate
  {
    if |opts| == 0 then a else ApplyOption(ApplyOptions(a, opts[..|opts| - 1]), opts[|opts| - 1])
  }

  /** Applying a concatenation is applying one list after the other. */
  lemma {:induction false} ApplyOptionsAppend(a: Args, xs: seq<SplitOption>, ys: seq<SplitOption>)
    ensures ApplyOptions(a, xs + ys) == ApplyOptions(ApplyOptions(a, xs), ys)
  {
    if |ys| > 0 {
      var ys' := ys[..|ys| - 1];
      assert (xs + ys)[..|xs + ys| - 1] == xs + ys';
      ApplyOptionsAppend(a, xs, ys');
    } else {
      assert xs + ys == xs;
    }
  }

  /** A field that no option in the list writes keeps its value. */
  lemma {:induction false} UnwrittenFieldKept(a: Args, opts: seq<SplitOption>, f: Field)
    requires forall i :: 0 <= i < |opts| ==> !Writes(opts[i], f)
    ensures Agree(ApplyOptions(a, opts), a, f)
  {
    if |opts| > 0 {
      var init := opts[..|opts| - 1];
      UnwrittenFieldKept(a, init, f);
      var mid := ApplyOptions(a, init);
      assert Agree(ApplyOption(mid, opts[|opts| - 1]), mid, f);
      AgreeTransitive(ApplyOptions(a, opts), mid, a, f);
    }
  }

  lemma AgreeTransitive(a: Args, b: Args, c: Args, f: Field)
    requires Agree(a, b, f) && Agree(b, c, f)
    ensures Agree(a, c, f)
  {
  }

  /**
   * The last writer wins: after `before + [o] + after`, a field that no option
   * of `after` writes holds what it held right after `o` ran.
   */
  lemma LastWriterWins(a: Args, before: seq<SplitOption>, o: SplitOption, after: seq<SplitOption>, f: Field)
    requires forall i :: 0 <= i < |after| ==> !Writes(after[i], f)
    ensures Agree(ApplyOptions(a, before + [o] + after), ApplyOption(ApplyOptions(a, before), o), f)
  {
    ApplyOptionsAppend(a, before + [o], after);
    assert (before + [o])[..|before|] == before;
    UnwrittenFieldKept(ApplyOptions(a, before + [o]), after, f);
  }

  /**
   * No option writes the audio codec or the frame rate, so before planning they
   * always hold their defaults: `aac` and 0.
   */
  lemma OptionsKeepAudioAndFrameRate(opts: seq<SplitOption>)
    ensures ApplyOptions(Defaults(), opts).audio == "aac"
    ensures ApplyOptions(Defaults(), opts).frameRate == 0.0
  {
    UnwrittenFieldKept(Defaults(), opts, AudioField);
    UnwrittenFieldKept(Defaults(), opts, FrameRateField);
  }

  // ---------------------------------------------------------------------------
  // optimizeScale, ffmpeg.go:217-290

  /** scaleIndex: the tier of a target height; anything but 480 and 1080 is 720P. */
  function ScaleIndex(scale: int64): (idx: Scale)
    ensures 0 <= idx < |BitRateList| && idx < |FrameRateList|
    ensures idx == Scale480P <==> scale == 480
    ensures idx == Scale1080P <==> scale == 1080
    ensures idx == Scale720P <==> scale != 480 && scale != 1080
  {
    if scale == 480 then Scale480P else if scale == 1080 then Scale1080P else Scale720P
  }

  /** The source is known to be strictly shorter than the target height. */
  predicate SmallerThanTarget(height: Option<int64>, scale: int64) {
    height.Some? && height.value < scale
  }

  /** The source's bit rate; an unparsable value counts as unbounded. */
  function SourceBitRate(video: Stream): (b: int64)
    ensures ParseInt64(video.bitRate).Some? ==> b == ParseInt64(video.bitRate).value
    ensures ParseInt64(video.bitRate).None? ==> b == MaxInt64
  {
    ParseInt64(video.bitRate).GetOr(MaxInt64)
  }

  /** A bit rate ffprobe printed in decimal is read back exactly. */
  lemma SourceBitRateRoundTrip(video: Stream, n: int64)
    requires video.bitRate == FormatInt(n)
    ensures SourceBitRate(video) == n
  {
    ParseFormatRoundTrip(n);
  }

  /**
   * The source frame rate as the pair (numerator, denominator). Text that does
   * not split into exactly two parts at `/` counts as 1/1, and a part that does
   * not parse counts as 1.
   */
  function SourceFrameRate(rFrameRate: string): (fr: (int64, int64))
    ensures Count(rFrameRate, '/') != 1 ==> fr == (1, 1)
    ensures Count(rFrameRate, '/') == 1 ==>
      fr.0 == ParseInt64(Split(rFrameRate, '/')[0]).GetOr(1) &&
      fr.1 == ParseInt64(Split(rFrameRate, '/')[1]).GetOr(1)
  {
    var parts := Split(rFrameRate, '/');
    if |parts| == 2 then (ParseInt64(parts[0]).GetOr(1), ParseInt64(parts[1]).GetOr(1)) else (1, 1)
  }

  /** A rate ffprobe printed as `num/den` is read back as exactly (num, den). */
  lemma SourceFrameRateRoundTrip(num: int64, den: int64)
    ensures SourceFrameRate(FormatInt(num) + "/" + FormatInt(den)) == (num, den)
  {
    var a, b := FormatInt(num), FormatInt(den);
    NoSlash(num);
    NoSlash(den);
    assert Join([a, b], '/') == a + "/" + b by {
      assert [a, b][..1] == [a];
    }
    SplitJoin([a, b], '/');
    ParseFormatRoundTrip(num);
    ParseFormatRoundTrip(den);
  }

  lemma NoSlash(n: int)
    ensures '/' !in FormatInt(n)
  {
    var s := FormatInt(n);
    forall i | 0 <= i < |s|
      ensures s[i] != '/'
    {
      if n < 0 && i > 0 {
        assert s[i] == s[1..][i - 1];
      }
    }
  }

  /**
   * Lines 256-263: a zero request takes the tier's ceiling; a ceiling above
   * the source's own bit rate is dropped (0 means none).
   */
  function CapBitRate(requested: int64, tierDefault: int64, source: int64): (r: int64)
    ensures r == 0 || r <= source
    ensures requested != 0 ==> (r == requested || r == 0) && (r == requested <==> requested <= source)
    ensures requested == 0 && tierDefault != 0 ==>
      (r == tierDefault || r == 0) && (r == tierDefault <==> tierDefault <= source)
  {
    var b := if requested == 0 then tierDefault else requested;
    if b != 0 && b > source then 0 else b
  }

  /**
   * Lines 280-288: a zero request takes the tier's ceiling; a positive ceiling
   * above the source rate num/den is dropped (0 means none).
   */
  function CapFrameRate(requested: real, tierDefault: real, num: int, den: int): (r: real)
    requires den != 0
    ensures r > 0.0 ==> r <= num as real / den as real
    ensures requested != 0.0 ==> r == requested || r == 0.0
    ensures requested == 0.0 ==> r == tierDefault || r == 0.0
    ensures requested > 0.0 && requested <= num as real / den as real ==> r == requested
    ensures requested != 0.0 ==> (r == requested <==> requested < 0.0 || requested <= num as real / den as real)
    ensures requested == 0.0 ==>
      (r == tierDefault <==> tierDefault <= 0.0 || tierDefault <= num as real / den as real)
  {
    var f := if requested == 0.0 then tierDefault else requested;
    if f > 0.0 && f > num as real / den as real then 0.0 else f
  }

  /** The ceilings of `p` do not exceed what the source stream already has. */
  ghost predicate WithinSource(p: Args, video: Stream) {
    var (num, den) := SourceFrameRate(video.rFrameRate);
    && (p.bitRate == 0 || p.bitRate <= SourceBitRate(video))
    && den != 0
    && (p.frameRate > 0.0 ==> p.frameRate <= num as real / den as real)
  }

  /**
   * optimizeScale. `None` is the runtime panic of the integer division
   * `il/ir` in the log call at line 283, reached when the frame-rate
   * denominator parses to 0.
   */
  function Optimize(a: Args, video: Stream): (r: Option<Args>)
    ensures a.scale == 0 ==> r == Some(a)
    ensures a.scale != 0 && SmallerThanTarget(video.height, a.scale) ==> r == Some(a.(scale := 0))
    ensures r.None? <==>
      a.scale != 0 && !SmallerThanTarget(video.height, a.scale) && SourceFrameRate(video.rFrameRate).1 == 0
    ensures r.Some? ==>
      r.value == a.(scale := r.value.scale, bitRate := r.value.bitRate, frameRate := r.value.frameRate)
    ensures r.Some? ==>
      (r.value.scale == 0 <==> a.scale == 0 || SmallerThanTarget(video.height, a.scale))
    ensures r.Some? && r.value.scale != 0 ==> r.value.scale == a.scale && WithinSource(r.value, video)
    ensures r.Some? && r.value.scale != 0 ==>
      var (num, den) := SourceFrameRate(video.rFrameRate);
      && r.value.bitRate == CapBitRate(a.bitRate, BitRateList[ScaleIndex(a.scale)], SourceBitRate(video))
      && r.value.frameRate == CapFrameRate(a.frameRate, FrameRateList[ScaleIndex(a.scale)], num, den)
  {
    if a.scale == 0 then Some(a)
    else if SmallerThanTarget(video.height, a.scale) then Some(a.(scale := 0))
    else
      var idx := ScaleIndex(a.scale);
      var bitRate := CapBitRate(a.bitRate, BitRateList[idx], SourceBitRate(video));
      var (il, ir) := SourceFrameRate(video.rFrameRate);
      if ir == 0 then None
      else Some(a.(bitRate := bitRate, frameRate := CapFrameRate(a.frameRate, FrameRateList[idx], il, ir)))
  }

  // ---------------------------------------------------------------------------
  // The planning part of FFMpegSplitToM3U8, ffmpeg.go:299-342

  datatype PlanError = FileNameHasSpaces | ProbeError(message: string) | NotVideo

  datatype PlanOutcome = Planned(plan: Args) | Failed(error: PlanError) | Panicked

  /** The container is a video file with both a video and an audio stream. */
  predicate Transcodable(sf: StreamFormat): (ok: bool)
    ensures !ok <==> !sf.isVideo || sf.audio.None? || sf.video.None?
  {
    sf.isVideo && sf.video.Some? && sf.audio.Some?
  }

  /** The video codec after planning: `copy` for an H.264 source that needs no scaling. */
  function VideoAction(v: Stream, p: Args): (codec: string)
    ensures v.codecName == "h264" && p.scale == 0 ==> codec == "copy"
    ensures !(v.codecName == "h264" && p.scale == 0) ==> codec == p.video
  {
    if v.codecName == "h264" && p.scale == 0 then "copy" else p.video
  }

  /** The audio codec after planning: `copy` for an AAC source. */
  function AudioAction(au: Stream, p: Args): (codec: string)
    ensures au.codecName == "aac" ==> codec == "copy"
    ensures au.codecName != "aac" ==> codec == p.audio
  {
    if au.codecName == "aac" then "copy" else p.audio
  }

  /** Lines 325-341: check the probed format, optimize the scale, choose stream copy. */
  function Decide(a: Args): (r: PlanOutcome)
    ensures a.streamFormat.None? ==> r == Planned(a)
    ensures r.Failed? <==> a.streamFormat.Some? && !Transcodable(a.streamFormat.value)
    ensures r.Failed? ==> r.error == NotVideo
    ensures r.Panicked? <==>
      a.streamFormat.Some? && Transcodable(a.streamFormat.value) &&
      Optimize(a, a.streamFormat.value.video.value).None?
    ensures r.Planned? && a.streamFormat.Some? ==>
      var v, au, p := a.streamFormat.value.video.value, a.streamFormat.value.audio.value, r.plan;
      && p == a.(scale := p.scale, bitRate := p.bitRate, frameRate := p.frameRate, video := p.video, audio := p.audio)
      && (SmallerThanTarget(v.height, a.scale) ==> p.scale == 0)
      && (p.scale == 0 || (p.scale == a.scale && WithinSource(p, v)))
      && (v.codecName == "h264" && p.scale == 0 ==> p.video == "copy")
      && (v.codecName != "h264" || p.scale != 0 ==> p.video == a.video)
      && (au.codecName == "aac" ==> p.audio == "copy")
      && (au.codecName != "aac" ==> p.audio == a.audio)
    ensures r.Planned? && a.streamFormat.Some? ==>
      Optimize(a, a.streamFormat.value.video.value) == Some(r.plan.(video := a.video, audio := a.audio))
  {
    match a.streamFormat
    case None => Planned(a)
    case Some(sf) =>
      if !Transcodable(sf) then Failed(NotVideo)
      else
        match Optimize(a, sf.video.value)
        case None => Panicked
        case Some(b) =>
          var v, au := sf.video.value, sf.audio.value;
          Planned(b.(video := VideoAction(v, b), audio := AudioAction(au, b)))
  }

  /** The outcome of planning `file` under `opts`, probe call included. */
  function PlanOf(file: string, opts: seq<SplitOption>): (r: PlanOutcome)
    ensures ' ' in file <==> r == Failed(FileNameHasSpaces)
    ensures r.Failed? && r.error.ProbeError? ==> ApplyOptions(Defaults(), opts).probe.Some?
    ensures ' ' !in file && ApplyOptions(Defaults(), opts).probe.None? ==>
      r == Decide(ApplyOptions(Defaults(), opts))
    ensures ' ' !in file && ApplyOptions(Defaults(), opts).probe.Some? ==>
      var a := ApplyOptions(Defaults(), opts);
      r == match a.probe.value(file)
           case ProbeFailed(m) => Failed(ProbeError(m))
           case Probed(sf) => Decide(a.(streamFormat := sf))
  {
    if ' ' in file then Failed(FileNameHasSpaces)
    else
      var a := ApplyOptions(Defaults(), opts);
      match a.probe
      case None => Decide(a)
      case Some(probe) =>
        match probe(file)
        case ProbeFailed(m) => Failed(ProbeError(m))
        case Probed(sf) => Decide(a.(streamFormat := sf))
  }

  /**
   * `FFMpegSplitToM3U8WithProbe` and `FFMpegSplitToM3U8WithOptimize` append
   * `ProbeInfoOption` last, so their probe is the one called, whatever probe
   * (or nil) the caller's options set before it.
   */
  lemma AppendedProbeDecides(file: string, opts: seq<SplitOption>, probe: ProbeFunc)
    requires ' ' !in file
    ensures
      var a := ApplyOptions(Defaults(), opts);
      PlanOf(file, opts + [ProbeInfoOption(Some(probe))]) ==
        match probe(file)
        case ProbeFailed(m) => Failed(ProbeError(m))
        case Probed(sf) => Decide(a.(streamFormat := sf, probe := Some(probe)))
  {
    var all := opts + [ProbeInfoOption(Some(probe))];
    assert all[..|all| - 1] == opts;
  }

  /** `ProbeInfoOption(nil)` given last switches probing off: the plan is `Decide` of the record as configured. */
  lemma NilProbeSkipsProbing(file: string, opts: seq<SplitOption>)
    requires ' ' !in file
    ensures PlanOf(file, opts + [ProbeInfoOption(None)]) ==
      Decide(ApplyOptions(Defaults(), opts).(probe := None))
  {
    var all := opts + [ProbeInfoOption(None)];
    assert all[..|all| - 1] == opts;
  }

  /**
   * Copy preference: an H.264 source needs no re-encoding when no scale is
   * requested or when it is already shorter than the target; an AAC audio
   * stream is always copied.
   */
  lemma CopyPreference(a: Args)
    requires a.streamFormat.Some? && Transcodable(a.streamFormat.value)
    requires a.streamFormat.value.video.value.codecName == "h264"
    requires a.scale == 0 || SmallerThanTarget(a.streamFormat.value.video.value.height, a.scale)
    ensures Decide(a).Planned?
    ensures Decide(a).plan.video == "copy" && Decide(a).plan.scale == 0
    ensures a.streamFormat.value.audio.value.codecName == "aac" ==> Decide(a).plan.audio == "copy"
  {
  }

  /**
   * A 720-line target for a 1080-line H.264 source at 3 Mbit/s and 30000/1001
   * frames per second: the scale is kept, the bit rate is capped at the 720P
   * ceiling of 1024000, and the 720P frame-rate ceiling (about 23.97) is below
   * the source's 29.97, so it is kept as well; the video is re-encoded.
   */
  lemma Scenario720From1080()
    ensures
      var sf := StreamFormat(true, Some(Stream("h264", Some(1080), "3000000", "30000/1001")),
                             Some(Stream("aac", None, "128000", "0/0")));
      var a := Defaults().(scale := 720, streamFormat := Some(sf));
      Decide(a) == Planned(a.(bitRate := 1024000, frameRate := 24000.0 / 1001.0 - 0.005, audio := "copy"))
  {
    var v := Stream("h264", Some(1080), "3000000", "30000/1001");
    var sf := StreamFormat(true, Some(v), Some(Stream("aac", None, "128000", "0/0")));
    var a := Defaults().(scale := 720, streamFormat := Some(sf));
    var b := a.(bitRate := 1024000, frameRate := 24000.0 / 1001.0 - 0.005);
    assert Optimize(a, v) == Some(b) by {
      Scenario720Source(v);
      CeilingsSurvive(a, v);
    }
    assert Transcodable(sf);
    assert VideoAction(v, b) == b.video && AudioAction(sf.audio.value, b) == "copy";
  }

  /** The parsed bit rate and frame rate of the scenario's source stream. */
  lemma Scenario720Source(v: Stream)
    requires v == Stream("h264", Some(1080), "3000000", "30000/1001")
    ensures SourceBitRate(v) == 3000000 && SourceFrameRate(v.rFrameRate) == (30000, 1001)
  {
    assert FormatInt(3000000) == "3000000";
    ParseFormatRoundTrip(3000000);
    assert FormatInt(30000) + "/" + FormatInt(1001) == "30000/1001";
    SourceFrameRateRoundTrip(30000, 1001);
  }

  /**
   * A source exactly as tall as the target is not "smaller": the scale, and
   * with it the re-encode, is kept (the test at line 243 is strict).
   */
  lemma EqualHeightKeepsScale(a: Args, v: Stream)
    requires a.scale != 0 && v.height == Some(a.scale)
    requires SourceFrameRate(v.rFrameRate).1 != 0
    ensures Optimize(a, v).Some? && Optimize(a, v).value.scale == a.scale
  {
  }

  /** A frame rate of `30/0` reaches the division by zero at line 283. */
  lemma ZeroDenominatorPanics(codec: string, bitRate: string)
    ensures Optimize(Defaults().(scale := 720), Stream(codec, None, bitRate, "30/0")).None?
  {
    assert FormatInt(30) + "/" + FormatInt(0) == "30/0";
    SourceFrameRateRoundTrip(30, 0);
  }

  /**
   * Which ceilings survive a kept scale, stated outright: a ceiling (the
   * caller's, or the tier's when the caller gave 0) stays exactly when it does
   * not exceed what the source has, and is dropped to 0 otherwise.
   */
  lemma CeilingsSurvive(a: Args, video: Stream)
    requires a.scale != 0 && !SmallerThanTarget(video.height, a.scale)
    requires SourceFrameRate(video.rFrameRate).1 != 0
    ensures Optimize(a, video).Some? && Optimize(a, video).value.scale == a.scale
    ensures
      var idx, p := ScaleIndex(a.scale), Optimize(a, video).value;
      var b := if a.bitRate == 0 then BitRateList[idx] else a.bitRate;
      var f := if a.frameRate == 0.0 then FrameRateList[idx] else a.frameRate;
      var (num, den) := SourceFrameRate(video.rFrameRate);
      && (b <= SourceBitRate(video) ==> p.bitRate == b)
      && (b > SourceBitRate(video) ==> p.bitRate == 0)
      && (f <= num as real / den as real ==> p.frameRate == f)
      && (0.0 < f && f > num as real / den as real ==> p.frameRate == 0.0)
  {
    var idx := ScaleIndex(a.scale);
    assert BitRateList[idx] != 0 && FrameRateList[idx] > 0.0;
  }

  /**
   * Lines 250-254: a bit rate ffprobe reports in a form that does not parse
   * counts as unbounded, so under a kept scale the bit-rate ceiling is never
   * dropped.
   */
  lemma UnparsableBitRateKeepsCap(a: Args, video: Stream)
    requires a.scale != 0 && !SmallerThanTarget(video.height, a.scale)
    requires SourceFrameRate(video.rFrameRate).1 != 0
    requires ParseInt64(video.bitRate).None?
    ensures Optimize(a, video).Some?
    ensures Optimize(a, video).value.bitRate ==
      if a.bitRate == 0 then BitRateList[ScaleIndex(a.scale)] else a.bitRate
  {
    CeilingsSurvive(a, video);
  }

  /**
   * The frame rate the program plans: no option sets one, so with a probed
   * format and a kept scale it is the tier's ceiling when that does not exceed
   * the source's rate, and 0 (no `-r`) otherwise.
   */
  lemma PlannedFrameRate(file: string, opts: seq<SplitOption>)
    requires PlanOf(file, opts).Planned?
    requires PlanOf(file, opts).plan.scale != 0 && PlanOf(file, opts).plan.streamFormat.Some?
    ensures
      var p := PlanOf(file, opts).plan;
      var (num, den) := SourceFrameRate(p.streamFormat.value.video.value.rFrameRate);
      var ceiling := FrameRateList[ScaleIndex(p.scale)];
      && den != 0
      && p.frameRate == if ceiling <= num as real / den as real then ceiling else 0.0
  {
    var a := ApplyOptions(Defaults(), opts);
    OptionsKeepAudioAndFrameRate(opts);
    var d := if a.probe.Some? && a.probe.value(file).Probed? then a.(streamFormat := a.probe.value(file).format) else a;
    assert PlanOf(file, opts) == Decide(d);
    var p := PlanOf(file, opts).plan;
    var v := d.streamFormat.value.video.value;
    assert Optimize(d, v) == Some(p.(video := d.video, audio := d.audio));
    assert FrameRateList[ScaleIndex(p.scale)] > 0.0;
  }

  /**
   * A video plan of `copy` carries no scale, so `EncodeArgs` picks the template
   * without scale, bit-rate or frame-rate flags, unless the caller's own
   * options asked for the codec `copy`.
   */
  lemma CopyPlanIsUnscaled(file: string, opts: seq<SplitOption>)
    requires PlanOf(file, opts).Planned? && PlanOf(file, opts).plan.video == "copy"
    requires ApplyOptions(Defaults(), opts).video != "copy"
    ensures PlanOf(file, opts).plan.scale == 0
  {
    var a := ApplyOptions(Defaults(), opts);
    var d := if a.probe.Some? && a.probe.value(file).Probed? then a.(streamFormat := a.probe.value(file).format) else a;
    assert PlanOf(file, opts) == Decide(d);
  }

  // ---------------------------------------------------------------------------
  // The encoder argument line, ffmpeg.go:16-21, 226-238 and 357-360

  /** `-vf scale=-2:%d`: keep the aspect ratio, with an even width, at the given height. */
  function ScaleFilter(scale: int64): (s: string)
    ensures |s| > 13 && s[..13] == "-vf scale=-2:"
  {
    "-vf scale=-2:" + FormatInt(scale)
  }

  /** The height in the scale filter reads back as the planned height. */
  lemma ScaleFilterHeight(scale: int64)
    ensures ParseInt64(ScaleFilter(scale)[13..]) == Some(scale)
  {
    ParseFormatRoundTrip(scale);
    assert ScaleFilter(scale)[13..] == FormatInt(scale);
  }

  /** `-b:v %dK` of the bit rate divided by 1024, truncating as Go does. */
  function BitRateCap(bitRate: int64): (s: string)
    ensures |s| > 6 && s[..5] == "-b:v " && s[|s| - 1] == 'K'
  {
    "-b:v " + FormatInt(Quo(bitRate, 1024)) + "K"
  }

  /** The number in the bit-rate flag reads back as the bit rate in units of 1024, truncated. */
  lemma BitRateCapValue(bitRate: int64)
    ensures ParseInt64(BitRateCap(bitRate)[5..|BitRateCap(bitRate)| - 1]) == Some(Quo(bitRate, 1024))
  {
    var q: int64 := Quo(bitRate, 1024);
    ParseFormatRoundTrip(q);
    var s := BitRateCap(bitRate);
    assert s[5..|s| - 1] == FormatInt(q);
  }

  /** `-r %3.2f`: the frame rate with two decimals. */
  function FrameRateCap(frameRate: real): (s: string)
    ensures |s| >= 7 && s[..3] == "-r " && s[|s| - 3] == '.'
    ensures IsDigit(s[|s| - 2]) && IsDigit(s[|s| - 1])
  {
    "-r " + FormatFixed2(frameRate)
  }

  /** The fragments outputScale joins: the scale filter, then the caps that are set. */
  function ScaleFragments(scale: int64, bitRate: int64, frameRate: real): (fs: seq<string>)
    ensures |fs| >= 1 && fs[0] == ScaleFilter(scale)
    ensures BitRateCap(bitRate) in fs <==> bitRate != 0
    ensures FrameRateCap(frameRate) in fs <==> frameRate > 0.0
    ensures |fs| == 1 + (if bitRate != 0 then 1 else 0) + (if frameRate > 0.0 then 1 else 0)
  {
    assert ScaleFilter(scale)[1] == 'v' && BitRateCap(bitRate)[1] == 'b' && FrameRateCap(frameRate)[1] == 'r';
    var fs := [ScaleFilter(scale)] + (if bitRate != 0 then [BitRateCap(bitRate)] else []);
    fs + (if frameRate > 0.0 then [FrameRateCap(frameRate)] else [])
  }

  /** The part both templates share, up to the HLS muxer options. */
  function EncodeHead(file: string, video: string, audio: string): (h: string)
    ensures |h| > 6 + |file| && h[..6 + |file|] == "-y -i " + file
  {
    "-y -i " + file + " -strict -2 -c:v " + video + " -c:a " + audio + " -bsf:v h264_mp4toannexb "
  }

  /** The HLS muxer options both templates end with; the playlist comes last. */
  function HlsTail(hlsTime: int64, segments: string, playlist: string): (t: string)
    ensures |t| > |playlist| && t[|t| - |playlist| - 1..] == " " + playlist
  {
    "-f hls -hls_list_size 0 -hls_time " + FormatInt(hlsTime) + " -hls_segment_filename " + segments + " " + playlist
  }

  /** The template without scaling: input, codecs, then the HLS muxer; the playlist comes last. */
  function CopyTemplate(file: string, video: string, audio: string, hlsTime: int64, segments: string, playlist: string): (t: string)
    ensures |t| > 6 + |file| && t[..6 + |file|] == "-y -i " + file
    ensures |t| > |playlist| && t[|t| - |playlist| - 1..] == " " + playlist
  {
    var h, tl := EncodeHead(file, video, audio), HlsTail(hlsTime, segments, playlist);
    assert (h + tl)[..6 + |file|] == h[..6 + |file|];
    assert (h + tl)[|h + tl| - |playlist| - 1..] == tl[|tl| - |playlist| - 1..];
    h + tl
  }

  /**
   * The template with scaling: the template without scaling, with the scale
   * arguments and a space inserted in front of the HLS muxer options.
   */
  function ScaleTemplate(file: string, video: string, audio: string, scaleArgs: string, hlsTime: int64, segments: string, playlist: string): (t: string)
    ensures var c, k := CopyTemplate(file, video, audio, hlsTime, segments, playlist), |EncodeHead(file, video, audio)|;
      k <= |c| && t == c[..k] + scaleArgs + " " + c[k..]
  {
    var h, tl := EncodeHead(file, video, audio), HlsTail(hlsTime, segments, playlist);
    assert (h + tl)[..|h|] == h && (h + tl)[|h|..] == tl;
    h + scaleArgs + " " + tl
  }

  // ---------------------------------------------------------------------------
  // The mutable record

  class SplitArgs {
    var streamFormat: Option<StreamFormat>
    var auto: bool
    var scale: int64
    var start: string
    var end: string
    var output: string
    var video: string
    var audio: string
    var m3u8: string
    var segmentFileName: string
    var hlsTime: int64
    var probe: Option<ProbeFunc>
    var bitRate: int64
    var frameRate: real

    ghost function Snapshot(): Args
      reads this
    {
      Args(streamFormat, auto, scale, start, end, output, video, audio, m3u8,
           segmentFileName, hlsTime, probe, bitRate, frameRate)
    }

    /** The literal at ffmpeg.go:306-314. */
    constructor ()
      ensures Snapshot() == Defaults()
    {
      streamFormat, auto, scale, start, end, output := None, true, 0, "", "", "";
      video, audio, m3u8, segmentFileName, hlsTime := "libx264", "aac", "media.m3u8", "media-%05d.ts", 10;
      probe, bitRate, frameRate := None, 0, 0.0;
    }

    /** Runs one option's closure on this record. */
    method Apply(o: SplitOption)
      modifies this
      ensures Snapshot() == ApplyOption(old(Snapshot()), o)
    {
      match o {
        case HLSTimeOption(i) => hlsTime := i;
        case ScaleOption(s, v) =>
          video := "libx264";
          for k := 0 to |v|
            modifies this`video
            invariant k == 0 ==> video == "libx264"
            invariant k > 0 ==> video == v[k - 1]
          {
            video := v[k];
          }
          scale := s;
        case OutputOption(s) => output := s;
        case AutoOption(s) => auto := s;
        case VideoOption(s) => video := s;
        case AudioOption(s) => video := s;
        case StreamFormatOption(s) => streamFormat := s;
        case BitRateOption(b) => bitRate := b;
        case ProbeInfoOption(f) => probe := f;
      }
    }

    /** optimizeScale; `ok` is false where the Go code panics. */
    method OptimizeScale(v: Stream) returns (ok: bool)
      modifies this
      ensures ok <==> Optimize(old(Snapshot()), v).Some?
      ensures ok ==> Snapshot() == Optimize(old(Snapshot()), v).value
    {
      ghost var a := Snapshot();
      ok := true;
      if scale != 0 {
        if v.height.Some? && v.height.value < scale {
          scale := 0;
          assert Snapshot() == a.(scale := 0);
          return;
        }
        var idx := ScaleIndex(scale);
        var i := SourceBitRate(v);
        if bitRate == 0 {
          bitRate := BitRateList[idx];
        }
        if bitRate != 0 {
          if bitRate > i {
            bitRate := 0;
          }
        }
        assert bitRate == CapBitRate(a.bitRate, BitRateList[idx], i);
        var (il, ir) := SourceFrameRate(v.rFrameRate);
        if frameRate == 0.0 {
          frameRate := FrameRateList[idx];
        }
        if ir == 0 {
          assert Optimize(a, v).None?;
          ok := false;
          return;
        }
        if frameRate > 0.0 {
          if frameRate > il as real / ir as real {
            frameRate := 0.0;
          }
        }
        assert frameRate == CapFrameRate(a.frameRate, FrameRateList[idx], il, ir);
        assert Snapshot() == a.(bitRate := bitRate, frameRate := frameRate);
        assert Optimize(a, v) == Some(Snapshot());
      } else {
        assert Optimize(a, v) == Some(a);
      }
    }

    /** outputScale. */
    method OutputScale() returns (line: string)
      ensures line == Join(ScaleFragments(scale, bitRate, frameRate), ' ')
    {
      var outputs := [ScaleFilter(scale)];
      if bitRate != 0 {
        outputs := outputs + [BitRateCap(bitRate)];
      }
      if frameRate > 0.0 {
        outputs := outputs + [FrameRateCap(frameRate)];
      }
      assert outputs == ScaleFragments(scale, bitRate, frameRate);
      line := Join(outputs, ' ');
    }

    /** The template choice at ffmpeg.go:357-360, given the segment and playlist paths. */
    method EncodeArgs(file: string, segments: string, playlist: string) returns (tpl: string)
      ensures scale == 0 ==> tpl == CopyTemplate(file, video, audio, hlsTime, segments, playlist)
      ensures scale != 0 ==> tpl == ScaleTemplate(file, video, audio,
        Join(ScaleFragments(scale, bitRate, frameRate), ' '), hlsTime, segments, playlist)
    {
      tpl := CopyTemplate(file, video, audio, hlsTime, segments, playlist);
      if scale != 0 {
        var scaleArgs := OutputScale();
        tpl := ScaleTemplate(file, video, audio, scaleArgs, hlsTime, segments, playlist);
      }
    }
  }

  /** How `FFMpegSplitToM3U8` leaves the planning phase. */
  datatype Status = Ok | Error(error: PlanError) | Panic

  function StatusOf(r: PlanOutcome): Status {
    match r
    case Planned(_) => Ok
    case Failed(e) => Error(e)
    case Panicked => Panic
  }

  /** Lines 306-317: the record literal, then every option's closure in order. */
  method Configure(opts: seq<SplitOption>) returns (args: SplitArgs)
    ensures fresh(args) && args.Snapshot() == ApplyOptions(Defaults(), opts)
  {
    args := new SplitArgs();
    var i := 0;
    while i < |opts|
      invariant 0 <= i <= |opts|
      invariant fresh(args)
      invariant args.Snapshot() == ApplyOptions(Defaults(), opts[..i])
    {
      assert opts[..i + 1][..i] == opts[..i];
      args.Apply(opts[i]);
      i := i + 1;
    }
    assert opts[..i] == opts;
  }

  /**
   * Lines 299-342 of FFMpegSplitToM3U8: reject a file name with a space, build
   * the defaults, apply the options in order, probe, and decide the plan. The
   * record is returned only when planning succeeds.
   */
  method SplitToM3U8(file: string, opts: seq<SplitOption>) returns (sa: SplitArgs?, status: Status)
    ensures status == StatusOf(PlanOf(file, opts))
    ensures sa != null <==> status.Ok?
    ensures sa != null ==> fresh(sa) && sa.Snapshot() == PlanOf(file, opts).plan
  {
    if ' ' in file {
      return null, Error(FileNameHasSpaces);
    }
    var args := Configure(opts);
    ghost var configured := args.Snapshot();
    assert configured == ApplyOptions(Defaults(), opts);
    if args.probe.Some? {
      var probed := args.probe.value(file);
      match probed {
        case ProbeFailed(m) =>
          assert PlanOf(file, opts) == Failed(ProbeError(m));
          return null, Error(ProbeError(m));
        case Probed(f) => args.streamFormat := f;
      }
    }
    ghost var probedArgs := args.Snapshot();
    assert PlanOf(file, opts) == Decide(probedArgs);
    if args.streamFormat.Some? {
      var sf := args.streamFormat.value;
      if !sf.isVideo || sf.audio.None? || sf.video.None? {
        assert Decide(probedArgs) == Failed(NotVideo);
        return null, Error(NotVideo);
      }
      var v, au := sf.video.value, sf.audio.value;
      var ok := args.OptimizeScale(v);
      if !ok {
        assert Decide(probedArgs) == Panicked;
        return null, Panic;
      }
      ghost var optimized := args.Snapshot();
      assert Optimize(probedArgs, v) == Some(optimized);
      if v.codecName == "h264" && args.scale == 0 {
        args.video := "copy";
      }
      if au.codecName == "aac" {
        args.audio := "copy";
      }
      assert args.Snapshot() == Decide(probedArgs).plan;
    }
    return args, Ok;
  }
}
