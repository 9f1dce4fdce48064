# go-ffmpeg-cmd: the encode-parameter planner, in Dafny

This project models the part of go-ffmpeg-cmd that decides how a video is cut
into HLS segments. Given the probed video and audio streams and the caller's
split options, the planner decides:

- whether to scale the picture down at all;
- which bit-rate and frame-rate ceilings survive;
- whether the video and audio can be stream-copied instead of re-encoded.

Around the planner sit the quality-tier tables (`config.go`) and the keyed-option
command builder (`command.go`).

Modules, one per source file plus two helpers:

- `FFmpeg` (`ffmpeg.go`). It holds the split options and the defaults they
  apply to. It holds `optimizeScale`, the planning part of
  `FFMpegSplitToM3U8`, `outputScale` and the template choice. `SplitArgs` is a
  class with the Go record's fields. Its methods are proved against functions
  on `Args`, the record's value. The guarantees are proved about those
  functions.
- `FFTool` (`config.go`). The tier constants, the bit-rate and frame-rate
  tables, and `DefaultConfig`. `ffmpeg.go:196-215` repeats the two tables word
  for word and declares the three tier constants again, untyped (`Scale480P =
  0`), where `config.go` gives them type `Scale`. The model defines them once,
  and the planner uses this copy.
- `FFprobe` (`ffprobe.go`). The stream fields the planner reads, and the
  probed container.
- `CommandBuilder` (`command.go`). `Command` is a class whose option map each
  builder method overwrites under its own key.
- `GoLib`. The Go library functions the core calls. These are stated exactly:
  - `strconv.ParseInt(s, 10, 64)` and `strconv.Atoi`, which on a 64-bit
    platform accept the same strings;
  - `%d` formatting;
  - `strings.Split` and `strings.Join`;
  - Go's truncating `/`.

  `%3.2f` is stated over exact reals and rounds an exact half upward. Go
  rounds the binary `float64` value and sends exact ties to even (`%.2f` of
  0.125 is `0.12`, where `FormatFixed2` gives `0.13`). The tier ceilings are
  not ties, so their rendering is the same either way.
- `Wrappers`. `Option`.

## Behaviour worth knowing

These follow the code as written:

- The drop test at `ffmpeg.go:243` is strict. A source exactly as tall as the
  target keeps the scale and is re-encoded (`EqualHeightKeepsScale`). A source
  of unknown height is never treated as smaller.
- The tier bit rates are multiples of 1024: 512000, 1024000 and 2048000.
- The 720P frame-rate ceiling is 24000/1001 − 0.005, about 23.97.
  - A 29.97 fps source planned at 720P therefore keeps the ceiling
    (`Scenario720From1080`).
  - The − 0.005 makes the two-decimal rendering sent to the encoder (23.97,
    29.97, `RenderedCeilings`) no higher than the nominal rate
    (`RenderedCeilingsBelowNominal`).
- `AudioOption` assigns the video codec (`ffmpeg.go:164`). No option assigns the
  audio codec or the frame rate. Before planning, these hold `aac` and 0
  (`OptionsKeepAudioAndFrameRate`).
- An `r_frame_rate` whose denominator reads as 0 makes the integer division in
  the log call at `ffmpeg.go:283` panic. The model returns `Panicked` for this.
  The division `float64(il)/float64(ir)` is never reached in that case.
- `FFTool.Config.scale` is a tier index (0, 1 or 2). `SplitArgs.scale` is a
  height in lines (480, 720, 1080).
- `HlsSegmentFilename` (`command.go:85`) stores an identifier `n` that is not
  defined in any of the package files modelled here, so the method does not
  compile as shown. The model stores the
  `name` argument, which is evidently what was meant.

## Model

| member | source | states |
|---|---|---|
| `GoLib.ParseInt64` | ffmpeg.go:250-254 | a successful parse means a non-empty string of one optional sign followed by at least one decimal digit; a negative value comes from a leading `-`; for digits with or without a sign the result is their value (negated after `-`) when it fits in 64 bits and an error otherwise |
| `GoLib.ParseExamples` | ffmpeg.go:250-254 | `+30` and `030` parse as 30 and `-7` as −7; the empty string, a lone sign, a letter and a trailing space are errors |
| `GoLib.FormatInt` | ffmpeg.go:227-230 | `%d` output is non-empty; it starts with `-` exactly for negative numbers, and everything else is digits |
| `GoLib.FormatNat` | ffmpeg.go:227-230 | the decimal spelling is non-empty, all digits, with no leading zero |
| `GoLib.FormatNatValue` | ffmpeg.go:227-230 | the digits spell the number they were made from |
| `GoLib.ParseFormatRoundTrip` | ffmpeg.go:250-254 | parsing what `%d` printed gives back every 64-bit integer |
| `GoLib.Quo` | ffmpeg.go:230 | `BitRate/1024` truncates toward zero: the quotient lies between the division bounds on each side of 0 |
| `GoLib.Split` | ffmpeg.go:265 | splitting at `/` gives one more part than there are separators, and no part contains the separator |
| `GoLib.JoinSplit` | ffmpeg.go:265 | joining the parts with the separator gives back the original text |
| `GoLib.JoinEnds` | ffmpeg.go:236-237 | a joined string starts with the first part, followed by the separator when there are several parts, and ends with the last part |
| `GoLib.SplitJoin` | ffmpeg.go:265-268 | splitting joined separator-free parts gives back the parts |
| `GoLib.Cents` | ffmpeg.go:234 | the value in hundredths is within half a hundredth of the real value |
| `GoLib.FormatFixed2` | ffmpeg.go:21 | `%3.2f` output is an optional `-` (exactly for negative values), at least one digit, a point and two digits, so it has at least four characters and width 3 never pads |
| `GoLib.FormatFixed2Value` | ffmpeg.go:21 | the digits of the rendering, point left out, spell the magnitude rounded to hundredths |
| `FFTool.TierIndices` | config.go:7-9 | the tier constants are 480P=0, 720P=1, 1080P=2, and each table has one entry per tier |
| `FFTool.BitRateTable` | config.go:12-19 | the bit-rate ceilings are 512000, 1024000, 2048000 and strictly increase with the tier |
| `FFTool.FrameRateTable` | config.go:21-25 | 480P and 720P share 24000/1001 − 1/200; 1080P's 30000/1001 − 1/200 is higher |
| `FFTool.RenderedCeilingsBelowNominal` | config.go:21-25 | each frame-rate ceiling, and its value in hundredths (2397, 2997), is no higher than the NTSC rate it comes from |
| `FFTool.RenderedCeilings` | config.go:21-25 | `%3.2f` renders the 480P and 720P ceilings as `23.97` and the 1080P ceiling as `29.97` |
| `FFTool.DefaultConfig` | config.go:31-35 | the default configuration uses the 720P tier |
| `FFmpeg.ApplyOption` | ffmpeg.go:122-187 | an option changes only the fields it writes and stores its argument there: HLS time, output directory, auto flag, video codec, stream format, bit rate, probe (nil included); `AudioOption` writes the video codec and leaves the audio codec alone; `ScaleOption` sets the height, and sets the video codec to its last extra argument or `libx264` |
| `FFmpeg.SplitArgs.Apply` | ffmpeg.go:122-187 | running an option's closure on the record, including `ScaleOption`'s loop over its codecs, gives exactly `ApplyOption` of the old value |
| `FFmpeg.Defaults` | ffmpeg.go:306-314 | the record starts with no stream format and no probe, Auto on, zero height, bit rate and frame rate, libx264 and aac, HLSTime 10, `media.m3u8`, `media-%05d.ts`, and empty start, end and output |
| `FFmpeg.ApplyOptions` | ffmpeg.go:315-317 | the options applied in order; none of them changes the audio codec or the frame rate |
| `FFmpeg.ApplyOptionsAppend` | ffmpeg.go:315-317 | applying two option lists one after the other equals applying their concatenation |
| `FFmpeg.UnwrittenFieldKept` | ffmpeg.go:315-317 | a field that no option in the list writes keeps its value |
| `FFmpeg.LastWriterWins` | ffmpeg.go:315-317 | the last writer wins: a field that no later option writes holds what the last option that wrote it set |
| `FFmpeg.OptionsKeepAudioAndFrameRate` | ffmpeg.go:306-317 | after the defaults and any options, the audio codec is still `aac` and the frame rate still 0 |
| `FFmpeg.SplitArgs.constructor` | ffmpeg.go:306-314 | the record starts as Auto=true, libx264, aac, `media.m3u8`, `media-%05d.ts`, HLSTime 10, with zero height, bit rate and frame rate and no probe |
| `FFmpeg.ScaleIndex` | ffmpeg.go:217-224 | 480 maps to tier 0 and 1080 to tier 2, each exactly; every other height, 720 and 0 included, maps to tier 1; the index is valid for both tables |
| `FFmpeg.SourceBitRate` | ffmpeg.go:250-254 | the source bit rate is the parsed value, or MaxInt64 when the text does not parse |
| `FFmpeg.SourceBitRateRoundTrip` | ffmpeg.go:250-254 | a bit rate printed in decimal is read back exactly |
| `FFmpeg.SourceFrameRate` | ffmpeg.go:264-279 | text that does not split at `/` into exactly two parts gives 1/1; otherwise each part is its parsed value, or 1 when it does not parse |
| `FFmpeg.SourceFrameRateRoundTrip` | ffmpeg.go:265-279 | a rate printed as `num/den` is read back as exactly (num, den) |
| `FFmpeg.CapBitRate` | ffmpeg.go:256-263 | the bit-rate ceiling is 0 or at most the source's rate; a nonzero request is kept exactly when it does not exceed the source rate and is never replaced by the tier default; a zero request takes the tier default, kept under the same test |
| `FFmpeg.CapFrameRate` | ffmpeg.go:280-288 | a positive frame-rate ceiling is at most the source rate num/den; a request is kept or dropped to 0, never replaced; a nonzero request is kept exactly when it is negative or within the source rate; a zero request takes the tier default, kept exactly when it is not positive or within the source rate |
| `FFmpeg.Optimize` | ffmpeg.go:241-290 | Scale 0 changes nothing; a known smaller height drops the scale and leaves the caps alone; the panic happens exactly when a kept scale meets a zero denominator; only scale, bit rate and frame rate change; the scale is dropped exactly when none was asked for or the source is smaller; with a kept scale both caps stay within the source, and each is the `CapBitRate` / `CapFrameRate` of the request, the tier's ceiling and the parsed source |
| `FFmpeg.CeilingsSurvive` | ffmpeg.go:256-288 | under a kept scale, the bit-rate and frame-rate ceilings in force (the caller's, or the tier's for 0) are kept exactly when they do not exceed the source, and dropped to 0 otherwise |
| `FFmpeg.UnparsableBitRateKeepsCap` | ffmpeg.go:250-263 | a source bit rate that does not parse counts as unbounded, so under a kept scale the bit-rate ceiling (the caller's, or the tier's for 0) is always kept |
| `FFmpeg.SplitArgs.OptimizeScale` | ffmpeg.go:241-290 | the in-place update reports the panic exactly when `Optimize` does, and otherwise leaves the record equal to `Optimize` of its old value |
| `FFmpeg.EqualHeightKeepsScale` | ffmpeg.go:243-247 | a source exactly as tall as the target keeps the scale |
| `FFmpeg.ZeroDenominatorPanics` | ffmpeg.go:283 | a frame rate of `30/0` under a kept scale ends in the runtime panic |
| `FFmpeg.Decide` | ffmpeg.go:325-341 | without a probed format the record passes unchanged; a non-video container or a missing stream is rejected and nothing else is; the panic comes exactly from `Optimize`; a plan's scale and caps are those `Optimize` computes; it never scales a smaller source, keeps its caps within the source, touches only scale, caps and codecs, copies H.264 video exactly when no scale remains, and copies AAC audio |
| `FFmpeg.Transcodable` | ffmpeg.go:326-330 | a probed format is rejected exactly when it is not a video, or its audio or video stream is missing |
| `FFmpeg.VideoAction` | ffmpeg.go:335-337 | the planned video codec is `copy` for H.264 with no scale left, and otherwise the configured codec |
| `FFmpeg.AudioAction` | ffmpeg.go:339-341 | the planned audio codec is `copy` for AAC, and otherwise the configured codec |
| `FFmpeg.CopyPreference` | ffmpeg.go:332-341 | an H.264 source with no scale asked for, or smaller than the target, is planned as a stream copy with no scale; AAC audio is copied |
| `FFmpeg.Scenario720From1080` | ffmpeg.go:241-341 | 720P for a 1080-line H.264 source at 3000000 bit/s and 30000/1001 fps keeps the scale, caps the bit rate at 1024000, keeps the 23.97 frame-rate ceiling, re-encodes the video and copies the AAC audio |
| `FFmpeg.PlanOf` | ffmpeg.go:299-342 | a file name is rejected for spaces exactly when it contains one; a probe error happens only when a probe was configured; without a probe the plan is `Decide` of the configured record; with one, a probe error is returned as is, and otherwise the plan is `Decide` of the record with the probed format put in |
| `FFmpeg.AppendedProbeDecides` | ffmpeg.go:189-193 | appending `ProbeInfoOption` last, as both wrappers do, makes that probe the one called, whatever the earlier options configured |
| `FFmpeg.NilProbeSkipsProbing` | ffmpeg.go:183-186 | `ProbeInfoOption(nil)` given last switches the probe call off, so the plan is `Decide` of the configured record |
| `FFmpeg.CopyPlanIsUnscaled` | ffmpeg.go:333-337 | a planned video codec of `copy` comes with no scale, so the template without flags is used, unless the caller's own options chose `copy` |
| `FFmpeg.PlannedFrameRate` | ffmpeg.go:280-342 | since no option sets a frame rate, a planned probed record with a kept scale carries the tier's frame-rate ceiling when it is within the source rate, and 0 otherwise |
| `FFmpeg.SplitToM3U8` | ffmpeg.go:299-342 | the method returns a fresh record exactly when planning succeeds, holding the `PlanOf` plan, and otherwise the same failure or panic as `PlanOf` |
| `FFmpeg.ScaleFilter` | ffmpeg.go:19 | the scale fragment starts with `-vf scale=-2:` |
| `FFmpeg.ScaleFilterHeight` | ffmpeg.go:227 | the height after `-vf scale=-2:` reads back as the planned height |
| `FFmpeg.BitRateCap` | ffmpeg.go:20 | the bit-rate fragment is `-b:v `, a number and `K` |
| `FFmpeg.BitRateCapValue` | ffmpeg.go:229-231 | the number in the bit-rate fragment reads back as the bit rate divided by 1024, truncated toward zero |
| `FFmpeg.FrameRateCap` | ffmpeg.go:21 | the frame-rate fragment is `-r ` followed by a number with a point and two decimals |
| `FFmpeg.ScaleFragments` | ffmpeg.go:226-238 | the scale fragment comes first; `-b:v` appears exactly when the bit rate is nonzero; `-r` appears exactly when the frame rate is positive |
| `FFmpeg.SplitArgs.OutputScale` | ffmpeg.go:226-238 | the line built by appending to `outputs` is the space-joined `ScaleFragments` of the record |
| `FFmpeg.EncodeHead` | ffmpeg.go:17-18 | both templates start with `-y -i` and the input file |
| `FFmpeg.HlsTail` | ffmpeg.go:17-18 | both templates end with a space and the playlist path |
| `FFmpeg.CopyTemplate` | ffmpeg.go:17 | the template without scaling starts with `-y -i` and the file, and ends with the playlist |
| `FFmpeg.ScaleTemplate` | ffmpeg.go:18 | the scale template is the template without scaling with the scale arguments and a space inserted before the HLS muxer options |
| `FFmpeg.Configure` | ffmpeg.go:306-317 | a fresh record holds the defaults after every option's closure has run in order |
| `FFmpeg.SplitArgs.EncodeArgs` | ffmpeg.go:357-360 | with no scale the plain template is used; with a scale the scale template is used, carrying the `outputScale` line |
| `CommandBuilder.Command.New` | command.go:10-15 | a new command has the given name and no options |
| `CommandBuilder.Command.Ignore` | command.go:18-21 | sets `ignore` to `-y`, returns the receiver, and changes no other key |
| `CommandBuilder.Command.Input` | command.go:24-27 | sets `input` to `-i path`, overwriting an earlier input, returns the receiver, and changes no other key |
| `CommandBuilder.Command.Codec` | command.go:30-33 | sets `c` to `-c copy`, returns the receiver, and changes no other key |
| `CommandBuilder.Strings` | command.go:39-43 | `Strings(in)` turns any option value into `in` |
| `CommandBuilder.ApplyStrings` | command.go:47-50 | with no options the value stays the initial one |
| `CommandBuilder.ApplyStringsAppend` | command.go:47-50 | running the options of `xs + ys` is running those of `xs`, then those of `ys` |
| `CommandBuilder.Command.CodecVideo` | command.go:46-53 | sets `cv` to `-c:v` and the value `copy` after each option in turn, returns the receiver, and changes no other key |
| `CommandBuilder.Command.CodecAudio` | command.go:56-63 | the same under key `ca` with flag `-c:a` |
| `CommandBuilder.LastStringsWins` | command.go:39-53 | with options built by `Strings`, the codec is the last one given, or `copy` if none is given |
| `CommandBuilder.Command.Format` | command.go:66-69 | stores exactly `-f f` under `format` and returns the receiver |
| `CommandBuilder.Command.HlsTime` | command.go:72-75 | stores exactly `-hls_time t` under `hls_time` and returns the receiver |
| `CommandBuilder.Command.HlsListSize` | command.go:78-81 | stores exactly `-hls_list_size s` under `hls_list_size` and returns the receiver |
| `CommandBuilder.Command.HlsSegmentFilename` | command.go:84-87 | stores `-hls_segment_filename name` under `hls_segment_filename` and returns the receiver |
| `CommandBuilder.InputTwice` | command.go:24-27 | a second `Input` replaces the first, so repeating a call with the same argument is the same as calling once |
| `CommandBuilder.HlsChain` | command.go:18-75 | the chain's map is the old map with its four keys set: every other key, present or absent, is as it was |

## Left out

- `ffmpegContext`, `FFmpegContext` and the `Context` interface (`ffmpeg.go:41-117`): wait groups, a once-guard, a mutex and a goroutine, which is concurrency.
- `FFMpegRun` (`ffmpeg.go:368-401`) and the call to it at `ffmpeg.go:362-365`: a goroutine, channels and an external process.
- `FFMpegSplitToM3U8WithProbe` and `FFMpegSplitToM3U8WithOptimize`: each only appends `ProbeInfoOption(FFProbeStreamFormat)`, which `AppendedProbeDecides` covers. `FFProbeStreamFormat` itself runs an external process and decodes JSON, so a probe is a parameter of type `string -> ProbeResult`.
- `ffmpeg.go:303-305`: the default context is used only by `FFMpegRun`.
- `ffmpeg.go:344-355`: `filepath.Abs`, the random `uuid` directory, `os.MkdirAll` and `filepath.Join` are filesystem and randomness. `EncodeArgs` takes the segment and playlist paths they produce as arguments.
- `StreamFormat.Video`, `Audio` and `IsVideo` are not part of this model. Their code is not given, so a `StreamFormat` is given by their three answers.
- The other `Stream` and `Format` fields: the planner does not read them.
- Closures other than the nine option constructors: `SplitOptions` is an open function type, and the model covers the constructors the package defines.
- All `log` calls. Only the division inside the call at `ffmpeg.go:283` affects control flow, and it is modelled as the panic.
- Floating point: the frame rate is a `real`, so comparisons with the tier ceilings and with num/den are exact.
- `GoLib.FormatFixed2`: rounds the exact real, exact halves upward, whereas Go's `%3.2f` rounds the binary `float64` value with ties to even; the two differ only at exact ties in binary, which the tier ceilings are not.
- The error values of `strconv`: only success or failure is modelled, which is all the planner uses.
- `Command.opts` is a value field. Sharing one Go map between two commands (the field is exported) is not modelled.
- The `_test.go` files: they need real binaries and media files. `command_test.go` calls builder methods that do not exist.
- `FFmpeg.SplitArgs.OptimizeScale`: when it reports the panic, the record's contents are not described. Go abandons the record at that point.
