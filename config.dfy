/**
 * The quality tiers (config.go, package fftool): a tier index per target
 * height, the bit-rate and frame-rate ceiling of each tier, and the default
 * configuration. ffmpeg.go:196-215 copies the two tables word for word and
 * declares the three tier constants again as untyped constants (here they are
 * of type `Scale`); the planner in module FFmpeg uses the definitions below.
 */
module FFTool {
  import opened GoLib

  /** Go's `type Scale int`: a tier index, not a height. */
  type Scale = int

  const Scale480P: Scale := 0
  const Scale720P: Scale := 1
  const Scale1080P: Scale := 2

  /** Bit-rate ceiling per tier, in bits per second. */
  const BitRateList: seq<int64> := [500 * 1024, 1000 * 1024, 2000 * 1024]

  /** Frame-rate ceiling per tier: the NTSC film and video rates less half a hundredth. */
  const FrameRateList: seq<real> := [
    24000.0 / 1001.0 - 0.005,
    24000.0 / 1001.0 - 0.005,
    30000.0 / 1001.0 - 0.005
  ]

  datatype Config = Config(scale: Scale)

  function DefaultConfig(): (c: Config)
    ensures c.scale == Scale720P
  {
    Config(Scale720P)
  }

  /** Both tables have one entry per tier, indexed by the tier constants. */
  lemma TierIndices()
    ensures Scale480P == 0 && Scale720P == 1 && Scale1080P == 2
    ensures |BitRateList| == |FrameRateList| == Scale1080P + 1
  {
  }

  /** The bit-rate ceilings are 512000, 1024000 and 2048000 and grow with the tier. */
  lemma BitRateTable()
    ensures BitRateList == [512000, 1024000, 2048000]
    ensures forall i, j :: 0 <= i < j < |BitRateList| ==> BitRateList[i] < BitRateList[j]
  {
  }

  /** 480P and 720P share the film-rate ceiling; 1080P's video-rate ceiling is higher. */
  lemma FrameRateTable()
    ensures FrameRateList[Scale480P] == FrameRateList[Scale720P] == 24000.0 / 1001.0 - 1.0 / 200.0
    ensures FrameRateList[Scale1080P] == 30000.0 / 1001.0 - 1.0 / 200.0
    ensures FrameRateList[Scale720P] < FrameRateList[Scale1080P]
  {
  }

  /** The NTSC rate a tier's frame-rate ceiling is derived from. */
  function NominalRate(tier: Scale): real
    requires 0 <= tier < |FrameRateList|
  {
    if tier == Scale1080P then 30000.0 / 1001.0 else 24000.0 / 1001.0
  }

  /**
   * What the half-hundredth is for: written with two decimals, as the encoder
   * receives it (`-r %3.2f`), each tier's ceiling is still no higher than its
   * nominal rate (23.97 and 29.97), so a source running exactly at the nominal
   * rate keeps the ceiling and is never asked to speed up.
   */
  lemma RenderedCeilingsBelowNominal(tier: Scale)
    requires 0 <= tier < |FrameRateList|
    ensures FrameRateList[tier] < NominalRate(tier)
    ensures Cents(FrameRateList[tier]) as real / 100.0 <= NominalRate(tier)
    ensures Cents(FrameRateList[tier]) == if tier == Scale1080P then 2997 else 2397
  {
    var x := FrameRateList[tier];
    var c := Cents(x);
    if tier == Scale1080P {
      assert 100.0 * x + 0.5 == 3000000.0 / 1001.0;
      assert 2997.0 < 3000000.0 / 1001.0 < 2998.0;
    } else {
      assert 100.0 * x + 0.5 == 2400000.0 / 1001.0;
      assert 2397.0 < 2400000.0 / 1001.0 < 2398.0;
    }
  }

  /** The text `-r %3.2f` puts on the command line for each tier's ceiling. */
  lemma RenderedCeilings()
    ensures FormatFixed2(FrameRateList[Scale480P]) == "23.97"
    ensures FormatFixed2(FrameRateList[Scale720P]) == "23.97"
    ensures FormatFixed2(FrameRateList[Scale1080P]) == "29.97"
  {
    RenderedCeilingsBelowNominal(Scale720P);
    RenderedCeilingsBelowNominal(Scale1080P);
    assert FormatNat(23) == "23" && FormatNat(29) == "29";
  }
}
