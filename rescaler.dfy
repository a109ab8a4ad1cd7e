/**
 * Resolution rescaler: the sensor geometry constants, `getRes`,
 * `getCameraMatrixByRes` (2K intrinsics to any of the four framings) and
 * `cvtTo2K` (HD intrinsics back to 2K). Arithmetic is exact over `real`.
 */
module Rescaler {
  import opened CameraModel

  /** (width, height) of the 2K, FHD (1080), HD (720) and VGA framings, in that order. */
  const CameraResolution: seq<(int, int)> := [(2208, 1242), (1920, 1080), (1280, 720), (672, 376)]

  /** Size of the physical sensor. */
  const WBase: int := 2688
  const HBase: int := 1520

  /** Empirical alignment corrections of the 4x4 (VGA) and 2x2 (HD) binned modes. */
  const OffsetQVGA: real := 5.0
  const OffsetHD: real := 3.0

  /** Origin of each framing on the sensor; VGA is binned 4x4 and HD 2x2. */
  const CropBaseQVGAW: real := (WBase as real - CameraResolution[3].0 as real * 4.0) / 2.0 + OffsetQVGA
  const CropBaseQVGAH: real := (HBase as real - CameraResolution[3].1 as real * 4.0) / 2.0 + OffsetQVGA
  const CropBaseHDW: real := (WBase as real - CameraResolution[2].0 as real * 2.0) / 2.0 + OffsetHD
  const CropBaseHDH: real := (HBase as real - CameraResolution[2].1 as real * 2.0) / 2.0 + OffsetHD
  const CropBase2KW: real := (WBase - CameraResolution[0].0) as real / 2.0
  const CropBase2KH: real := (HBase - CameraResolution[0].1) as real / 2.0

  /** Centre crop from 2K to FHD, computed with integer division before the conversion to floating point. */
  const Crop2KW: real := ((CameraResolution[0].0 - CameraResolution[1].0) / 2) as real
  const Crop2KH: real := ((CameraResolution[0].1 - CameraResolution[1].1) / 2) as real

  /** The constants have these exact values; no integer division truncates. */
  lemma CropConstantValues()
    ensures CropBase2KW == 240.0 && CropBase2KH == 139.0
    ensures CropBaseHDW == 67.0 && CropBaseHDH == 43.0
    ensures CropBaseQVGAW == 5.0 && CropBaseQVGAH == 13.0
    ensures Crop2KW == 144.0 && Crop2KH == 81.0
  {
  }

  /** The widths the rescaler handles: those of the resolution table. */
  predicate SupportedWidth(width: int) {
    width == CameraResolution[0].0 || width == CameraResolution[1].0
    || width == CameraResolution[2].0 || width == CameraResolution[3].0
  }

  /** `getRes`: the name of the framing with that width, or the empty string for any other width. */
  function GetRes(width: int): (name: string)
    ensures name != "" <==> SupportedWidth(width)
  {
    match width
    case 2208 => "2K"
    case 1920 => "FHD"
    case 1280 => "HD"
    case 672 => "VGA"
    case _ => ""
  }

  /** Distinct supported widths get distinct names. */
  lemma GetResInjective(w1: int, w2: int)
    requires SupportedWidth(w1) && SupportedWidth(w2) && w1 != w2
    ensures GetRes(w1) != GetRes(w2)
  {
  }

  /**
   * `getCameraMatrixByRes`: intrinsics given at 2K expressed at the framing of
   * that width. The principal point is moved to full-sensor coordinates, then
   * into the target framing and divided by its binning factor.
   */
  function CameraMatrixByRes(ref: Intrinsics, width: int): (m: Intrinsics)
    requires SupportedWidth(width)
    ensures m.disto == ref.disto
    ensures width == 2208 ==> m == ref
    ensures width == 1920 ==>
      m.fx == ref.fx && m.fy == ref.fy && m.cx == ref.cx - 144.0 && m.cy == ref.cy - 81.0
    ensures width == 1280 ==>
      m.fx == ref.fx / 2.0 && m.fy == ref.fy / 2.0
      && m.cx == (ref.cx + 240.0 - 67.0) / 2.0 && m.cy == (ref.cy + 139.0 - 43.0) / 2.0
    ensures width == 672 ==>
      m.fx == ref.fx / 4.0 && m.fy == ref.fy / 4.0
      && m.cx == (ref.cx + 240.0 - 5.0) / 4.0 && m.cy == (ref.cy + 139.0 - 13.0) / 4.0
  {
    var cxBase := ref.cx + CropBase2KW;
    var cyBase := ref.cy + CropBase2KH;
    if width == 2208 then
      Intrinsics(ref.fx, ref.fy, ref.cx, ref.cy, ref.disto)
    else if width == 1920 then
      Intrinsics(ref.fx, ref.fy, (cxBase - CropBase2KW) - Crop2KW, (cyBase - CropBase2KH) - Crop2KH, ref.disto)
    else if width == 1280 then
      Intrinsics(ref.fx / 2.0, ref.fy / 2.0, (cxBase - CropBaseHDW) / 2.0, (cyBase - CropBaseHDH) / 2.0, ref.disto)
    else
      Intrinsics(ref.fx / 4.0, ref.fy / 4.0, (cxBase - CropBaseQVGAW) / 4.0, (cyBase - CropBaseQVGAH) / 4.0, ref.disto)
  }

  /** Binning factor of the framing with that width, relative to the sensor. */
  function Binning(width: int): (b: real)
    requires SupportedWidth(width)
    ensures b >= 1.0
  {
    if width == 1280 then 2.0 else if width == 672 then 4.0 else 1.0
  }

  /** Alignment correction of the binned modes. */
  function BinningOffset(width: int): real
    requires SupportedWidth(width)
  {
    if width == 1280 then OffsetHD else if width == 672 then OffsetQVGA else 0.0
  }

  /** Height that goes with a supported width in the resolution table. */
  function HeightOf(width: int): int
    requires SupportedWidth(width)
  {
    if width == 2208 then 1242 else if width == 1920 then 1080 else if width == 1280 then 720 else 376
  }

  /** Sensor pixel where the framing of that width starts: a centred crop plus the binning correction. */
  function SensorOriginW(width: int): real
    requires SupportedWidth(width)
  {
    (WBase as real - width as real * Binning(width)) / 2.0 + BinningOffset(width)
  }

  function SensorOriginH(width: int): real
    requires SupportedWidth(width)
  {
    (HBase as real - HeightOf(width) as real * Binning(width)) / 2.0 + BinningOffset(width)
  }

  /**
   * Every framing describes the same physical camera: scaled back by its binning
   * factor and shifted by its sensor origin, the rescaled focal lengths and
   * principal point are those of the 2K input.
   */
  lemma SamePhysicalCamera(ref: Intrinsics, width: int)
    requires SupportedWidth(width)
    ensures var m := CameraMatrixByRes(ref, width);
      var b := Binning(width);
      && b * m.fx == ref.fx && b * m.fy == ref.fy
      && b * m.cx + SensorOriginW(width) == ref.cx + SensorOriginW(2208)
      && b * m.cy + SensorOriginH(width) == ref.cy + SensorOriginH(2208)
  {
  }

  /** Focal lengths follow the binning ratios: VGA is half of HD and a quarter of FHD and 2K. */
  lemma FocalScaling(ref: Intrinsics)
    ensures CameraMatrixByRes(ref, 672).fx == CameraMatrixByRes(ref, 1280).fx / 2.0
    ensures CameraMatrixByRes(ref, 1280).fx == CameraMatrixByRes(ref, 1920).fx / 2.0
    ensures CameraMatrixByRes(ref, 1920).fx == CameraMatrixByRes(ref, 2208).fx
    ensures CameraMatrixByRes(ref, 672).fy == CameraMatrixByRes(ref, 1280).fy / 2.0
    ensures CameraMatrixByRes(ref, 1280).fy == CameraMatrixByRes(ref, 1920).fy / 2.0
    ensures CameraMatrixByRes(ref, 1920).fy == CameraMatrixByRes(ref, 2208).fy
  {
  }

  /** The value `cvtTo2K` computes: HD intrinsics re-expressed at 2K; rescaling to HD gives them back. */
  function ReprojectHDToFull(hd: Intrinsics): (full: Intrinsics)
    ensures CameraMatrixByRes(full, 1280) == hd
  {
    Intrinsics(hd.fx * 2.0, hd.fy * 2.0,
               (hd.cx * 2.0) + CropBaseHDW - CropBase2KW,
               (hd.cy * 2.0) + CropBaseHDH - CropBase2KH,
               hd.disto)
  }

  /** The other direction: rescaling 2K intrinsics to HD and back to 2K is the identity. */
  lemma FullFromHDRoundTrip(full: Intrinsics)
    ensures ReprojectHDToFull(CameraMatrixByRes(full, 1280)) == full
  {
  }

  /** `cvtTo2K`: rewrites the record in place; its distortion array is left alone. */
  method CvtTo2K(param: CameraParameters)
    requires param.Valid()
    modifies param
    ensures param.Valid()
    ensures param.Value() == ReprojectHDToFull(old(param.Value()))
  {
    param.cx := (param.cx * 2.0) + CropBaseHDW - CropBase2KW;
    param.cy := (param.cy * 2.0) + CropBaseHDH - CropBase2KH;
    param.fx := param.fx * 2.0;
    param.fy := param.fy * 2.0;
  }
}
