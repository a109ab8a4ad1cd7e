# Kalibr to ZED calibration converter, in Dafny

This project models `zed_config_export`, the converter that reads a Kalibr
stereo calibration and writes a ZED `SN<serial>.conf` file. The input is
plain text, read line by line. The only lines that matter carry one of the
markers `distortion:`, `projection:`, `q:` or `t:`, each followed by a
bracketed, space-separated list of numbers such as `[fx fy cx cy]`. All other
lines are ignored. The model covers the whole conversion path:

- **Line dispatch** (`KalibrParser`, `ParserFacts`). Each line is checked for
  the unanchored markers `distortion:`, `projection:`, `q:` and `t:`. The four
  tests are independent and run in source order.
  - The `side_left` flag starts true and flips on the first `projection:` line.
  - A `distortion:` line writes value d into slot d of the current camera's
    five-slot distortion array. The arrays were zeroed beforehand.
  - A `projection:` line sets fx, fy, cx, cy (`setValues`).
  - `q:` sets the stereo rotation and `t:` sets the stereo translation.
  - The loop is specified by a pure fold, `ParseLines`, over a parse state,
    and is implemented imperatively by `ReadKalibr` on two mutable
    `CameraParameters` records with 5-element arrays. `ReadKalibr` is proved
    equal to the fold.
- **Text handling** (`KalibrText`).
  - `keepUseful` returns the text after the first `[` and up to the next `]`.
    When a line has no `[`, npos + 1 wraps round to 0, so the whole line is
    used.
  - `split` is modelled as its two loops: one cuts the string into pieces
    (`SplitFields`), the other keeps the non-empty pieces and converts each
    with `atof`.
- **Rescaler** (`Rescaler`). This covers the sensor geometry constants,
  `getRes`, `getCameraMatrixByRes` and `cvtTo2K`. The program's `main`
  never calls these helpers.
- **Writer** (`ConfWriter`). `writeFullCalibration` is modelled as a pure
  function that produces three sections, `[LEFT_CAM_HD]`, `[RIGHT_CAM_HD]`
  and `[STEREO]`.
  - The converter writes the Kalibr intrinsics exactly as parsed.
  - `Baseline` is the x translation times -1000.
  - The rotation vector comes from the quaternion.
  - `ConfReader` reads the format back; it is the writer's partner in the
    round-trip lemmas.

Two parts of the runtime library are parameters of the model:

- `atof` (`string -> real`), which every numeric field goes through.
- The quaternion to axis-angle conversion (`Quaternion -> Vec3`).

The model follows the branch the program compiles when `ZED_SDK_MAJOR_VERSION >= 3` and
`ZED_SDK_MINOR_VERSION >= 1`. The two numbers are tested separately, so this
branch covers 3.1 to 3.x and 4.1 and later, but not 4.0 or any other x.0
release. Excluding x.0 looks like a quirk of the test rather than a design choice. In that branch:

1. `stereo_transform` is first set to the identity, with zero rotation
   vector and zero translation.
2. It is then updated by `q:` and `t:` lines.

Arithmetic is exact over `real`.

## Model

| member | source | states |
|---|---|---|
| KalibrText.Find | zed_config_export/main.cpp:244-246 | the first index of the character, with no earlier occurrence; None (npos) exactly when it is absent |
| KalibrText.Contains | zed_config_export/main.cpp:159 | the marker test `line.find(p) != npos` holds exactly when p occurs at some index of the line |
| KalibrText.OccursShift | zed_config_export/main.cpp:159 | p occurs in s exactly when s starts with p or p occurs in s without its first character, which is the scan `find` performs |
| KalibrText.KeepUseful | zed_config_export/main.cpp:242-249 | the result never contains `]`; with a `[` it is the text after the first `[` up to the next `]` or the end; without a `[` it is the line's text up to its first `]` |
| KalibrText.KeepUsefulCharacterised | zed_config_export/main.cpp:242-249 | KeepUseful's contract determines the result uniquely |
| KalibrText.Pieces | zed_config_export/main.cpp:222-233 | at least one piece, and no piece contains the separator |
| KalibrText.JoinPieces | zed_config_export/main.cpp:222-233 | joining the pieces with the separator gives back the input |
| KalibrText.PiecesJoin | zed_config_export/main.cpp:222-233 | cutting apart the join of separator-free pieces gives back those pieces |
| KalibrText.PiecesConcat | zed_config_export/main.cpp:222-233 | the pieces of a + sep + b are the pieces of a followed by those of b |
| KalibrText.NonEmpty | zed_config_export/main.cpp:235-238 | keeps only non-empty pieces of the input, and never more than it holds |
| KalibrText.NonEmptyConcat | zed_config_export/main.cpp:235-238 | filtering distributes over concatenation, so order is kept |
| KalibrText.Tokens | zed_config_export/main.cpp:220-240 | every field `split` converts is non-empty and free of the separator |
| KalibrText.TokensConcat | zed_config_export/main.cpp:220-240 | the tokens of a + sep + b are the tokens of a followed by those of b |
| KalibrText.TokensOfField | zed_config_export/main.cpp:220-240 | a separator-free string is one token, and the empty string gives none |
| KalibrText.TokensIgnoreSeparatorRuns | zed_config_export/main.cpp:220-240 | a run of two separators yields the same tokens as one |
| KalibrText.TokensIgnoreLeadingSeparator | zed_config_export/main.cpp:220-240 | a leading separator adds no token |
| KalibrText.TokensIgnoreTrailingSeparator | zed_config_export/main.cpp:220-240 | a trailing separator adds no token |
| KalibrText.Convert | zed_config_export/main.cpp:237 | one number per field, the k-th being atof of the k-th field |
| KalibrText.ConvertNonEmpty | zed_config_export/main.cpp:234-238 | the second loop of split yields atof of every non-empty collected string, in order |
| KalibrText.CollectedTokens | zed_config_export/main.cpp:222-238 | the non-empty strings the first loop collects are exactly the tokens |
| KalibrText.SplitFields | zed_config_export/main.cpp:222-233 | the first loop collects nothing for an empty string and otherwise the pieces between separators, including a trailing empty one |
| KalibrText.Split | zed_config_export/main.cpp:220-240 | the result has one number per non-empty field between separators, in order, each converted by atof. `KalibrParser.Values` is `split(keepUseful(line), " ")` (main.cpp:160-161, 168-169, 178-179, 193-194), and `KalibrParser.TokenCount` is the length of that list |
| CameraModel.CameraParameters.constructor | zed_config_export/main.cpp:148-150 | a fresh record with five distortion slots, all 0 |
| Rescaler.CropConstantValues | zed_config_export/main.cpp:15-26 | the crop origins are 2K (240,139), HD (67,43), VGA (5,13), and the 2K to FHD crop is (144,81) |
| Rescaler.GetRes | zed_config_export/main.cpp:46-59 | a non-empty name exactly for the four widths of the resolution table |
| Rescaler.GetResInjective | zed_config_export/main.cpp:46-59 | distinct supported widths get distinct names |
| Rescaler.CameraMatrixByRes | zed_config_export/main.cpp:68-105 | the per-width formulas: 2208 identity; 1920 shifts cx and cy by (144,81); 1280 halves; 672 quarters around the cropped origins; distortion copied in every case |
| Rescaler.SamePhysicalCamera | zed_config_export/main.cpp:68-105 | each framing, scaled back by its binning factor and shifted by its sensor origin, gives the 2K focal lengths and principal point |
| Rescaler.FocalScaling | zed_config_export/main.cpp:68-105 | focal lengths halve from FHD to HD and from HD to VGA, and FHD keeps the 2K one |
| Rescaler.ReprojectHDToFull | zed_config_export/main.cpp:61-66 | rescaling the result to HD width gives back the HD input |
| Rescaler.FullFromHDRoundTrip | zed_config_export/main.cpp:61-105 | 2K intrinsics rescaled to HD and converted back by cvtTo2K are unchanged |
| Rescaler.CvtTo2K | zed_config_export/main.cpp:61-66 | updates the record in place to the 2K intrinsics of its HD values and leaves the distortion alone |
| KalibrParser.DistortionLine | zed_config_export/main.cpp:159-165 | a line without the marker leaves the state alone; the line fails exactly when it has the marker and more than five values, and the error names the line |
| KalibrParser.ProjectionLine | zed_config_export/main.cpp:167-175 | a line without the marker leaves the state alone; it fails exactly with the marker and fewer than four values; a successful projection line leaves the side on the right camera |
| KalibrParser.OrientationLine | zed_config_export/main.cpp:177-190 | a line without `q:` leaves the state alone; it fails exactly with `q:` and fewer than four values; a successful `q:` line sets the orientation |
| KalibrParser.TranslationLine | zed_config_export/main.cpp:192-204 | a line without `t:` leaves the state alone; it fails exactly with `t:` and fewer than three values; a successful `t:` line sets the translation |
| KalibrParser.Step | zed_config_export/main.cpp:158-205 | a line with none of the four markers leaves the state unchanged, and a failure names the line being read |
| KalibrParser.ParseLines | zed_config_export/main.cpp:158-205 | lines with no marker leave the state unchanged, and a failure names one of the input lines |
| KalibrParser.Parse | zed_config_export/main.cpp:148-205 | input with no marker line gives both cameras unset and no pose, and a failure names one of the input lines |
| KalibrParser.WithProjection | zed_config_export/main.cpp:251-256 | fx, fy, cx, cy are the first four values, and the distortion is unchanged |
| KalibrParser.WithDistortion | zed_config_export/main.cpp:161-164 | slot d takes value d for each value, and the slots above keep their old values |
| KalibrParser.WriteDistortion | zed_config_export/main.cpp:161-164 | the copy loop leaves the array equal to WithDistortion of its old contents and the values |
| KalibrParser.SetValues | zed_config_export/main.cpp:251-256 | fx, fy, cx, cy take the first four values; nothing else changes |
| KalibrParser.ReadDistortion | zed_config_export/main.cpp:159-165 | the arrays after one line are those of DistortionLine, or the more-than-five-values error |
| KalibrParser.ReadProjection | zed_config_export/main.cpp:167-175 | the cameras and side flag after one line are those of ProjectionLine, or the fewer-than-four error |
| KalibrParser.ReadOrientation | zed_config_export/main.cpp:177-190 | the orientation after one line is that of OrientationLine, or the error |
| KalibrParser.ReadTranslation | zed_config_export/main.cpp:192-204 | the translation after one line is that of TranslationLine, or the error |
| KalibrParser.ReadLine | zed_config_export/main.cpp:158-205 | one pass of the loop body over the mutable records gives exactly Step's new state, or Step's error |
| KalibrParser.ReadKalibr | zed_config_export/main.cpp:148-205 | the imperative loop over two mutable camera records computes exactly Parse of the lines |
| ParserFacts.DistortionFacts | zed_config_export/main.cpp:159-165 | a distortion line fails exactly when it has more than five values, changes only the current side's distortion, and keeps every slot at or above its value count |
| ParserFacts.ProjectionFacts | zed_config_export/main.cpp:167-175 | a projection line fails exactly with fewer than four values; it fills the current side's fx, fy, cx, cy with the first four values and clears the left flag |
| ParserFacts.OrientationFacts | zed_config_export/main.cpp:177-190 | a q: line fails exactly with fewer than four values and otherwise sets only the orientation, from the first four |
| ParserFacts.TranslationFacts | zed_config_export/main.cpp:192-204 | a t: line fails exactly with fewer than three values and otherwise sets only the translation, from the first three |
| ParserFacts.StepOk | zed_config_export/main.cpp:158-205 | one pass of the loop body fails exactly on a malformed line, and the error names that line |
| ParserFacts.StepSide | zed_config_export/main.cpp:167-175 | one pass flips the side only on a projection line, touches only the current side's camera, and fills its pinhole values from the line |
| ParserFacts.StepSlotKept | zed_config_export/main.cpp:159-165 | one pass keeps a distortion slot the line's values do not reach |
| ParserFacts.StepPose | zed_config_export/main.cpp:177-204 | one pass sets orientation and translation from q: and t: lines and keeps them otherwise |
| ParserFacts.ParseLinesAppend | zed_config_export/main.cpp:158-205 | reading xs then ys is reading xs and continuing from its state, and a failure in xs stops the read |
| ParserFacts.ParseSucceedsIff | zed_config_export/main.cpp:158-205 | the parse succeeds exactly when every line is well formed |
| ParserFacts.FirstBadCons | zed_config_export/main.cpp:158-205 | a well-formed first line moves the first malformed line of the rest one place on |
| ParserFacts.ParseFailsAtFirstBadLine | zed_config_export/main.cpp:158-205 | a failed parse reports the first malformed line |
| ParserFacts.SideFlag | zed_config_export/main.cpp:155-175 | the side is still left exactly when no projection line has been read |
| ParserFacts.LeftFrozen | zed_config_export/main.cpp:167-175 | once the side is right, the left camera never changes and the side never flips back |
| ParserFacts.PinholesKept | zed_config_export/main.cpp:167-175 | lines without projection change neither camera's fx, fy, cx, cy |
| ParserFacts.FirstProjectionFillsLeft | zed_config_export/main.cpp:167-172 | the first projection line's first four values are the left camera's final fx, fy, cx, cy |
| ParserFacts.LastProjectionFillsRight | zed_config_export/main.cpp:173-174 | after the first projection line, the last one gives the right camera's final fx, fy, cx, cy |
| ParserFacts.DistortionLineWrites | zed_config_export/main.cpp:159-165 | a well-formed distortion line writes value d into slot d of the current side, keeps the other slots and the other camera, and keeps the side |
| ParserFacts.SlotKept | zed_config_export/main.cpp:159-165 | a slot above every distortion line's value count keeps its value through the whole parse |
| ParserFacts.UnwrittenSlotsStayZero | zed_config_export/main.cpp:149-165 | such a slot ends as 0 in both cameras, as the arrays were zeroed |
| ParserFacts.RightKeptWhileLeft | zed_config_export/main.cpp:155-175 | while no projection line has been read, the right camera is untouched and the side stays left |
| ParserFacts.AfterFirstProjection | zed_config_export/main.cpp:155-175 | right after the first projection line the side is right and the right camera is still unset, and the rest of the parse continues from that state |
| ParserFacts.LeftUnwrittenSlotStaysZero | zed_config_export/main.cpp:149-172 | a slot that no distortion line up to the first projection line reaches ends as 0 in the left camera, whatever the later lines hold |
| ParserFacts.RightSlotFromUnset | zed_config_export/main.cpp:150-165 | from an unset right camera, a slot no later distortion line reaches stays 0 |
| ParserFacts.RightUnwrittenSlotStaysZero | zed_config_export/main.cpp:149-175 | a slot that no distortion line after the first projection line reaches ends as 0 in the right camera, whatever the earlier lines hold |
| ParserFacts.UnwrittenSlotsWithoutProjection | zed_config_export/main.cpp:149-175 | with no projection line the right camera stays unset, and a left slot no distortion line reaches ends as 0 |
| ParserFacts.OrientationSet | zed_config_export/main.cpp:177-190 | without a q: line the orientation is unchanged, and with one it is set |
| ParserFacts.TranslationSet | zed_config_export/main.cpp:192-204 | without a t: line the translation is unchanged, and with one it is set |
| ParserFacts.PoseMissingIff | zed_config_export/main.cpp:152-204 | the orientation is missing exactly when no q: line was read, and likewise the translation for t: |
| ParserFacts.LastPoseLinesWin | zed_config_export/main.cpp:177-204 | the last q: line gives the orientation and the last t: line the translation |
| ConfWriter.ConfFileName | zed_config_export/main.cpp:215 | the file name is "SN", then the serial, then ".conf" |
| ConfWriter.CameraSection | zed_config_export/main.cpp:32-44 | a camera section is headed by its name and has the keys fx, fy, cx, cy, k1, k2, p1, p2, k3 in that order |
| ConfWriter.StereoTransform | zed_config_export/main.cpp:119-128 | the rotation vector is that of the parsed quaternion or zero, and the translation is the parsed one or zero |
| ConfWriter.StereoSection | zed_config_export/main.cpp:117-139 | the stereo section has the keys Baseline, TY, TZ, RX_HD, CV_HD, RZ_HD in that order |
| ConfWriter.WriteFullCalibration | zed_config_export/main.cpp:107-139 | sections LEFT_CAM_HD, RIGHT_CAM_HD, STEREO, in that order |
| ConfWriter.KalibrToConf | zed_config_export/main.cpp:143-215 | conversion succeeds exactly when parsing does, and reports the parse error otherwise |
| ConfReader.KeyOrderDistinct | zed_config_export/main.cpp:32-44 | no key is written twice in a section |
| ConfReader.CameraSectionRead | zed_config_export/main.cpp:32-44 | a written camera section reads back as the intrinsics it was written from |
| ConfReader.StereoSectionRead | zed_config_export/main.cpp:127-138 | the stereo section reads back as its rotation vector and translation: Baseline / -1000 recovers x |
| ConfReader.WriteReadRoundTrip | zed_config_export/main.cpp:107-139 | reading the written file gives back both cameras' intrinsics and the stereo transform |
| ConfReader.KalibrToConfWritesParsedValues | zed_config_export/main.cpp:114-115 | the HD sections hold the parsed Kalibr intrinsics, not rescaled ones, and the stereo section holds the parsed pose or zeros |

## Left out

- File input and output are not modelled: opening the Kalibr file, reading it line by line with `getline`, `fopen`, `fprintf` and `fclose`. The input is a sequence of lines, and the output is a sequence of sections.
- Command-line handling is not modelled. The parser's input is the file's lines, and the serial number is a parameter of ConfFileName.
- The write-failure message for a `.conf` file that cannot be opened is not modelled.
- Number rendering is not modelled: the `%f` format, and the rounding of float and double. Values are exact reals.
- `atof` is a parameter, and so is the runtime's quaternion to rotation-vector conversion. The runtime's `Transform` class is not part of this model.
- The `#else` branches are left out. They are taken when `ZED_SDK_MAJOR_VERSION >= 3 && ZED_SDK_MINOR_VERSION >= 1` fails: below 3.1, and also for any x.0 release such as 4.0. There `R` and `T` are separate fields and `stereo_transform` is not set to the identity.
- The debugging output is left out: `printCalib` and the `#if 0` block.
- KalibrText.Split takes a one-character separator. The program's only call passes " ", and a longer token would advance by its length.
- Reading past the end of a value vector is undefined behaviour in the program. The model reports it as a ParseError instead. This covers fewer than four projection or q: values and fewer than three t: values.
- Writing a sixth or later distortion value overruns a five-slot array in the program. The model reports a ParseError there too.
- The record's fx, fy, cx, cy before any projection line are taken as 0. Their default is set by a runtime constructor that is not part of this model.
- Rescaler.CameraMatrixByRes requires one of the four table widths. For any other width, the program returns a record whose fx, fy, cx, cy are those of a default-constructed record. Its distortion is still copied from the input.
- In four places the intended behaviour of the converter differs from what its code does. The model follows the code:
  - A missing q: or t: line leaves the identity transform, so zeros are written. It is not reported as an error.
  - Extra distortion values are not ignored: they overflow the array, and the model reports an error.
  - The HD sections hold the raw Kalibr intrinsics, not ones rescaled by `getCameraMatrixByRes` (see ConfReader.KalibrToConfWritesParsedValues).
  - A marker line without `[` is not rejected: its whole text up to the first `]` is used.
