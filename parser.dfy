/**
 * The line-dispatch parser of `main`: every line is tested for the markers
 * "distortion:", "projection:", "q:" and "t:" in that order; the bracketed
 * numbers after a marker update the calibration for the current side.
 * The side starts on the left camera and moves to the right camera for good
 * at the first "projection:" line.
 *
 * Specified as a fold of `Step` over the lines (ParseLines), implemented by
 * the imperative ReadKalibr over two CameraParameters records.
 */
module KalibrParser {
  import opened Wrappers
  import opened KalibrText
  import opened CameraModel

  /** Relative orientation of the right camera, as read from a "q:" line (x, y, z, w). */
  datatype Quaternion = Quaternion(ox: real, oy: real, oz: real, ow: real)

  datatype Vec3 = Vec3(x: real, y: real, z: real)

  /** The stereo calibration being assembled; a pose part stays None until its line is read. */
  datatype Calibration = Calibration(
    left: Intrinsics,
    right: Intrinsics,
    orientation: Option<Quaternion>,
    translation: Option<Vec3>)

  /** The calibration together with the `side_left` flag. */
  datatype ParseState = ParseState(calib: Calibration, sideLeft: bool)

  /**
   * A marker line whose bracket holds more values than the array it fills
   * or fewer than the fields it sets (the program reads past the end of its
   * value vector, or writes past the end of the five-slot array).
   */
  datatype ParseError =
    | TooManyDistortionValues(line: string)
    | TooFewProjectionValues(line: string)
    | TooFewOrientationValues(line: string)
    | TooFewTranslationValues(line: string)

  const Initial: ParseState := ParseState(Calibration(Unset, Unset, None, None), true)

  /** The numbers of a marker line: `split(keepUseful(line), " ")`. */
  function Values(line: string, atof: string -> real): seq<real> {
    Convert(Tokens(KeepUseful(line), ' '), atof)
  }

  /** How many numbers a marker line holds, whatever `atof` makes of them. */
  function TokenCount(line: string): nat {
    |Tokens(KeepUseful(line), ' ')|
  }

  /** Slot d of the distortion array takes value d; the slots above the values keep theirs. */
  function WithDistortion(d: Distortion, values: seq<real>): (r: Distortion)
    requires |values| <= 5
    ensures forall k :: 0 <= k < |values| ==> r[k] == values[k]
    ensures forall k :: |values| <= k < 5 ==> r[k] == d[k]
  {
    values + d[|values|..]
  }

  /** The value `setValues` gives a camera: fx, fy, cx, cy from the first four values. */
  function WithProjection(c: Intrinsics, k: seq<real>): (r: Intrinsics)
    requires |k| >= 4
    ensures r.fx == k[0] && r.fy == k[1] && r.cx == k[2] && r.cy == k[3]
    ensures r.disto == c.disto
  {
    c.(fx := k[0], fy := k[1], cx := k[2], cy := k[3])
  }

  /** A line carrying none of the four markers. */
  predicate Unmarked(line: string) {
    !Contains(line, "distortion:") && !Contains(line, "projection:") && !Contains(line, "q:") && !Contains(line, "t:")
  }

  /** The "distortion:" test of the loop body: fails past five values, otherwise fills the current side's slots. */
  function DistortionLine(st: ParseState, line: string, atof: string -> real): (r: Result<ParseState, ParseError>)
    ensures !Contains(line, "distortion:") ==> r == Success(st)
    ensures r.Failure? <==> Contains(line, "distortion:") && TokenCount(line) > 5
    ensures r.Failure? ==> r.error == TooManyDistortionValues(line)
  {
    if !Contains(line, "distortion:") then Success(st)
    else
      var disto := Values(line, atof);
      if |disto| > 5 then Failure(TooManyDistortionValues(line))
      else if st.sideLeft then
        Success(st.(calib := st.calib.(left := st.calib.left.(disto := WithDistortion(st.calib.left.disto, disto)))))
      else
        Success(st.(calib := st.calib.(right := st.calib.right.(disto := WithDistortion(st.calib.right.disto, disto)))))
  }

  /** The "projection:" test: fails below four values, otherwise sets the current side's pinhole values and moves to the right side. */
  function ProjectionLine(st: ParseState, line: string, atof: string -> real): (r: Result<ParseState, ParseError>)
    ensures !Contains(line, "projection:") ==> r == Success(st)
    ensures r.Failure? <==> Contains(line, "projection:") && TokenCount(line) < 4
    ensures r.Failure? ==> r.error == TooFewProjectionValues(line)
    ensures r.Success? && Contains(line, "projection:") ==> !r.value.sideLeft
  {
    if !Contains(line, "projection:") then Success(st)
    else
      var k := Values(line, atof);
      if |k| < 4 then Failure(TooFewProjectionValues(line))
      else if st.sideLeft then
        Success(ParseState(st.calib.(left := WithProjection(st.calib.left, k)), false))
      else
        Success(st.(calib := st.calib.(right := WithProjection(st.calib.right, k))))
  }

  /** The "q:" test: fails below four values, otherwise sets the orientation. */
  function OrientationLine(st: ParseState, line: string, atof: string -> real): (r: Result<ParseState, ParseError>)
    ensures !Contains(line, "q:") ==> r == Success(st)
    ensures r.Failure? <==> Contains(line, "q:") && TokenCount(line) < 4
    ensures r.Failure? ==> r.error == TooFewOrientationValues(line)
    ensures r.Success? && Contains(line, "q:") ==> r.value.calib.orientation.Some?
  {
    if !Contains(line, "q:") then Success(st)
    else
      var q := Values(line, atof);
      if |q| < 4 then Failure(TooFewOrientationValues(line))
      else Success(st.(calib := st.calib.(orientation := Some(Quaternion(q[0], q[1], q[2], q[3])))))
  }

  /** The "t:" test: fails below three values, otherwise sets the translation. */
  function TranslationLine(st: ParseState, line: string, atof: string -> real): (r: Result<ParseState, ParseError>)
    ensures !Contains(line, "t:") ==> r == Success(st)
    ensures r.Failure? <==> Contains(line, "t:") && TokenCount(line) < 3
    ensures r.Failure? ==> r.error == TooFewTranslationValues(line)
    ensures r.Success? && Contains(line, "t:") ==> r.value.calib.translation.Some?
  {
    if !Contains(line, "t:") then Success(st)
    else
      var t := Values(line, atof);
      if |t| < 3 then Failure(TooFewTranslationValues(line))
      else Success(st.(calib := st.calib.(translation := Some(Vec3(t[0], t[1], t[2])))))
  }

  /** One pass of the loop body: the four independent marker tests, in source order. */
  function Step(st: ParseState, line: string, atof: string -> real): (r: Result<ParseState, ParseError>)
    ensures Unmarked(line) ==> r == Success(st)
    ensures r.Failure? ==> r.error.line == line
  {
    var s1 :- DistortionLine(st, line, atof);
    var s2 :- ProjectionLine(s1, line, atof);
    var s3 :- OrientationLine(s2, line, atof);
    TranslationLine(s3, line, atof)
  }

  /** The whole loop: Step folded over the lines, stopping at the first malformed one. */
  function ParseLines(st: ParseState, lines: seq<string>, atof: string -> real): (r: Result<ParseState, ParseError>)
    ensures (forall k :: 0 <= k < |lines| ==> Unmarked(lines[k])) ==> r == Success(st)
    ensures r.Failure? ==> exists k :: 0 <= k < |lines| && r.error.line == lines[k]
    decreases |lines|
  {
    if |lines| == 0 then Success(st)
    else
      var next :- Step(st, lines[0], atof);
      assert forall k :: 0 <= k < |lines| - 1 ==> lines[1..][k] == lines[k + 1];
      ParseLines(next, lines[1..], atof)
  }

  /** The calibration `main` has assembled once the input is exhausted. */
  function Parse(lines: seq<string>, atof: string -> real): (r: Result<Calibration, ParseError>)
    ensures (forall k :: 0 <= k < |lines| ==> Unmarked(lines[k])) ==> r == Success(Calibration(Unset, Unset, None, None))
    ensures r.Failure? ==> exists k :: 0 <= k < |lines| && r.error.line == lines[k]
  {
    var st :- ParseLines(Initial, lines, atof);
    Success(st.calib)
  }

  // ---------------------------------------------------------------------------
  // The imperative loop

  /** The parser state held by main's locals and the two camera records. */
  function StateOf(left: CameraParameters, right: CameraParameters, sideLeft: bool,
                   orientation: Option<Quaternion>, translation: Option<Vec3>): ParseState
    reads left, left.disto, right, right.disto
    requires left.Valid() && right.Valid()
  {
    ParseState(Calibration(left.Value(), right.Value(), orientation, translation), sideLeft)
  }

  /** `setValues`: fx, fy, cx, cy from the first four values; the distortion array is not touched. */
  method SetValues(param: CameraParameters, values: seq<real>)
    requires param.Valid() && |values| >= 4
    modifies param
    ensures param.Valid()
    ensures param.Value() == WithProjection(old(param.Value()), values)
  {
    param.fx := values[0];
    param.fy := values[1];
    param.cx := values[2];
    param.cy := values[3];
  }

  /** The "distortion:" block of the loop body. */
  method ReadDistortion(line: string, atof: string -> real, left: CameraParameters, right: CameraParameters,
                        sideLeft: bool, ghost orientation: Option<Quaternion>, ghost translation: Option<Vec3>)
    returns (err: Option<ParseError>)
    requires left.Valid() && right.Valid() && left.disto != right.disto
    modifies left.disto, right.disto
    ensures DistortionLine(old(StateOf(left, right, sideLeft, orientation, translation)), line, atof)
            == if err.Some? then Failure(err.value) else Success(StateOf(left, right, sideLeft, orientation, translation))
  {
    err := None;
    if Contains(line, "distortion:") {
      var values := KeepUseful(line);
      var disto := Split(values, ' ', atof);
      assert disto == Values(line, atof);
      if |disto| > 5 {
        return Some(TooManyDistortionValues(line));
      }
      if sideLeft {
        WriteDistortion(left.disto, disto);
      } else {
        WriteDistortion(right.disto, disto);
      }
    }
  }

  /**
   * The copy loop of the "distortion:" block, on the current side's array
   * (the program tests `side_left` inside the loop; it does not change there).
   */
  method WriteDistortion(a: array<real>, values: seq<real>)
    requires a.Length == 5 && |values| <= 5
    modifies a
    ensures a[..] == WithDistortion(old(a[..]), values)
  {
    ghost var before := a[..];
    for d := 0 to |values|
      invariant forall k :: 0 <= k < 5 ==> a[k] == if k < d then values[k] else before[k]
    {
      a[d] := values[d];
    }
    assert a[..] == WithDistortion(before, values);
  }

  /** The "projection:" block of the loop body. */
  method ReadProjection(line: string, atof: string -> real, left: CameraParameters, right: CameraParameters,
                        sideLeft: bool, ghost orientation: Option<Quaternion>, ghost translation: Option<Vec3>)
    returns (err: Option<ParseError>, sideLeft': bool)
    requires left.Valid() && right.Valid() && left.disto != right.disto
    modifies left, right
    ensures ProjectionLine(old(StateOf(left, right, sideLeft, orientation, translation)), line, atof)
            == if err.Some? then Failure(err.value) else Success(StateOf(left, right, sideLeft', orientation, translation))
  {
    err, sideLeft' := None, sideLeft;
    if Contains(line, "projection:") {
      var values := KeepUseful(line);
      var k := Split(values, ' ', atof);
      assert k == Values(line, atof);
      if |k| < 4 {
        return Some(TooFewProjectionValues(line)), sideLeft;
      }
      ghost var l0, r0 := left.Value(), right.Value();
      assert left != right;
      if sideLeft {
        SetValues(left, k);
        assert right.Value() == r0;
        sideLeft' := false;
      } else {
        SetValues(right, k);
        assert left.Value() == l0;
      }
    }
  }

  /** The "q:" block of the loop body; `st` is the state it continues from. */
  method ReadOrientation(line: string, atof: string -> real, ghost st: ParseState, orientation: Option<Quaternion>)
    returns (err: Option<ParseError>, orientation': Option<Quaternion>)
    requires st.calib.orientation == orientation
    ensures OrientationLine(st, line, atof)
            == if err.Some? then Failure(err.value) else Success(st.(calib := st.calib.(orientation := orientation')))
  {
    err, orientation' := None, orientation;
    if Contains(line, "q:") {
      var values := KeepUseful(line);
      var q := Split(values, ' ', atof);
      assert q == Values(line, atof);
      if |q| < 4 {
        return Some(TooFewOrientationValues(line)), orientation;
      }
      orientation' := Some(Quaternion(q[0], q[1], q[2], q[3]));
    }
  }

  /** The "t:" block of the loop body; `st` is the state it continues from. */
  method ReadTranslation(line: string, atof: string -> real, ghost st: ParseState, translation: Option<Vec3>)
    returns (err: Option<ParseError>, translation': Option<Vec3>)
    requires st.calib.translation == translation
    ensures TranslationLine(st, line, atof)
            == if err.Some? then Failure(err.value) else Success(st.(calib := st.calib.(translation := translation')))
  {
    err, translation' := None, translation;
    if Contains(line, "t:") {
      var values := KeepUseful(line);
      var t := Split(values, ' ', atof);
      assert t == Values(line, atof);
      if |t| < 3 {
        return Some(TooFewTranslationValues(line)), translation;
      }
      translation' := Some(Vec3(t[0], t[1], t[2]));
    }
  }

  /** One more line read: the fold continues from the state the line leads to. */
  lemma ParseLinesStep(st: ParseState, lines: seq<string>, i: nat, atof: string -> real)
    requires i < |lines|
    ensures ParseLines(st, lines[i..], atof)
            == match Step(st, lines[i], atof)
               case Failure(e) => Failure(e)
               case Success(next) => ParseLines(next, lines[i + 1..], atof)
  {
    assert lines[i..][1..] == lines[i + 1..];
  }

  /** The body of `main`'s loop: the four marker blocks on one line, in source order. */
  method ReadLine(line: string, atof: string -> real, left: CameraParameters, right: CameraParameters,
                  sideLeft: bool, orientation: Option<Quaternion>, translation: Option<Vec3>)
    returns (err: Option<ParseError>, sideLeft': bool, orientation': Option<Quaternion>, translation': Option<Vec3>)
    requires left.Valid() && right.Valid() && left.disto != right.disto
    modifies left, right, left.disto, right.disto
    ensures left.Valid() && right.Valid()
    ensures Step(old(StateOf(left, right, sideLeft, orientation, translation)), line, atof)
            == if err.Some? then Failure(err.value) else Success(StateOf(left, right, sideLeft', orientation', translation'))
  {
    ghost var st0 := StateOf(left, right, sideLeft, orientation, translation);
    sideLeft', orientation', translation' := sideLeft, orientation, translation;
    err := ReadDistortion(line, atof, left, right, sideLeft, orientation, translation);
    if err.Some? {
      return;
    }
    ghost var s1 := StateOf(left, right, sideLeft, orientation, translation);
    err, sideLeft' := ReadProjection(line, atof, left, right, sideLeft, orientation, translation);
    if err.Some? {
      return;
    }
    ghost var s2 := StateOf(left, right, sideLeft', orientation, translation);
    err, orientation' := ReadOrientation(line, atof, s2, orientation);
    if err.Some? {
      return;
    }
    ghost var s3 := StateOf(left, right, sideLeft', orientation', translation);
    err, translation' := ReadTranslation(line, atof, s3, translation);
  }

  /** `main`'s `while (getline)` loop over the lines of the calibration file. */
  method ReadKalibr(lines: seq<string>, atof: string -> real) returns (r: Result<Calibration, ParseError>)
    ensures r == Parse(lines, atof)
  {
    var left := new CameraParameters();
    var right := new CameraParameters();
    var sideLeft := true;
    var orientation: Option<Quaternion> := None;
    var translation: Option<Vec3> := None;
    var i := 0;
    while i < |lines|
      invariant 0 <= i <= |lines|
      invariant left.Valid() && right.Valid() && left.disto != right.disto
      invariant ParseLines(StateOf(left, right, sideLeft, orientation, translation), lines[i..], atof)
                == ParseLines(Initial, lines, atof)
    {
      ParseLinesStep(StateOf(left, right, sideLeft, orientation, translation), lines, i, atof);
      var err;
      err, sideLeft, orientation, translation := ReadLine(lines[i], atof, left, right, sideLeft, orientation, translation);
      if err.Some? {
        return Failure(err.value);
      }
      i := i + 1;
    }
    r := Success(StateOf(left, right, sideLeft, orientation, translation).calib);
  }
}
