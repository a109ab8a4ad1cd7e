/**
 * What the line-dispatch parser guarantees, proved about its specification
 * ParseLines / Parse (which ReadKalibr implements).
 */
module ParserFacts {
  import opened Wrappers
  import opened KalibrText
  import opened CameraModel
  import opened KalibrParser

  /** fx, fy, cx, cy of one camera. */
  function Pinhole(c: Intrinsics): (real, real, real, real) {
    (c.fx, c.fy, c.cx, c.cy)
  }

  /** The first four numbers of a line, as a projection line assigns them. */
  function FirstFour(line: string, atof: string -> real): (real, real, real, real)
    requires TokenCount(line) >= 4
  {
    var v := Values(line, atof);
    (v[0], v[1], v[2], v[3])
  }

  /** A line the loop can process without indexing out of range. */
  predicate LineWellFormed(line: string) {
    && (Contains(line, "distortion:") ==> TokenCount(line) <= 5)
    && (Contains(line, "projection:") ==> TokenCount(line) >= 4)
    && (Contains(line, "q:") ==> TokenCount(line) >= 4)
    && (Contains(line, "t:") ==> TokenCount(line) >= 3)
  }

  predicate NoMarker(lines: seq<string>, marker: string) {
    forall k :: 0 <= k < |lines| ==> !Contains(lines[k], marker)
  }

  /** A list has no line with the marker when its first line and its tail have none. */
  lemma NoMarkerCons(lines: seq<string>, marker: string)
    requires |lines| > 0
    ensures NoMarker(lines, marker) <==> !Contains(lines[0], marker) && NoMarker(lines[1..], marker)
  {
    assert forall j :: 1 <= j < |lines| ==> lines[1..][j - 1] == lines[j];
  }

  /** Reading xs then ys is reading xs and continuing from where it stopped. */
  lemma {:induction false} ParseLinesAppend(st: ParseState, xs: seq<string>, ys: seq<string>, atof: string -> real)
    ensures ParseLines(st, xs, atof).Failure? ==> ParseLines(st, xs + ys, atof) == ParseLines(st, xs, atof)
    ensures ParseLines(st, xs, atof).Success? ==>
      ParseLines(st, xs + ys, atof) == ParseLines(ParseLines(st, xs, atof).value, ys, atof)
    decreases |xs|
  {
    if |xs| == 0 {
      assert xs + ys == ys;
    } else {
      assert (xs + ys)[0] == xs[0];
      assert (xs + ys)[1..] == xs[1..] + ys;
      match Step(st, xs[0], atof)
      case Failure(e) =>
      case Success(next) => ParseLinesAppend(next, xs[1..], ys, atof);
    }
  }

  /** States with the same flag, the same fx, fy, cx, cy per camera and the same pose. */
  ghost predicate SameButDistortion(a: ParseState, b: ParseState) {
    && a.sideLeft == b.sideLeft
    && Pinhole(a.calib.left) == Pinhole(b.calib.left) && Pinhole(a.calib.right) == Pinhole(b.calib.right)
    && a.calib.orientation == b.calib.orientation && a.calib.translation == b.calib.translation
  }

  /** A "distortion:" line fails when it has more than five values, and only touches the current side's distortion. */
  lemma DistortionFacts(st: ParseState, line: string, k: nat, atof: string -> real)
    ensures var r := DistortionLine(st, line, atof);
      && (!Contains(line, "distortion:") ==> r == Success(st))
      && (r.Success? <==> (Contains(line, "distortion:") ==> TokenCount(line) <= 5))
      && (r.Failure? ==> r.error.line == line)
      && (r.Success? ==> SameButDistortion(r.value, st))
      && (r.Success? && !st.sideLeft ==> r.value.calib.left == st.calib.left)
      && (r.Success? && st.sideLeft ==> r.value.calib.right == st.calib.right)
      && (r.Success? && k < 5 && (Contains(line, "distortion:") ==> TokenCount(line) <= k) ==>
            r.value.calib.left.disto[k] == st.calib.left.disto[k] && r.value.calib.right.disto[k] == st.calib.right.disto[k])
  {
  }

  /** A "projection:" line fails with fewer than four values, fills the current side's fx, fy, cx, cy and moves to the right side. */
  lemma ProjectionFacts(st: ParseState, line: string, atof: string -> real)
    ensures var r := ProjectionLine(st, line, atof);
      && (!Contains(line, "projection:") ==> r == Success(st))
      && (r.Success? <==> (Contains(line, "projection:") ==> TokenCount(line) >= 4))
      && (r.Failure? ==> r.error.line == line)
      && (r.Success? ==> r.value.sideLeft == (st.sideLeft && !Contains(line, "projection:")))
      && (r.Success? ==> r.value.calib.left.disto == st.calib.left.disto && r.value.calib.right.disto == st.calib.right.disto)
      && (r.Success? ==> r.value.calib.orientation == st.calib.orientation && r.value.calib.translation == st.calib.translation)
      && (r.Success? && !st.sideLeft ==> r.value.calib.left == st.calib.left)
      && (r.Success? && st.sideLeft ==> r.value.calib.right == st.calib.right)
      && (r.Success? && Contains(line, "projection:") ==>
            TokenCount(line) >= 4
            && Pinhole(if st.sideLeft then r.value.calib.left else r.value.calib.right) == FirstFour(line, atof))
  {
  }

  /** A "q:" line fails with fewer than four values and otherwise sets only the orientation. */
  lemma OrientationFacts(st: ParseState, line: string, atof: string -> real)
    ensures var r := OrientationLine(st, line, atof);
      && (!Contains(line, "q:") ==> r == Success(st))
      && (r.Success? <==> (Contains(line, "q:") ==> TokenCount(line) >= 4))
      && (r.Failure? ==> r.error.line == line)
      && (r.Success? && Contains(line, "q:") ==>
            var q := Values(line, atof);
            r.value == st.(calib := st.calib.(orientation := Some(Quaternion(q[0], q[1], q[2], q[3])))))
  {
  }

  /** A "t:" line fails with fewer than three values and otherwise sets only the translation. */
  lemma TranslationFacts(st: ParseState, line: string, atof: string -> real)
    ensures var r := TranslationLine(st, line, atof);
      && (!Contains(line, "t:") ==> r == Success(st))
      && (r.Success? <==> (Contains(line, "t:") ==> TokenCount(line) >= 3))
      && (r.Failure? ==> r.error.line == line)
      && (r.Success? && Contains(line, "t:") ==>
            var t := Values(line, atof);
            r.value == st.(calib := st.calib.(translation := Some(Vec3(t[0], t[1], t[2])))))
  {
  }

  /** One line: whether it can fail depends on the line alone, and a failure names it. */
  lemma StepOk(st: ParseState, line: string, atof: string -> real)
    ensures Step(st, line, atof).Success? <==> LineWellFormed(line)
    ensures Step(st, line, atof).Failure? ==> Step(st, line, atof).error.line == line
  {
    DistortionFacts(st, line, 0, atof);
    if DistortionLine(st, line, atof).Success? {
      var s1 := DistortionLine(st, line, atof).value;
      ProjectionFacts(s1, line, atof);
      if ProjectionLine(s1, line, atof).Success? {
        var s2 := ProjectionLine(s1, line, atof).value;
        OrientationFacts(s2, line, atof);
        if OrientationLine(s2, line, atof).Success? {
          TranslationFacts(OrientationLine(s2, line, atof).value, line, atof);
        }
      }
    }
  }

  /** Proof helper: names the three intermediate states of a successful step. */
  lemma StepStages(st: ParseState, line: string, atof: string -> real) returns (s1: ParseState, s2: ParseState, s3: ParseState)
    requires Step(st, line, atof).Success?
    ensures DistortionLine(st, line, atof) == Success(s1)
    ensures ProjectionLine(s1, line, atof) == Success(s2)
    ensures OrientationLine(s2, line, atof) == Success(s3)
    ensures TranslationLine(s3, line, atof) == Step(st, line, atof)
  {
    s1 := DistortionLine(st, line, atof).value;
    s2 := ProjectionLine(s1, line, atof).value;
    s3 := OrientationLine(s2, line, atof).value;
  }

  /** One line: the side flips only on "projection:", and only the current side's camera changes. */
  lemma StepSide(st: ParseState, line: string, atof: string -> real)
    requires Step(st, line, atof).Success?
    ensures var r := Step(st, line, atof).value;
      && r.sideLeft == (st.sideLeft && !Contains(line, "projection:"))
      && (!st.sideLeft ==> r.calib.left == st.calib.left)
      && (st.sideLeft ==> r.calib.right == st.calib.right)
      && (!Contains(line, "projection:") ==>
            Pinhole(r.calib.left) == Pinhole(st.calib.left) && Pinhole(r.calib.right) == Pinhole(st.calib.right))
      && (Contains(line, "projection:") ==>
            TokenCount(line) >= 4
            && Pinhole(if st.sideLeft then r.calib.left else r.calib.right) == FirstFour(line, atof))
  {
    var s1, s2, s3 := StepStages(st, line, atof);
    DistortionFacts(st, line, 0, atof);
    ProjectionFacts(s1, line, atof);
    OrientationFacts(s2, line, atof);
    TranslationFacts(s3, line, atof);
  }

  /** One line: a distortion slot beyond the line's values keeps its value. */
  lemma StepSlotKept(st: ParseState, line: string, k: nat, atof: string -> real)
    requires k < 5 && (Contains(line, "distortion:") ==> TokenCount(line) <= k)
    requires Step(st, line, atof).Success?
    ensures Step(st, line, atof).value.calib.left.disto[k] == st.calib.left.disto[k]
    ensures Step(st, line, atof).value.calib.right.disto[k] == st.calib.right.disto[k]
  {
    var s1, s2, s3 := StepStages(st, line, atof);
    DistortionFacts(st, line, k, atof);
    ProjectionFacts(s1, line, atof);
    OrientationFacts(s2, line, atof);
    TranslationFacts(s3, line, atof);
  }

  /** One line: "q:" sets the orientation from its four values and "t:" the translation from its three. */
  lemma StepPose(st: ParseState, line: string, atof: string -> real)
    requires Step(st, line, atof).Success?
    ensures var r := Step(st, line, atof).value;
      && r.calib.orientation == (if Contains(line, "q:") then
           var q := Values(line, atof); Some(Quaternion(q[0], q[1], q[2], q[3]))
         else st.calib.orientation)
      && r.calib.translation == (if Contains(line, "t:") then
           var t := Values(line, atof); Some(Vec3(t[0], t[1], t[2]))
         else st.calib.translation)
  {
    var s1, s2, s3 := StepStages(st, line, atof);
    DistortionFacts(st, line, 0, atof);
    ProjectionFacts(s1, line, atof);
    OrientationFacts(s2, line, atof);
    TranslationFacts(s3, line, atof);
  }

  /** The parse succeeds exactly when every line is well formed. */
  lemma {:induction false} ParseSucceedsIff(st: ParseState, lines: seq<string>, atof: string -> real)
    ensures ParseLines(st, lines, atof).Success? <==> forall k :: 0 <= k < |lines| ==> LineWellFormed(lines[k])
    decreases |lines|
  {
    if |lines| > 0 {
      StepOk(st, lines[0], atof);
      if Step(st, lines[0], atof).Success? {
        ParseSucceedsIff(Step(st, lines[0], atof).value, lines[1..], atof);
        assert forall k :: 1 <= k < |lines| ==> lines[1..][k - 1] == lines[k];
      }
    }
  }

  /** Line k is the first malformed line. */
  ghost predicate FirstBadAt(lines: seq<string>, k: int) {
    0 <= k < |lines| && !LineWellFormed(lines[k]) && forall j :: 0 <= j < k ==> LineWellFormed(lines[j])
  }

  /** A well-formed first line moves the first malformed line of the tail one place on. */
  lemma FirstBadCons(lines: seq<string>, k: int)
    requires |lines| > 0 && LineWellFormed(lines[0]) && FirstBadAt(lines[1..], k)
    ensures FirstBadAt(lines, k + 1) && lines[k + 1] == lines[1..][k]
  {
    assert forall j :: 1 <= j < k + 1 ==> lines[j] == lines[1..][j - 1];
  }

  /** A failed parse names the first malformed line. */
  lemma {:induction false} ParseFailsAtFirstBadLine(st: ParseState, lines: seq<string>, atof: string -> real)
    requires ParseLines(st, lines, atof).Failure?
    ensures exists k :: FirstBadAt(lines, k) && ParseLines(st, lines, atof).error.line == lines[k]
    decreases |lines|
  {
    StepOk(st, lines[0], atof);
    if Step(st, lines[0], atof).Success? {
      var next := Step(st, lines[0], atof).value;
      ParseFailsAtFirstBadLine(next, lines[1..], atof);
      var k :| FirstBadAt(lines[1..], k) && ParseLines(next, lines[1..], atof).error.line == lines[1..][k];
      FirstBadCons(lines, k);
    } else {
      assert FirstBadAt(lines, 0);
    }
  }

  /** `side_left` is still true exactly when no "projection:" line has been read. */
  lemma {:induction false} SideFlag(st: ParseState, lines: seq<string>, atof: string -> real)
    requires ParseLines(st, lines, atof).Success?
    ensures ParseLines(st, lines, atof).value.sideLeft == (st.sideLeft && NoMarker(lines, "projection:"))
    decreases |lines|
  {
    if |lines| > 0 {
      StepSide(st, lines[0], atof);
      var next := Step(st, lines[0], atof).value;
      SideFlag(next, lines[1..], atof);
      assert forall k :: 1 <= k < |lines| ==> lines[1..][k - 1] == lines[k];
    }
  }

  /** Once the side is right, the left camera is never touched again and the side never flips back. */
  lemma {:induction false} LeftFrozen(st: ParseState, lines: seq<string>, atof: string -> real)
    requires !st.sideLeft
    requires ParseLines(st, lines, atof).Success?
    ensures ParseLines(st, lines, atof).value.calib.left == st.calib.left
    ensures !ParseLines(st, lines, atof).value.sideLeft
    decreases |lines|
  {
    if |lines| > 0 {
      StepSide(st, lines[0], atof);
      LeftFrozen(Step(st, lines[0], atof).value, lines[1..], atof);
    }
  }

  /** Lines without "projection:" change neither camera's fx, fy, cx, cy. */
  lemma {:induction false} PinholesKept(st: ParseState, lines: seq<string>, atof: string -> real)
    requires NoMarker(lines, "projection:")
    requires ParseLines(st, lines, atof).Success?
    ensures Pinhole(ParseLines(st, lines, atof).value.calib.left) == Pinhole(st.calib.left)
    ensures Pinhole(ParseLines(st, lines, atof).value.calib.right) == Pinhole(st.calib.right)
    decreases |lines|
  {
    if |lines| > 0 {
      StepSide(st, lines[0], atof);
      assert !Contains(lines[0], "projection:");
      assert NoMarker(lines[1..], "projection:") by {
        assert forall k :: 0 <= k < |lines[1..]| ==> lines[1..][k] == lines[k + 1];
      }
      PinholesKept(Step(st, lines[0], atof).value, lines[1..], atof);
    }
  }

  /** The first "projection:" line sets the left camera's fx, fy, cx, cy; nothing later changes them. */
  lemma FirstProjectionFillsLeft(xs: seq<string>, l: string, ys: seq<string>, atof: string -> real)
    requires NoMarker(xs, "projection:") && Contains(l, "projection:")
    requires Parse(xs + [l] + ys, atof).Success?
    ensures TokenCount(l) >= 4
    ensures Pinhole(Parse(xs + [l] + ys, atof).value.left) == FirstFour(l, atof)
  {
    ParseLinesAppend(Initial, xs + [l], ys, atof);
    ParseLinesAppend(Initial, xs, [l], atof);
    var m := ParseLines(Initial, xs, atof).value;
    SideFlag(Initial, xs, atof);
    StepOk(m, l, atof);
    StepSide(m, l, atof);
    assert ParseLines(m, [l], atof) == Step(m, l, atof);
    var n := Step(m, l, atof).value;
    LeftFrozen(n, ys, atof);
  }

  /** After the first one, each "projection:" line overwrites the right camera: the last one wins. */
  lemma LastProjectionFillsRight(xs: seq<string>, l: string, ys: seq<string>, atof: string -> real)
    requires !NoMarker(xs, "projection:") && Contains(l, "projection:") && NoMarker(ys, "projection:")
    requires Parse(xs + [l] + ys, atof).Success?
    ensures TokenCount(l) >= 4
    ensures Pinhole(Parse(xs + [l] + ys, atof).value.right) == FirstFour(l, atof)
  {
    ParseLinesAppend(Initial, xs + [l], ys, atof);
    ParseLinesAppend(Initial, xs, [l], atof);
    var m := ParseLines(Initial, xs, atof).value;
    SideFlag(Initial, xs, atof);
    StepOk(m, l, atof);
    StepSide(m, l, atof);
    assert ParseLines(m, [l], atof) == Step(m, l, atof);
    var n := Step(m, l, atof).value;
    PinholesKept(n, ys, atof);
  }

  /** A "distortion:" line writes value d into slot d of the current side and changes nothing else. */
  lemma DistortionLineWrites(st: ParseState, line: string, atof: string -> real)
    requires Contains(line, "distortion:") && TokenCount(line) <= 5
    ensures DistortionLine(st, line, atof).Success?
    ensures var r := DistortionLine(st, line, atof).value;
      var v := Values(line, atof);
      var (cur, cur', other, other') :=
        if st.sideLeft then (st.calib.left, r.calib.left, st.calib.right, r.calib.right)
        else (st.calib.right, r.calib.right, st.calib.left, r.calib.left);
      && r.sideLeft == st.sideLeft
      && other' == other
      && Pinhole(cur') == Pinhole(cur)
      && (forall d :: 0 <= d < |v| ==> cur'.disto[d] == v[d])
      && (forall d :: |v| <= d < 5 ==> cur'.disto[d] == cur.disto[d])
  {
  }

  /** Every "distortion:" line of `lines` holds at most k values. */
  predicate DistortionAtMost(lines: seq<string>, k: nat) {
    forall j :: 0 <= j < |lines| && Contains(lines[j], "distortion:") ==> TokenCount(lines[j]) <= k
  }

  /** A slot beyond the length of every "distortion:" line keeps its value. */
  lemma {:induction false} SlotKept(st: ParseState, lines: seq<string>, k: nat, atof: string -> real)
    requires k < 5
    requires DistortionAtMost(lines, k)
    requires ParseLines(st, lines, atof).Success?
    ensures ParseLines(st, lines, atof).value.calib.left.disto[k] == st.calib.left.disto[k]
    ensures ParseLines(st, lines, atof).value.calib.right.disto[k] == st.calib.right.disto[k]
    decreases |lines|
  {
    if |lines| > 0 {
      StepSlotKept(st, lines[0], k, atof);
      var next := Step(st, lines[0], atof).value;
      assert forall j :: 0 <= j < |lines[1..]| ==> lines[1..][j] == lines[j + 1];
      SlotKept(next, lines[1..], k, atof);
    }
  }

  /** Distortion slots that no line reaches stay 0, as the arrays were zeroed. */
  lemma UnwrittenSlotsStayZero(lines: seq<string>, k: nat, atof: string -> real)
    requires k < 5
    requires DistortionAtMost(lines, k)
    requires Parse(lines, atof).Success?
    ensures Parse(lines, atof).value.left.disto[k] == 0.0
    ensures Parse(lines, atof).value.right.disto[k] == 0.0
  {
    SlotKept(Initial, lines, k, atof);
    UnsetSlotZero(k);
    assert Parse(lines, atof).value == ParseLines(Initial, lines, atof).value.calib;
  }

  /** While the side is left, the right camera is not touched and the side stays left. */
  lemma {:induction false} RightKeptWhileLeft(st: ParseState, lines: seq<string>, atof: string -> real)
    requires st.sideLeft && NoMarker(lines, "projection:")
    requires ParseLines(st, lines, atof).Success?
    ensures ParseLines(st, lines, atof).value.calib.right == st.calib.right
    ensures ParseLines(st, lines, atof).value.sideLeft
    decreases |lines|
  {
    if |lines| > 0 {
      StepSide(st, lines[0], atof);
      NoMarkerCons(lines, "projection:");
      RightKeptWhileLeft(Step(st, lines[0], atof).value, lines[1..], atof);
    }
  }

  /**
   * The state after the first "projection:" line l (xs holds the lines before
   * it): the side is right and the right camera is still unset.
   */
  lemma AfterFirstProjection(xs: seq<string>, l: string, ys: seq<string>, atof: string -> real) returns (n: ParseState)
    requires NoMarker(xs, "projection:") && Contains(l, "projection:")
    requires Parse(xs + [l] + ys, atof).Success?
    ensures ParseLines(Initial, xs + [l], atof) == Success(n)
    ensures ParseLines(n, ys, atof) == ParseLines(Initial, xs + [l] + ys, atof)
    ensures n.calib.right == Unset && !n.sideLeft
  {
    ParseLinesAppend(Initial, xs + [l], ys, atof);
    ParseLinesAppend(Initial, xs, [l], atof);
    var m := ParseLines(Initial, xs, atof).value;
    SideFlag(Initial, xs, atof);
    RightKeptWhileLeft(Initial, xs, atof);
    StepOk(m, l, atof);
    StepSide(m, l, atof);
    assert ParseLines(m, [l], atof) == Step(m, l, atof);
    n := Step(m, l, atof).value;
  }

  /**
   * Unwritten slots stay 0 in the left camera: a slot no distortion line up to
   * and including the first "projection:" line reaches, whatever the right
   * camera's distortion lines hold.
   */
  lemma LeftUnwrittenSlotStaysZero(xs: seq<string>, l: string, ys: seq<string>, k: nat, atof: string -> real)
    requires k < 5 && DistortionAtMost(xs + [l], k)
    requires NoMarker(xs, "projection:") && Contains(l, "projection:")
    requires Parse(xs + [l] + ys, atof).Success?
    ensures Parse(xs + [l] + ys, atof).value.left.disto[k] == 0.0
  {
    var n := AfterFirstProjection(xs, l, ys, atof);
    SlotKept(Initial, xs + [l], k, atof);
    assert n.calib.left.disto[k] == Unset.disto[k];
    UnsetSlotZero(k);
    LeftFrozen(n, ys, atof);
    var f := ParseLines(n, ys, atof).value;
    assert Parse(xs + [l] + ys, atof).value == f.calib;
  }

  /** From an unset right camera, a slot no later distortion line reaches stays 0. */
  lemma RightSlotFromUnset(n: ParseState, ys: seq<string>, k: nat, atof: string -> real)
    requires k < 5 && DistortionAtMost(ys, k)
    requires n.calib.right == Unset
    requires ParseLines(n, ys, atof).Success?
    ensures ParseLines(n, ys, atof).value.calib.right.disto[k] == 0.0
  {
    SlotKept(n, ys, k, atof);
    UnsetSlotZero(k);
  }

  /**
   * Unwritten slots stay 0 in the right camera: a slot no distortion line
   * after the first "projection:" line reaches, whatever the left camera's
   * distortion lines hold.
   */
  lemma RightUnwrittenSlotStaysZero(xs: seq<string>, l: string, ys: seq<string>, k: nat, atof: string -> real)
    requires k < 5 && DistortionAtMost(ys, k)
    requires NoMarker(xs, "projection:") && Contains(l, "projection:")
    requires Parse(xs + [l] + ys, atof).Success?
    ensures Parse(xs + [l] + ys, atof).value.right.disto[k] == 0.0
  {
    var n := AfterFirstProjection(xs, l, ys, atof);
    RightSlotFromUnset(n, ys, k, atof);
  }

  /** Without any "projection:" line the right camera stays unset, and unreached left slots stay 0. */
  lemma UnwrittenSlotsWithoutProjection(lines: seq<string>, k: nat, atof: string -> real)
    requires k < 5 && NoMarker(lines, "projection:")
    requires Parse(lines, atof).Success?
    ensures Parse(lines, atof).value.right == Unset
    ensures DistortionAtMost(lines, k) ==> Parse(lines, atof).value.left.disto[k] == 0.0
  {
    var f := ParseLines(Initial, lines, atof).value;
    assert Parse(lines, atof).value == f.calib;
    RightKeptWhileLeft(Initial, lines, atof);
    if DistortionAtMost(lines, k) {
      SlotKept(Initial, lines, k, atof);
      assert f.calib.left.disto[k] == Initial.calib.left.disto[k];
      UnsetSlotZero(k);
    }
  }

  /** The orientation is left alone by lines without "q:" and set by any line with it. */
  lemma {:induction false} OrientationSet(st: ParseState, lines: seq<string>, atof: string -> real)
    requires ParseLines(st, lines, atof).Success?
    ensures var r := ParseLines(st, lines, atof).value;
      if NoMarker(lines, "q:") then r.calib.orientation == st.calib.orientation else r.calib.orientation.Some?
    decreases |lines|
  {
    if |lines| > 0 {
      StepPose(st, lines[0], atof);
      var next := Step(st, lines[0], atof).value;
      OrientationSet(next, lines[1..], atof);
      NoMarkerCons(lines, "q:");
    }
  }

  /** The translation is left alone by lines without "t:" and set by any line with it. */
  lemma {:induction false} TranslationSet(st: ParseState, lines: seq<string>, atof: string -> real)
    requires ParseLines(st, lines, atof).Success?
    ensures var r := ParseLines(st, lines, atof).value;
      if NoMarker(lines, "t:") then r.calib.translation == st.calib.translation else r.calib.translation.Some?
    decreases |lines|
  {
    if |lines| > 0 {
      StepPose(st, lines[0], atof);
      var next := Step(st, lines[0], atof).value;
      TranslationSet(next, lines[1..], atof);
      NoMarkerCons(lines, "t:");
    }
  }

  /** The orientation is missing exactly when no "q:" line was read, the translation when no "t:" line was. */
  lemma PoseMissingIff(lines: seq<string>, atof: string -> real)
    requires Parse(lines, atof).Success?
    ensures Parse(lines, atof).value.orientation.None? <==> NoMarker(lines, "q:")
    ensures Parse(lines, atof).value.translation.None? <==> NoMarker(lines, "t:")
  {
    OrientationSet(Initial, lines, atof);
    TranslationSet(Initial, lines, atof);
  }

  /** The last "q:" line gives the orientation and the last "t:" line the translation. */
  lemma LastPoseLinesWin(xs: seq<string>, l: string, ys: seq<string>, atof: string -> real)
    requires Parse(xs + [l] + ys, atof).Success?
    ensures Contains(l, "q:") && NoMarker(ys, "q:") ==>
      TokenCount(l) >= 4 &&
      var q := Values(l, atof);
      Parse(xs + [l] + ys, atof).value.orientation == Some(Quaternion(q[0], q[1], q[2], q[3]))
    ensures Contains(l, "t:") && NoMarker(ys, "t:") ==>
      TokenCount(l) >= 3 &&
      var t := Values(l, atof);
      Parse(xs + [l] + ys, atof).value.translation == Some(Vec3(t[0], t[1], t[2]))
  {
    ParseLinesAppend(Initial, xs + [l], ys, atof);
    ParseLinesAppend(Initial, xs, [l], atof);
    var m := ParseLines(Initial, xs, atof).value;
    StepOk(m, l, atof);
    StepPose(m, l, atof);
    assert ParseLines(m, [l], atof) == Step(m, l, atof);
    var n := Step(m, l, atof).value;
    OrientationSet(n, ys, atof);
    TranslationSet(n, ys, atof);
  }
}
