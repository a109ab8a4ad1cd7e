/**
 * The ZED `.conf` writer: `writeFullCalibration` lays the calibration out as
 * three INI sections, [LEFT_CAM_HD], [RIGHT_CAM_HD] and [STEREO], each a list
 * of key=value fields followed by a blank line. The numbers' `%f` rendering
 * is not modelled: a field carries its value as a real.
 */
module ConfWriter {
  import opened Wrappers
  import opened CameraModel
  import opened KalibrParser

  datatype Field = Field(key: string, value: real)
  datatype Section = Section(name: string, fields: seq<Field>)

  /** A whole `.conf` file, section by section. */
  type Conf = seq<Section>

  function Keys(fs: seq<Field>): (ks: seq<string>)
    ensures |ks| == |fs| && forall i :: 0 <= i < |fs| ==> ks[i] == fs[i].key
  {
    seq(|fs|, i requires 0 <= i < |fs| => fs[i].key)
  }

  function Names(conf: Conf): (ns: seq<string>)
    ensures |ns| == |conf| && forall i :: 0 <= i < |conf| ==> ns[i] == conf[i].name
  {
    seq(|conf|, i requires 0 <= i < |conf| => conf[i].name)
  }

  const LeftSection: string := "LEFT_CAM_HD"
  const RightSection: string := "RIGHT_CAM_HD"
  const StereoSectionName: string := "STEREO"

  /** The keys of a camera section, in the order they are written. */
  const CameraKeys: seq<string> := ["fx", "fy", "cx", "cy", "k1", "k2", "p1", "p2", "k3"]

  /** The keys of the stereo section, in the order they are written. */
  const StereoKeys: seq<string> := ["Baseline", "TY", "TZ", "RX_HD", "CV_HD", "RZ_HD"]

  /** The file name the converter writes for a serial number. */
  function ConfFileName(serial: string): (name: string)
    ensures |name| == |serial| + 7
    ensures name[..2] == "SN" && name[2..|name| - 5] == serial && name[|name| - 5..] == ".conf"
  {
    "SN" + serial + ".conf"
  }

  /** One camera section: the four pinhole values, then the distortion slots 0 to 4 as k1, k2, p1, p2, k3. */
  function CameraSection(name: string, c: Intrinsics): (s: Section)
    ensures s.name == name && Keys(s.fields) == CameraKeys
  {
    Section(name, [Field("fx", c.fx), Field("fy", c.fy), Field("cx", c.cx), Field("cy", c.cy),
                   Field("k1", c.disto[0]), Field("k2", c.disto[1]), Field("p1", c.disto[2]),
                   Field("p2", c.disto[3]), Field("k3", c.disto[4])])
  }

  /**
   * The stereo transform after parsing: it starts as the identity, whose
   * rotation vector and translation are zero; a "q:" line sets its rotation
   * and a "t:" line its translation. `rotationVector` is the runtime's
   * quaternion to axis-angle conversion. Result: (rotation vector, translation).
   */
  function StereoTransform(calib: Calibration, rotationVector: Quaternion -> Vec3): (rt: (Vec3, Vec3))
    ensures calib.orientation.Some? ==> rt.0 == rotationVector(calib.orientation.value)
    ensures calib.orientation.None? ==> rt.0 == Vec3(0.0, 0.0, 0.0)
    ensures calib.translation.Some? ==> rt.1 == calib.translation.value
    ensures calib.translation.None? ==> rt.1 == Vec3(0.0, 0.0, 0.0)
  {
    var rot := match calib.orientation
      case Some(q) => rotationVector(q)
      case None => Vec3(0.0, 0.0, 0.0);
    var trans := match calib.translation
      case Some(t) => t
      case None => Vec3(0.0, 0.0, 0.0);
    (rot, trans)
  }

  /** The stereo section: the baseline in millimetres with its sign flipped, TY, TZ, then the rotation vector. */
  function StereoSection(rot: Vec3, trans: Vec3): (s: Section)
    ensures s.name == StereoSectionName && Keys(s.fields) == StereoKeys
  {
    Section(StereoSectionName, [Field("Baseline", trans.x * -1000.0), Field("TY", trans.y), Field("TZ", trans.z),
                                Field("RX_HD", rot.x), Field("CV_HD", rot.y), Field("RZ_HD", rot.z)])
  }

  /** `writeFullCalibration`: both cameras' intrinsics as held, then the stereo section. */
  function WriteFullCalibration(calib: Calibration, rotationVector: Quaternion -> Vec3): (conf: Conf)
    ensures Names(conf) == [LeftSection, RightSection, StereoSectionName]
  {
    var (rot, trans) := StereoTransform(calib, rotationVector);
    [CameraSection(LeftSection, calib.left), CameraSection(RightSection, calib.right), StereoSection(rot, trans)]
  }

  /** The whole converter: parse the Kalibr lines, then lay out what was parsed. */
  function KalibrToConf(lines: seq<string>, atof: string -> real, rotationVector: Quaternion -> Vec3): (r: Result<Conf, ParseError>)
    ensures r.Success? <==> Parse(lines, atof).Success?
    ensures r.Failure? ==> r.error == Parse(lines, atof).error
  {
    var calib :- Parse(lines, atof);
    Success(WriteFullCalibration(calib, rotationVector))
  }
}

/**
 * Reading a `.conf` file back, as a consumer of the format does: the first
 * section of a name, and in it the first field of a key. It is the partner
 * of the writer: what was written is read back.
 */
module ConfReader {
  import opened Wrappers
  import opened CameraModel
  import opened KalibrParser
  import opened ConfWriter

  function FieldValue(fs: seq<Field>, key: string): (r: Option<real>)
    ensures r.None? <==> key !in Keys(fs)
    ensures r.Some? ==> exists i :: 0 <= i < |fs| && fs[i] == Field(key, r.value)
  {
    if |fs| == 0 then None
    else if fs[0].key == key then Some(fs[0].value)
    else
      var r := FieldValue(fs[1..], key);
      assert Keys(fs) == [fs[0].key] + Keys(fs[1..]);
      assert r.Some? ==> exists i :: 0 <= i < |fs[1..]| && fs[1..][i] == Field(key, r.value);
      r
  }

  function SectionFields(conf: Conf, name: string): (r: Option<seq<Field>>)
    ensures r.None? <==> name !in Names(conf)
    ensures r.Some? ==> Section(name, r.value) in conf
  {
    if |conf| == 0 then None
    else if conf[0].name == name then Some(conf[0].fields)
    else
      var r := SectionFields(conf[1..], name);
      assert Names(conf) == [conf[0].name] + Names(conf[1..]);
      r
  }

  /** The values of the given keys, in their order; None if a key is missing. */
  function ValuesOf(fs: seq<Field>, ks: seq<string>): (r: Option<seq<real>>)
    ensures r.Some? <==> forall j :: 0 <= j < |ks| ==> ks[j] in Keys(fs)
    ensures r.Some? ==> |r.value| == |ks| && forall j :: 0 <= j < |ks| ==> FieldValue(fs, ks[j]) == Some(r.value[j])
  {
    if forall j :: 0 <= j < |ks| ==> FieldValue(fs, ks[j]).Some? then
      Some(seq(|ks|, j requires 0 <= j < |ks| => FieldValue(fs, ks[j]).value))
    else None
  }

  /** A camera section read back into intrinsics; None if the section or a key is missing. */
  function ReadCamera(conf: Conf, name: string): Option<Intrinsics> {
    match SectionFields(conf, name)
    case None => None
    case Some(fs) =>
      match ValuesOf(fs, CameraKeys)
      case None => None
      case Some(v) => Some(Intrinsics(v[0], v[1], v[2], v[3], v[4..9]))
  }

  /** The stereo section read back as (rotation vector, translation); the baseline undoes its scaling by -1000. */
  function ReadStereo(conf: Conf): Option<(Vec3, Vec3)> {
    match SectionFields(conf, StereoSectionName)
    case None => None
    case Some(fs) =>
      match ValuesOf(fs, StereoKeys)
      case None => None
      case Some(v) => Some((Vec3(v[3], v[4], v[5]), Vec3(v[0] / -1000.0, v[1], v[2])))
  }

  /** No key occurs twice. */
  predicate DistinctKeys(ks: seq<string>) {
    forall i, j :: 0 <= i < j < |ks| ==> ks[i] != ks[j]
  }

  /** The field at the first position of its key is the one found. */
  lemma {:induction false} FieldValueAt(fs: seq<Field>, i: nat)
    requires i < |fs| && fs[i].key !in Keys(fs[..i])
    ensures FieldValue(fs, fs[i].key) == Some(fs[i].value)
  {
    if i > 0 {
      assert fs[0].key == Keys(fs[..i])[0];
      assert Keys(fs[1..][..i - 1]) == Keys(fs[..i])[1..];
      FieldValueAt(fs[1..], i - 1);
    }
  }

  /** The section at the first position of its name is the one found. */
  lemma {:induction false} SectionAt(conf: Conf, i: nat)
    requires i < |conf| && forall j :: 0 <= j < i ==> conf[j].name != conf[i].name
    ensures SectionFields(conf, conf[i].name) == Some(conf[i].fields)
  {
    if i > 0 {
      assert conf[0].name != conf[i].name;
      assert forall j :: 0 <= j < i - 1 ==> conf[1..][j] == conf[j + 1];
      SectionAt(conf[1..], i - 1);
    }
  }

  /** The values of a section, in order. */
  function FieldValues(fs: seq<Field>): (vs: seq<real>)
    ensures |vs| == |fs| && forall i :: 0 <= i < |fs| ==> vs[i] == fs[i].value
  {
    seq(|fs|, i requires 0 <= i < |fs| => fs[i].value)
  }

  /** Reading a section by its own keys, when they are distinct, gives its values in order. */
  lemma ValuesOfOwnKeys(fs: seq<Field>)
    requires DistinctKeys(Keys(fs))
    ensures ValuesOf(fs, Keys(fs)) == Some(FieldValues(fs))
  {
    var ks := Keys(fs);
    forall j | 0 <= j < |fs|
      ensures FieldValue(fs, ks[j]) == Some(fs[j].value)
    {
      assert fs[j].key !in Keys(fs[..j]) by {
        forall i | 0 <= i < j ensures Keys(fs[..j])[i] != fs[j].key {
          assert ks[i] != ks[j];
        }
      }
      FieldValueAt(fs, j);
    }
    var r := ValuesOf(fs, ks);
    assert r.Some?;
    assert r.value == FieldValues(fs);
  }

  lemma KeyOrderDistinct()
    ensures DistinctKeys(CameraKeys) && DistinctKeys(StereoKeys)
  {
  }

  /** A section found by its name and read by its own distinct keys gives its values in order. */
  lemma SectionValues(conf: Conf, i: nat, ks: seq<string>) returns (v: seq<real>)
    requires i < |conf| && forall j :: 0 <= j < i ==> conf[j].name != conf[i].name
    requires Keys(conf[i].fields) == ks && DistinctKeys(ks)
    ensures SectionFields(conf, conf[i].name) == Some(conf[i].fields)
    ensures ValuesOf(conf[i].fields, ks) == Some(v) && v == FieldValues(conf[i].fields)
  {
    SectionAt(conf, i);
    ValuesOfOwnKeys(conf[i].fields);
    v := FieldValues(conf[i].fields);
  }

  /** The values of a camera section: fx, fy, cx, cy, then the five distortion slots. */
  lemma CameraValues(name: string, c: Intrinsics)
    ensures FieldValues(CameraSection(name, c).fields) == [c.fx, c.fy, c.cx, c.cy] + c.disto
  {
    var v := FieldValues(CameraSection(name, c).fields);
    assert forall d :: 4 <= d < 9 ==> v[d] == c.disto[d - 4];
  }

  /** The values read from a camera section found by its name. */
  lemma CameraSectionValues(conf: Conf, i: nat, name: string, c: Intrinsics) returns (v: seq<real>)
    requires i < |conf| && conf[i] == CameraSection(name, c)
    requires forall j :: 0 <= j < i ==> conf[j].name != name
    ensures SectionFields(conf, name) == Some(conf[i].fields) && ValuesOf(conf[i].fields, CameraKeys) == Some(v)
    ensures |v| == 9 && Intrinsics(v[0], v[1], v[2], v[3], v[4..9]) == c
  {
    KeyOrderDistinct();
    v := SectionValues(conf, i, CameraKeys);
    CameraValues(name, c);
    assert v[4..9] == c.disto;
  }

  /** The values read from the stereo section found by its name. */
  lemma StereoSectionValues(conf: Conf, i: nat, rot: Vec3, trans: Vec3) returns (v: seq<real>)
    requires i < |conf| && conf[i] == StereoSection(rot, trans)
    requires forall j :: 0 <= j < i ==> conf[j].name != StereoSectionName
    ensures SectionFields(conf, StereoSectionName) == Some(conf[i].fields) && ValuesOf(conf[i].fields, StereoKeys) == Some(v)
    ensures |v| == 6 && v[0] == trans.x * -1000.0 && Vec3(v[3], v[4], v[5]) == rot && v[1] == trans.y && v[2] == trans.z
  {
    KeyOrderDistinct();
    v := SectionValues(conf, i, StereoKeys);
    StereoValues(rot, trans);
  }

  /** A camera section is read back as the intrinsics it was written from. */
  lemma CameraSectionRead(conf: Conf, i: nat, name: string, c: Intrinsics)
    requires i < |conf| && conf[i] == CameraSection(name, c)
    requires forall j :: 0 <= j < i ==> conf[j].name != name
    ensures ReadCamera(conf, name) == Some(c)
  {
    var v := CameraSectionValues(conf, i, name, c);
    ReadCameraFrom(conf, name, conf[i].fields, v);
  }

  /** What ReadStereo makes of the stereo section's values: the baseline's scaling by -1000 is undone. */
  lemma ReadStereoFrom(conf: Conf, fs: seq<Field>, v: seq<real>, rot: Vec3, trans: Vec3)
    requires SectionFields(conf, StereoSectionName) == Some(fs) && ValuesOf(fs, StereoKeys) == Some(v)
    requires |v| == 6 && v[0] == trans.x * -1000.0 && Vec3(v[3], v[4], v[5]) == rot && v[1] == trans.y && v[2] == trans.z
    ensures ReadStereo(conf) == Some((rot, trans))
  {
    var r := ReadStereo(conf);
    assert r.Some?;
    assert r.value.0 == rot;
    UndoBaselineScale(trans.x);
    assert r.value.1 == trans;
  }

  /** What ReadCamera makes of a camera section's values. */
  lemma ReadCameraFrom(conf: Conf, name: string, fs: seq<Field>, v: seq<real>)
    requires SectionFields(conf, name) == Some(fs) && ValuesOf(fs, CameraKeys) == Some(v)
    ensures ReadCamera(conf, name) == Some(Intrinsics(v[0], v[1], v[2], v[3], v[4..9]))
  {
  }

  /** Dividing by -1000 undoes the baseline's scaling by -1000. */
  lemma UndoBaselineScale(x: real)
    ensures (x * -1000.0) / -1000.0 == x
  {
  }

  /** The values of the stereo section: the scaled baseline, TY, TZ, then the rotation vector. */
  lemma StereoValues(rot: Vec3, trans: Vec3)
    ensures FieldValues(StereoSection(rot, trans).fields) == [trans.x * -1000.0, trans.y, trans.z, rot.x, rot.y, rot.z]
  {
  }

  /** The stereo section is read back as the rotation vector and translation it was written from. */
  lemma StereoSectionRead(conf: Conf, i: nat, rot: Vec3, trans: Vec3)
    requires i < |conf| && conf[i] == StereoSection(rot, trans)
    requires forall j :: 0 <= j < i ==> conf[j].name != StereoSectionName
    ensures ReadStereo(conf) == Some((rot, trans))
  {
    var v := StereoSectionValues(conf, i, rot, trans);
    ReadStereoFrom(conf, conf[i].fields, v, rot, trans);
  }

  lemma LeftCameraRead(calib: Calibration, rotationVector: Quaternion -> Vec3)
    ensures ReadCamera(WriteFullCalibration(calib, rotationVector), LeftSection) == Some(calib.left)
  {
    CameraSectionRead(WriteFullCalibration(calib, rotationVector), 0, LeftSection, calib.left);
  }

  lemma RightCameraRead(calib: Calibration, rotationVector: Quaternion -> Vec3)
    ensures ReadCamera(WriteFullCalibration(calib, rotationVector), RightSection) == Some(calib.right)
  {
    var conf := WriteFullCalibration(calib, rotationVector);
    assert conf[0].name != RightSection;
    CameraSectionRead(conf, 1, RightSection, calib.right);
  }

  lemma StereoRead(calib: Calibration, rotationVector: Quaternion -> Vec3)
    ensures ReadStereo(WriteFullCalibration(calib, rotationVector)) == Some(StereoTransform(calib, rotationVector))
  {
    var conf := WriteFullCalibration(calib, rotationVector);
    var (rot, trans) := StereoTransform(calib, rotationVector);
    assert conf[0].name != StereoSectionName && conf[1].name != StereoSectionName;
    StereoSectionRead(conf, 2, rot, trans);
  }

  /** Reading the written file gives back both cameras and the stereo transform. */
  lemma WriteReadRoundTrip(calib: Calibration, rotationVector: Quaternion -> Vec3)
    ensures var conf := WriteFullCalibration(calib, rotationVector);
      && ReadCamera(conf, LeftSection) == Some(calib.left)
      && ReadCamera(conf, RightSection) == Some(calib.right)
      && ReadStereo(conf) == Some(StereoTransform(calib, rotationVector))
  {
    LeftCameraRead(calib, rotationVector);
    RightCameraRead(calib, rotationVector);
    StereoRead(calib, rotationVector);
  }

  /**
   * The converter writes the intrinsics exactly as parsed: the [*_CAM_HD]
   * sections hold the Kalibr values, not the rescaled ones, and the stereo
   * section holds the last "t:" and "q:" values, or zeros without them.
   */
  lemma KalibrToConfWritesParsedValues(lines: seq<string>, atof: string -> real, rotationVector: Quaternion -> Vec3)
    requires KalibrToConf(lines, atof, rotationVector).Success?
    ensures var conf := KalibrToConf(lines, atof, rotationVector).value;
      var calib := Parse(lines, atof).value;
      && ReadCamera(conf, LeftSection) == Some(calib.left)
      && ReadCamera(conf, RightSection) == Some(calib.right)
      && ReadStereo(conf) == Some((
           if calib.orientation.Some? then rotationVector(calib.orientation.value) else Vec3(0.0, 0.0, 0.0),
           if calib.translation.Some? then calib.translation.value else Vec3(0.0, 0.0, 0.0)))
  {
    WriteReadRoundTrip(Parse(lines, atof).value, rotationVector);
  }
}
