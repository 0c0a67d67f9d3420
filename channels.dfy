/** The nine transform channels of a tracked object and how one frame's decomposed
    world transform is spread over them; which object is the camera. */
module Channels {

  /** The destination application chosen in the export dialog. */
  datatype Destination = AE | Shake | Maya

  /** Scene scale: translations are multiplied by 100 for After Effects, by 1 otherwise. */
  function SceneScale(dest: Destination): (s: real)
    ensures s == 100.0 <==> dest == AE
    ensures s == 1.0 <==> dest != AE
  {
    if dest == AE then 100.0 else 1.0
  }

  /** One object's world transform at one frame, already corrected by the -90 degree
      rotation about X and decomposed into translation, ZXY Euler angles and scale. */
  datatype Decomposed = Decomposed(tx: real, ty: real, tz: real,
                                   rx: real, ry: real, rz: real,
                                   sx: real, sy: real, sz: real)

  /** The channels, in the order of `attrlist`. */
  datatype Attr = TranslateX | TranslateY | TranslateZ
                | RotateX | RotateY | RotateZ
                | ScaleX | ScaleY | ScaleZ

  const ChannelCount: nat := 9

  const Attrs: seq<Attr> := [TranslateX, TranslateY, TranslateZ,
                             RotateX, RotateY, RotateZ,
                             ScaleX, ScaleY, ScaleZ]

  /** The parameter group a channel is written under. */
  datatype Group = Position | Rotation | Scale

  function GroupOf(a: Attr): Group {
    match a
    case TranslateX | TranslateY | TranslateZ => Position
    case RotateX | RotateY | RotateZ => Rotation
    case ScaleX | ScaleY | ScaleZ => Scale
  }

  /** The names of `attrlist` (line 138), which the writer inspects with `str.find`. */
  function AttrName(a: Attr): string {
    match a
    case TranslateX => "_translateX"
    case TranslateY => "_translateY"
    case TranslateZ => "_translateZ"
    case RotateX => "_rotateX"
    case RotateY => "_rotateY"
    case RotateZ => "_rotateZ"
    case ScaleX => "_scaleX"
    case ScaleY => "_scaleY"
    case ScaleZ => "_scaleZ"
  }

  /** `sub` occurs in `s` at index `k`. */
  predicate OccursAt(s: string, sub: string, k: int) {
    0 <= k && k + |sub| <= |s| && s[k..k + |sub|] == sub
  }

  /** The characters of `sub` from `j` on match `s` from `k + j` on. */
  predicate MatchFrom(s: string, sub: string, k: nat, j: nat)
    requires k + |sub| <= |s| && j <= |sub|
    decreases |sub| - j
  {
    j == |sub| || (s[k + j] == sub[j] && MatchFrom(s, sub, k, j + 1))
  }

  lemma {:induction false} MatchFromIffSlice(s: string, sub: string, k: nat, j: nat)
    requires k + |sub| <= |s| && j <= |sub|
    ensures MatchFrom(s, sub, k, j) <==> s[k + j..k + |sub|] == sub[j..]
    decreases |sub| - j
  {
    if j < |sub| {
      MatchFromIffSlice(s, sub, k, j + 1);
      var a, b := s[k + j..k + |sub|], sub[j..];
      assert a == [s[k + j]] + s[k + j + 1..k + |sub|];
      assert b == [sub[j]] + sub[j + 1..];
      if a == b {
        assert a[0] == b[0] && a[1..] == b[1..];
      }
    }
  }

  /** Python's `s.find(sub, i)`, computed character by character. */
  function FindFrom(s: string, sub: string, i: nat): int
    decreases |s| - i
  {
    if i + |sub| > |s| then -1
    else if MatchFrom(s, sub, i, 0) then i
    else FindFrom(s, sub, i + 1)
  }

  /** `FindFrom` is Python's `find`: the first index from `i` on where `sub` occurs,
      or -1 when it occurs nowhere from `i` on. */
  lemma {:induction false} FindFromIsFirstOccurrence(s: string, sub: string, i: nat)
    ensures var r := FindFrom(s, sub, i);
      && (r == -1 || (i <= r && OccursAt(s, sub, r)))
      && (forall k :: i <= k && (r == -1 || k < r) ==> !OccursAt(s, sub, k))
    decreases |s| - i
  {
    if i + |sub| <= |s| {
      MatchFromIffSlice(s, sub, i, 0);
      assert sub[0..] == sub;
      if !MatchFrom(s, sub, i, 0) {
        FindFromIsFirstOccurrence(s, sub, i + 1);
      }
    }
  }

  /** Python's `s.find(sub)`. */
  function Find(s: string, sub: string): int {
    FindFrom(s, sub, 0)
  }

  /** The group of each channel is what the writer's tests on its name decide
      (lines 275-277): `translate` in the name gives Position, otherwise `rotate` gives
      Rotation, otherwise Scale. */
  lemma GroupOfIsNameTest(a: Attr)
    ensures GroupOf(a) == (if Find(AttrName(a), "translate") > 0 then Position
                           else if Find(AttrName(a), "rotate") > 0 then Rotation
                           else Scale)
  {
    match a
    case TranslateX | TranslateY | TranslateZ => TranslateGroupTests();
    case RotateX | RotateY | RotateZ => RotateGroupTests();
    case ScaleX | ScaleY | ScaleZ => ScaleGroupTests();
  }

  lemma TranslateGroupTests()
    ensures Find("_translateX", "translate") == 1
    ensures Find("_translateY", "translate") == 1
    ensures Find("_translateZ", "translate") == 1
  {
  }

  lemma RotateGroupTests()
    ensures Find("_rotateX", "translate") == -1 && Find("_rotateX", "rotate") == 1
    ensures Find("_rotateY", "translate") == -1 && Find("_rotateY", "rotate") == 1
    ensures Find("_rotateZ", "translate") == -1 && Find("_rotateZ", "rotate") == 1
  {
  }

  lemma ScaleGroupTests()
    ensures Find("_scaleX", "translate") == -1 && Find("_scaleX", "rotate") == -1
    ensures Find("_scaleY", "translate") == -1 && Find("_scaleY", "rotate") == -1
    ensures Find("_scaleZ", "translate") == -1 && Find("_scaleZ", "rotate") == -1
  {
  }

  /** The axis of each channel is what the writer's tests on its name decide
      (lines 279-281): `X` in the name gives 1, otherwise `Y` gives 2, otherwise 3. */
  lemma AxisOfIsNameTest(a: Attr)
    ensures AxisOf(a) == (if Find(AttrName(a), "X") > 0 then 1
                          else if Find(AttrName(a), "Y") > 0 then 2
                          else 3)
  {
    match a
    case TranslateX | TranslateY | TranslateZ => TranslateAxisTests();
    case RotateX | RotateY | RotateZ => RotateAxisTests();
    case ScaleX | ScaleY | ScaleZ => ScaleAxisTests();
  }

  lemma TranslateAxisTests()
    ensures Find("_translateX", "X") == 10
    ensures Find("_translateY", "X") == -1 && Find("_translateY", "Y") == 10
    ensures Find("_translateZ", "X") == -1 && Find("_translateZ", "Y") == -1
  {
  }

  lemma RotateAxisTests()
    ensures Find("_rotateX", "X") == 7
    ensures Find("_rotateY", "X") == -1 && Find("_rotateY", "Y") == 7
    ensures Find("_rotateZ", "X") == -1 && Find("_rotateZ", "Y") == -1
  {
  }

  lemma ScaleAxisTests()
    ensures Find("_scaleX", "X") == 6
    ensures Find("_scaleY", "X") == -1 && Find("_scaleY", "Y") == 6
    ensures Find("_scaleZ", "X") == -1 && Find("_scaleZ", "Y") == -1
  {
  }

  /** The axis letter of a channel: 1 for X, 2 for Y, 3 for Z. */
  function AxisOf(a: Attr): (k: nat)
    ensures 1 <= k <= 3
  {
    match a
    case TranslateX | RotateX | ScaleX => 1
    case TranslateY | RotateY | ScaleY => 2
    case TranslateZ | RotateZ | ScaleZ => 3
  }

  /** The value one frame records in one channel: translation times the scene scale,
      rotation as it is, and the Y and Z scale components swapped. */
  function ChannelValue(d: Decomposed, sscale: real, a: Attr): real {
    match a
    case TranslateX => d.tx * sscale
    case TranslateY => d.ty * sscale
    case TranslateZ => d.tz * sscale
    case RotateX => d.rx
    case RotateY => d.ry
    case RotateZ => d.rz
    case ScaleX => d.sx
    case ScaleY => d.sz
    case ScaleZ => d.sy
  }

  /** The nine values one frame records, indexed like `Attrs`: the translate channels
      hold the translation times the scene scale, the rotate channels the Euler angles
      as they are, `scaleY` the Z scale and `scaleZ` the Y scale. */
  function Sample(d: Decomposed, sscale: real): (vals: seq<real>)
    ensures |vals| == ChannelCount
    ensures forall p :: 0 <= p < ChannelCount ==> vals[p] == ChannelValue(d, sscale, Attrs[p])
    ensures vals[0] == d.tx * sscale && vals[1] == d.ty * sscale && vals[2] == d.tz * sscale
    ensures vals[3] == d.rx && vals[4] == d.ry && vals[5] == d.rz
    ensures vals[6] == d.sx && vals[7] == d.sz && vals[8] == d.sy
  {
    seq(ChannelCount, p requires 0 <= p < ChannelCount => ChannelValue(d, sscale, Attrs[p]))
  }

  /** Exporting for After Effects multiplies every translation by 100 relative to any
      other destination and leaves rotation and scale as they are. */
  lemma AfterEffectsScalesTranslationOnly(d: Decomposed, other: Destination)
    requires other != AE
    ensures forall p :: 0 <= p < 3 ==>
      Sample(d, SceneScale(AE))[p] == 100.0 * Sample(d, SceneScale(other))[p]
    ensures forall p :: 3 <= p < ChannelCount ==>
      Sample(d, SceneScale(AE))[p] == Sample(d, SceneScale(other))[p]
  {
  }

  /** The active camera: the object and the camera data block it carries. */
  datatype Camera = Camera(objectName: string, dataName: string)

  /** The camera test as the exporter writes it: `obj.name == camera.name`, where
      `camera` is `scene.camera.data`, so an object's name is compared with the name
      of the camera's data block. */
  function IsCameraAsWritten(objectName: string, cam: Camera): (b: bool)
    ensures cam.objectName == cam.dataName ==> (b <==> IsCamera(objectName, cam))
    ensures cam.objectName != cam.dataName && IsCamera(objectName, cam) ==> !b
  {
    objectName == cam.dataName
  }

  /** The camera test as intended: the object is the scene's active camera. */
  predicate IsCamera(objectName: string, cam: Camera) {
    objectName == cam.objectName
  }

  /** The camera flag of each exported object under the intended test. Blender's
      object names are distinct, and then at most one object is flagged. */
  function CameraRoles(names: seq<string>, cam: Camera): (roles: seq<bool>)
    ensures |roles| == |names|
    ensures forall j :: 0 <= j < |names| ==> (roles[j] <==> IsCamera(names[j], cam))
    ensures (forall i, j :: 0 <= i < j < |names| ==> names[i] != names[j]) ==>
      forall i, j :: 0 <= i < |names| && 0 <= j < |names| && roles[i] && roles[j] ==> i == j
  {
    seq(|names|, j requires 0 <= j < |names| => IsCamera(names[j], cam))
  }

  /** As written, renaming the camera object (or naming another object after the
      camera's data block) moves the camera role: with a camera object `Camera`
      carrying data `Lens` and an empty named `Lens`, the empty is taken for the
      camera and the real camera for an ordinary layer. */
  lemma CameraTestAsWrittenPicksWrongObject()
    ensures var cam := Camera("Camera", "Lens");
      && !IsCameraAsWritten("Camera", cam) && IsCameraAsWritten("Lens", cam)
      && IsCamera("Camera", cam) && !IsCamera("Lens", cam)
  {
    assert "Camera" != "Lens" by { assert |"Camera"| != |"Lens"|; }
  }

  /** With the intended test and Blender's distinct object names, exactly one
      exported object has the camera role, the active camera, whenever it is among
      the exported objects. */
  lemma CameraRoleIsUnique(names: seq<string>, cam: Camera, c: nat)
    requires forall i, j :: 0 <= i < j < |names| ==> names[i] != names[j]
    requires c < |names| && names[c] == cam.objectName
    ensures CameraRoles(names, cam)[c]
    ensures forall j :: 0 <= j < |names| && CameraRoles(names, cam)[j] ==> j == c
  {
  }
}
