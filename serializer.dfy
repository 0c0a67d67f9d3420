/** Writing the Motion document: the fixed header with the scene settings, one node per
    object with its Position/Rotation/Scale curves (and the camera's Angle Of View),
    and the footer. The file is the sequence of chunks written to it; `Render` gives
    each chunk's exact text. */
module Serializer {
  import opened Wrappers
  import opened Text
  import opened Channels
  import opened Recording

  // ----- scene settings -----

  /** What the header reads from the scene and its render settings. */
  datatype SceneSettings = SceneSettings(startFrame: int, endFrame: int,
                                         resolutionX: int, resolutionY: int,
                                         resolutionPercentage: int,
                                         fps: int, fpsBase: real)

  /** The values of the `<scene>` block. */
  datatype SceneFields = SceneFields(width: real, height: real, duration: int, frameRate: int,
                                     ntsc: nat, timeRange: int, playRange: int)

  /** The header's scene values (lines 85-86, 107-121): the resolution scaled by its
      percentage, `NTSC` set exactly when the frame-rate base exceeds 1, and duration,
      time range and play range all the scene's end frame. */
  function SceneFieldsOf(s: SceneSettings): (f: SceneFields)
    ensures f.ntsc == 1 <==> s.fpsBase > 1.0
    ensures f.ntsc == 0 <==> s.fpsBase <= 1.0
    ensures f.duration == s.endFrame && f.timeRange == s.endFrame && f.playRange == s.endFrame
    ensures f.frameRate == s.fps
    ensures f.width == (s.resolutionX * s.resolutionPercentage) as real / 100.0
    ensures f.height == (s.resolutionY * s.resolutionPercentage) as real / 100.0
  {
    var isntsc := if s.fpsBase > 1.0 then 1 else 0;
    SceneFields((s.resolutionX * s.resolutionPercentage) as real / 100.0,
                (s.resolutionY * s.resolutionPercentage) as real / 100.0,
                s.endFrame, s.fps, isntsc, s.endFrame, s.endFrame)
  }

  // ----- chunks -----

  /** The pieces the exporter writes, one per `write` call (or per header entry). */
  datatype Chunk =
    | XmlHeader
    | Factory
    | Viewer
    | SceneHead(fields: SceneFields)
    | ProjectStub
    | NodeOpen(name: string, id: nat, isCamera: bool)
    | PropertiesOpen
    | TransformOpen
    | GroupOpen(group: Group)
    | ChannelOpen(axis: nat, dflt: real, count: nat)
    | Keypoint(frame: int, value: real)
    | CurveClose
    | ParameterClose
    | ObjectOpen
    | FovOpen(fovDefault: real, fovCount: nat)
    | CameraType
    | LayerObjectOpen
    | LayerType
    | LayerObjectClose
    | NodeClose(closesCamera: bool)
    | Footer

  /** The axis letter of a channel: 1 is X, 2 is Y, 3 (and anything else) is Z. */
  function AxisName(axis: nat): string {
    if axis == 1 then "X" else if axis == 2 then "Y" else "Z"
  }

  function GroupName(g: Group): string {
    match g
    case Position => "Position"
    case Rotation => "Rotation"
    case Scale => "Scale"
  }

  function GroupId(g: Group): nat {
    match g
    case Position => 101
    case Rotation => 109
    case Scale => 105
  }

  /** A keypoint's `<time>`: Motion counts frames from 0, the scene from 1, so the
      time written is the frame minus one, read back exactly by an integer parser. */
  function TimeText(frame: int): (t: string)
    ensures IsIntText(t) && ParseInt(t) == frame - 1
    ensures frame < 1 <==> t[0] == '-'
  {
    IntToStringRoundTrip(frame - 1);
    IntToString(frame - 1)
  }

  /** The opening of an object's node: a `scenenode` for the camera, a `layer`
      otherwise, with its name and id. */
  function NodeOpenText(name: string, id: nat, isCamera: bool): string {
    "<" + NodeTag(isCamera) + " " + "name=\"" + name + "\" id=\"" + NatToString(id)
    + (if isCamera then "\" factoryID=\"1\">\n" else "\">\n")
  }

  /** The element of an object's node. */
  function NodeTag(isCamera: bool): string {
    if isCamera then "scenenode" else "layer"
  }

  /** The end of an object's node. */
  function NodeCloseText(isCamera: bool): string {
    "</" + NodeTag(isCamera) + ">\n"
  }

  /** One keypoint: its time (the frame minus one) and its value. */
  function KeypointText(frame: int, value: real, show: real -> string): string {
    KeypointHead + (TimeText(frame) + KeypointTail(value, show))
  }

  const KeypointHead: string := "\t<keypoint interpolation=\"1\" flags=\"32\">\n" + "\t\t<time>"

  /** What follows a keypoint's time: the end of `<time>`, then the value. */
  function KeypointTail(value: real, show: real -> string): string {
    "</time>\n" + "\t\t<value>" + show(value) + "</value>\n" + "\t</keypoint>\n"
  }

  /** The text of a chunk; `show` is Python's `str()` of a float. */
  function Render(c: Chunk, show: real -> string): string {
    match c
    case XmlHeader =>
      "<?xml version=\"1.0\" encoding=\"UTF-8\"?>\n<!DOCTYPE ozxmlscene>\n<ozml version=\"3.0\">\n\n"
    case Factory =>
      "<factory id=\"1\" uuid=\"de1a9415beb34e5fb0964d1528bef14a\">\n"
      + "\t<description>Camera</description>\n"
      + "\t<manufacturer>Apple</manufacturer>\n"
      + "\t<version>1</version>\n"
      + "</factory>\n"
    case Viewer =>
      "<viewer subview=\"0\">\n"
      + "\t<cameraType>0</cameraType>\n"
      + "\t<cameraName>Active Camera</cameraName>\n"
      + "\t<panZoom camera=\"0\" zoom=\"0.5\" panX=\"236\" panY=\"105\" mode=\"1\" centered=\"1\"/>\n"
      + "</viewer>\n\n"
    case SceneHead(f) =>
      "<scene>\n"
      + "\t<sceneSettings>\n"
      + "\t\t<width>" + show(f.width) + "</width>\n"
      + "\t\t<height>" + show(f.height) + "</height>\n"
      + "\t\t<duration>" + IntToString(f.duration) + "</duration>\n"
      + "\t\t<frameRate>" + IntToString(f.frameRate) + "</frameRate>\n"
      + "\t\t<fieldRenderingMode>0</fieldRenderingMode>\n"
      + "\t\t<NTSC>" + NatToString(f.ntsc) + "</NTSC>\n"
      + "\t\t<pixelAspectRatio>1</pixelAspectRatio>\n"
      + "\t</sceneSettings>\n"
      + "\t<currentFrame>1</currentFrame>\n"
      + "\t<timeRange offset=\"0\" duration=\"" + IntToString(f.timeRange) + "\"/>\n"
      + "\t<playRange offset=\"0\" duration=\"" + IntToString(f.playRange) + "\"/>\n"
    case ProjectStub =>
      "<scenenode name=\"Project\" id=\"746135465\" factoryID=\"12\" version=\"5\">\n"
      + "<scenenode name=\"Widget\" id=\"746135466\" factoryID=\"9\" version=\"5\">\n"
      + "</scenenode>\n"
      + "</scenenode>\n\n"
    case NodeOpen(name, id, isCamera) => NodeOpenText(name, id, isCamera)
    case PropertiesOpen => "<parameter name=\"Properties\" id=\"1\" flags=\"8589938704\">\n"
    case TransformOpen => "<parameter name=\"Transform\" id=\"100\">\n"
    case GroupOpen(g) => "<parameter name=\"" + GroupName(g) + "\" id=\"" + NatToString(GroupId(g)) + "\">\n"
    case ChannelOpen(axis, dflt, count) =>
      "<parameter name=\"" + AxisName(axis) + "\" id=\"" + NatToString(axis)
      + "\" default=\"" + show(dflt) + "\" value=\"" + show(dflt) + "\">\n"
      + "<curve type=\"1\">\n"
      + "<numberOfKeypoints>" + NatToString(count) + "</numberOfKeypoints>\n"
    case Keypoint(frame, value) => KeypointText(frame, value, show)
    case CurveClose => "</curve>\n"
    case ParameterClose => "</parameter>\n"
    case ObjectOpen => "<parameter name=\"Object\" id=\"2\">\n"
    case FovOpen(dflt, count) =>
      "\t<parameter name=\"Angle Of View\" id=\"201\" default=\"" + show(dflt)
      + "\" value=\"" + show(dflt) + "\" >\n"
      + "<curve type=\"1\">\n"
      + "<numberOfKeypoints>" + NatToString(count) + "</numberOfKeypoints>\n"
    case CameraType => "\t<parameter name=\"Camera Type\" id=\"200\" default=\"1\" value=\"0\"/>\n"
    case LayerObjectOpen => "<parameter name=\"Object\" id=\"2\">"
    case LayerType => "<parameter name=\"Type\" id=\"307\" default=\"0\" value=\"1\"/>"
    case LayerObjectClose => "</parameter>"
    case NodeClose(isCamera) => NodeCloseText(isCamera)
    case Footer => "\n\t</scene>\n\n</ozml>"
  }

  /** A node's text opens the element that its closing text closes: `scenenode` for
      the camera, `layer` otherwise (lines 265-268, 331-335). */
  lemma NodeTextTagsMatch(name: string, id: nat, isCamera: bool)
    ensures var tag := if isCamera then "scenenode" else "layer";
      && "<" + tag + " " <= NodeOpenText(name, id, isCamera)
      && NodeCloseText(isCamera) == "</" + tag + ">\n"
  {
    var head := "<" + NodeTag(isCamera) + " ";
    var o := NodeOpenText(name, id, isCamera);
    assert o == head + o[|head|..];
  }

  /** An integer's text is followed by a tag: the text ends where the tag begins, so
      it is determined by the whole. */
  lemma {:induction false} IntTextBeforeTag(t1: string, r1: string, t2: string, r2: string)
    requires IsIntText(t1) && IsIntText(t2)
    requires |r1| > 0 && r1[0] == '<' && |r2| > 0 && r2[0] == '<'
    requires t1 + r1 == t2 + r2
    ensures t1 == t2
  {
    var w := t1 + r1;
    forall k | 0 <= k < |t1| ensures w[k] != '<' {
      IntTextHasNoTag(t1, k);
    }
    forall k | 0 <= k < |t2| ensures w[k] != '<' {
      IntTextHasNoTag(t2, k);
      assert w[k] == (t2 + r2)[k];
    }
    assert w[|t1|] == '<';
    assert w[|t2|] == (t2 + r2)[|t2|] == '<';
    assert |t1| == |t2|;
    assert t1 == w[..|t1|];
    assert t2 == (t2 + r2)[..|t2|];
  }

  /** No character of an integer's text is `<`. */
  lemma IntTextHasNoTag(t: string, i: nat)
    requires IsIntText(t) && i < |t|
    ensures t[i] != '<'
  {
    if t[0] == '-' && i > 0 {
      assert t[i] == t[1..][i - 1];
    }
  }

  /** A keypoint's text determines its frame: the `<time>` written (lines 294-298)
      is read back as the frame it was written for. */
  lemma KeypointTextDeterminesFrame(f1: int, v1: real, f2: int, v2: real, show: real -> string)
    requires KeypointText(f1, v1, show) == KeypointText(f2, v2, show)
    ensures f1 == f2
  {
    var t1, t2 := TimeText(f1), TimeText(f2);
    var r1, r2 := KeypointTail(v1, show), KeypointTail(v2, show);
    assert t1 + r1 == KeypointText(f1, v1, show)[|KeypointHead|..];
    assert t2 + r2 == KeypointText(f2, v2, show)[|KeypointHead|..];
    IntTextBeforeTag(t1, r1, t2, r2);
  }

  /** The text of a sequence of chunks, chunk by chunk. */
  function RenderAll(cs: seq<Chunk>, show: real -> string): (r: seq<string>)
    ensures |r| == |cs|
    ensures forall i :: 0 <= i < |cs| ==> r[i] == Render(cs[i], show)
  {
    seq(|cs|, i requires 0 <= i < |cs| => Render(cs[i], show))
  }

  /** The output file: the chunks written to it so far. */
  class MotionFile {
    var chunks: seq<Chunk>

    constructor ()
      ensures chunks == []
    {
      chunks := [];
    }

    /** `mafile.write(Render(c))`. */
    method Write(c: Chunk)
      modifies this
      ensures chunks == old(chunks) + [c]
    {
      chunks := chunks + [c];
    }
  }

  // ----- keys in ascending order -----

  /** The keys of `m` between `lo` (inclusive) and `hi` (exclusive), in increasing
      order: the order in which the sampling loop inserted them. */
  function KeysBetween(m: map<int, real>, lo: int, hi: int): seq<int>
    decreases hi - lo
  {
    if lo >= hi then [] else (if lo in m then [lo] else []) + KeysBetween(m, lo + 1, hi)
  }

  /** Only keys of `m` in the range are listed. */
  lemma {:induction false} KeysBetweenSound(m: map<int, real>, lo: int, hi: int)
    ensures forall i :: 0 <= i < |KeysBetween(m, lo, hi)| ==>
      KeysBetween(m, lo, hi)[i] in m && lo <= KeysBetween(m, lo, hi)[i] < hi
    decreases hi - lo
  {
    if lo < hi {
      KeysBetweenSound(m, lo + 1, hi);
    }
  }

  /** The keys are listed in strictly increasing order. */
  lemma {:induction false} KeysBetweenSorted(m: map<int, real>, lo: int, hi: int)
    ensures forall i, j :: 0 <= i < j < |KeysBetween(m, lo, hi)| ==>
      KeysBetween(m, lo, hi)[i] < KeysBetween(m, lo, hi)[j]
    decreases hi - lo
  {
    if lo < hi {
      KeysBetweenSound(m, lo + 1, hi);
      KeysBetweenSorted(m, lo + 1, hi);
    }
  }

  /** Every key of `m` between `lo` and `hi` is listed. */
  lemma {:induction false} KeysBetweenComplete(m: map<int, real>, lo: int, hi: int)
    ensures forall f :: lo <= f < hi && f in m ==> f in KeysBetween(m, lo, hi)
    decreases hi - lo
  {
    if lo < hi {
      KeysBetweenComplete(m, lo + 1, hi);
    }
  }

  /** One key is listed for every key of `m` in the range. */
  lemma {:induction false} KeysBetweenCount(m: map<int, real>, lo: int, hi: int)
    ensures |KeysBetween(m, lo, hi)| == |set f | f in m && lo <= f < hi|
    decreases hi - lo
  {
    var s := set f | f in m && lo <= f < hi;
    if lo < hi {
      KeysBetweenCount(m, lo + 1, hi);
      var s' := set f | f in m && lo + 1 <= f < hi;
      if lo in m {
        assert s == s' + {lo};
      } else {
        assert s == s';
      }
    } else {
      assert s == {};
    }
  }

  /** When every key of `m` lies between `lo` and `hi`, the listed keys are exactly the
      keys of `m`, one each. */
  lemma KeysBetweenCoverAll(m: map<int, real>, lo: int, hi: int)
    requires forall f :: f in m ==> lo <= f < hi
    ensures |KeysBetween(m, lo, hi)| == |m|
  {
    KeysBetweenCount(m, lo, hi);
    assert (set f | f in m && lo <= f < hi) == m.Keys;
  }

  // ----- what is written for an object -----

  /** The keypoints for the keys `ks` of `m`, in the order of `ks`. */
  function KeypointsAt(ks: seq<int>, m: map<int, real>): seq<Chunk> {
    if ks == [] then []
    else
      var k := ks[|ks| - 1];
      KeypointsAt(ks[..|ks| - 1], m) + (if k in m then [Keypoint(k, m[k])] else [])
  }

  /** The keypoints of a key map, in increasing frame order (every key of a channel
      lies in the export's frame range `lo` .. `hi - 1`). */
  function KeypointChunks(m: map<int, real>, lo: int, hi: int): seq<Chunk>
    decreases hi - lo
  {
    if lo >= hi then [] else (if lo in m then [Keypoint(lo, m[lo])] else []) + KeypointChunks(m, lo + 1, hi)
  }

  lemma {:induction false} KeypointsAtAppend(a: seq<int>, b: seq<int>, m: map<int, real>)
    ensures KeypointsAt(a + b, m) == KeypointsAt(a, m) + KeypointsAt(b, m)
    decreases |b|
  {
    if b != [] {
      var b' := b[..|b| - 1];
      assert (a + b)[..|a + b| - 1] == a + b';
      KeypointsAtAppend(a, b', m);
    } else {
      assert a + b == a;
    }
  }

  /** Writing the listed keys one by one produces the keypoints in frame order. */
  lemma {:induction false} KeypointsOfKeysBetween(m: map<int, real>, lo: int, hi: int)
    ensures KeypointsAt(KeysBetween(m, lo, hi), m) == KeypointChunks(m, lo, hi)
    decreases hi - lo
  {
    if lo < hi {
      var head: seq<int> := if lo in m then [lo] else [];
      KeypointsOfKeysBetween(m, lo + 1, hi);
      KeypointsAtAppend(head, KeysBetween(m, lo + 1, hi), m);
      if lo in m {
        assert KeypointsAt(head, m) == KeypointsAt([], m) + [Keypoint(lo, m[lo])];
      }
    }
  }

  /** When every listed key is in the map, there is one keypoint per key, with the
      key's frame and value. */
  lemma {:induction false} KeypointsAtEach(ks: seq<int>, m: map<int, real>)
    requires forall i :: 0 <= i < |ks| ==> ks[i] in m
    ensures |KeypointsAt(ks, m)| == |ks|
    ensures forall i :: 0 <= i < |ks| ==> KeypointsAt(ks, m)[i] == Keypoint(ks[i], m[ks[i]])
  {
    if ks != [] {
      KeypointsAtEach(ks[..|ks| - 1], m);
    }
  }

  predicate HasDefault(c: Curve) {
    c.default.Some?
  }

  /** Every curve of a finished object has a default. */
  predicate Finished(cs: seq<Curve>) {
    |cs| == ChannelCount && forall p :: 0 <= p < ChannelCount ==> HasDefault(cs[p])
  }

  predicate HasFov(isCamera: bool, fov: Option<Curve>) {
    isCamera ==> fov.Some? && HasDefault(fov.value)
  }

  /** One channel's curve parameter: its axis, default and number of keypoints, then
      the keypoints. */
  function ChannelChunks(axis: nat, c: Curve, lo: int, hi: int): seq<Chunk>
    requires HasDefault(c)
  {
    [ChannelOpen(axis, c.default.value, |c.data|)] + KeypointChunks(c.data, lo, hi)
    + [CurveClose, ParameterClose]
  }

  /** One parameter group: opened once, then its X, Y and Z channels, closed after Z. */
  function GroupChunks(g: Group, x: Curve, y: Curve, z: Curve, lo: int, hi: int): seq<Chunk>
    requires HasDefault(x) && HasDefault(y) && HasDefault(z)
  {
    [GroupOpen(g)]
    + ChannelChunks(1, x, lo, hi) + ChannelChunks(2, y, lo, hi) + ChannelChunks(3, z, lo, hi)
    + [ParameterClose]
  }

  /** The `Transform` parameter's three groups: Position from the translate channels,
      Rotation from the rotate channels, Scale from the scale channels. */
  function TransformChunks(cs: seq<Curve>, lo: int, hi: int): seq<Chunk>
    requires Finished(cs)
  {
    GroupChunks(Position, cs[0], cs[1], cs[2], lo, hi)
    + GroupChunks(Rotation, cs[3], cs[4], cs[5], lo, hi)
    + GroupChunks(Scale, cs[6], cs[7], cs[8], lo, hi)
  }

  /** The `Object` parameter: the camera's Angle Of View curve and camera type, or a
      layer's fixed type; then the node is closed. */
  function ObjectParameterChunks(isCamera: bool, fov: Option<Curve>, lo: int, hi: int): seq<Chunk>
    requires HasFov(isCamera, fov)
  {
    if isCamera then
      [ObjectOpen, FovOpen(fov.value.default.value, |fov.value.data|)]
      + KeypointChunks(fov.value.data, lo, hi)
      + [CurveClose, ParameterClose, CameraType, ParameterClose, NodeClose(true)]
    else
      [LayerObjectOpen, LayerType, LayerObjectClose, NodeClose(false)]
  }

  /** Everything written for one object (lines 265-335). The `Transform` parameter is
      what the channel loop writes, which `ChannelsWrittenAreGroups` shows to be the
      three groups of `TransformChunks`. */
  function ObjectChunks(name: string, id: nat, isCamera: bool, cs: seq<Curve>,
                        fov: Option<Curve>, lo: int, hi: int): seq<Chunk>
    requires Finished(cs) && HasFov(isCamera, fov)
  {
    [NodeOpen(name, id, isCamera), PropertiesOpen, TransformOpen]
    + ChannelsWritten(cs, |cs|, lo, hi)
    + [ParameterClose, ParameterClose]
    + ObjectParameterChunks(isCamera, fov, lo, hi)
  }

  // ----- properties of the chunks -----

  /** A curve's keys all lie in the frame range being written. */
  predicate InRange(m: map<int, real>, lo: int, hi: int) {
    forall f :: f in m ==> lo <= f < hi
  }

  /** A channel's block announces as many keypoints as follow it; they follow in
      strictly increasing frame order, one per key, each with the stored value. */
  lemma ChannelKeypointCount(axis: nat, c: Curve, lo: int, hi: int)
    requires HasDefault(c) && InRange(c.data, lo, hi)
    ensures var chunks := ChannelChunks(axis, c, lo, hi); var ks := KeysBetween(c.data, lo, hi);
      && |ks| == |c.data|
      && |chunks| == |ks| + 3
      && chunks[0] == ChannelOpen(axis, c.default.value, |ks|)
      && (forall i :: 0 <= i < |ks| ==> ks[i] in c.data)
      && (forall i :: 0 <= i < |ks| ==> chunks[1 + i] == Keypoint(ks[i], c.data[ks[i]]))
      && (forall i, j :: 0 <= i < j < |ks| ==> ks[i] < ks[j])
  {
    KeysBetweenCoverAll(c.data, lo, hi);
    KeysBetweenSound(c.data, lo, hi);
    KeysBetweenSorted(c.data, lo, hi);
    KeypointsAtEach(KeysBetween(c.data, lo, hi), c.data);
    KeypointsOfKeysBetween(c.data, lo, hi);
  }

  /** The camera's Angle Of View block announces as many keypoints as follow it; they
      follow in strictly increasing frame order, one per key, each with the stored
      value, and the block ends with the camera type and the `scenenode` close. */
  lemma FovKeypointCount(fov: Curve, lo: int, hi: int)
    requires HasDefault(fov) && InRange(fov.data, lo, hi)
    ensures var chunks := ObjectParameterChunks(true, Some(fov), lo, hi);
      var ks := KeysBetween(fov.data, lo, hi);
      && |ks| == |fov.data|
      && |chunks| == |ks| + 7
      && chunks[1] == FovOpen(fov.default.value, |ks|)
      && (forall i :: 0 <= i < |ks| ==> ks[i] in fov.data)
      && (forall i :: 0 <= i < |ks| ==> chunks[2 + i] == Keypoint(ks[i], fov.data[ks[i]]))
      && (forall i, j :: 0 <= i < j < |ks| ==> ks[i] < ks[j])
      && chunks[|ks| + 4] == CameraType && chunks[|ks| + 6] == NodeClose(true)
  {
    var ks := KeysBetween(fov.data, lo, hi);
    var kp := KeypointChunks(fov.data, lo, hi);
    KeysBetweenCoverAll(fov.data, lo, hi);
    KeysBetweenSound(fov.data, lo, hi);
    KeysBetweenSorted(fov.data, lo, hi);
    KeypointsAtEach(ks, fov.data);
    KeypointsOfKeysBetween(fov.data, lo, hi);
    assert |kp| == |ks|;
    var chunks := ObjectParameterChunks(true, Some(fov), lo, hi);
    assert chunks == [ObjectOpen, FovOpen(fov.default.value, |ks|)] + kp
      + [CurveClose, ParameterClose, CameraType, ParameterClose, NodeClose(true)];
    forall i | 0 <= i < |ks| ensures chunks[2 + i] == Keypoint(ks[i], fov.data[ks[i]]) {
      assert chunks[2 + i] == kp[i];
    }
  }

  /** An object's node is opened with its role's tag and id and closed with the same
      tag: a `scenenode` for the camera, a `layer` otherwise. */
  lemma ObjectNodeTags(name: string, id: nat, isCamera: bool, cs: seq<Curve>,
                       fov: Option<Curve>, lo: int, hi: int)
    requires Finished(cs) && HasFov(isCamera, fov)
    ensures var chunks := ObjectChunks(name, id, isCamera, cs, fov, lo, hi);
      && chunks[0] == NodeOpen(name, id, isCamera)
      && chunks[|chunks| - 1] == NodeClose(isCamera)
  {
  }

  // ----- writing -----

  /** Writes a key map's keypoints (the `for frame, val in ...items()` loops). */
  method WriteKeypoints(file: MotionFile, m: map<int, real>, lo: int, hi: int)
    modifies file
    ensures file.chunks == old(file.chunks) + KeypointChunks(m, lo, hi)
  {
    var ks := KeysBetween(m, lo, hi);
    KeysBetweenSound(m, lo, hi);
    for i := 0 to |ks|
      invariant file.chunks == old(file.chunks) + KeypointsAt(ks[..i], m)
    {
      assert ks[..i + 1][..i] == ks[..i];
      assert KeypointsAt(ks[..i + 1], m) == KeypointsAt(ks[..i], m) + [Keypoint(ks[i], m[ks[i]])];
      file.Write(Keypoint(ks[i], m[ks[i]]));
    }
    assert ks[..|ks|] == ks;
    KeypointsOfKeysBetween(m, lo, hi);
  }

  /** Writes one channel's curve parameter (lines 287-301). */
  method WriteChannel(file: MotionFile, axis: nat, c: Curve, lo: int, hi: int)
    requires HasDefault(c)
    modifies file
    ensures file.chunks == old(file.chunks) + ChannelChunks(axis, c, lo, hi)
  {
    file.Write(ChannelOpen(axis, c.default.value, |c.data|));
    WriteKeypoints(file, c.data, lo, hi);
    file.Write(CurveClose);
    file.Write(ParameterClose);
  }

  /** What one pass of the channel loop writes for channel `p`: a group opening when
      the group differs from the previous channel's, the channel, and a group closing
      after a Z channel. */
  function ChannelPiece(cs: seq<Curve>, p: nat, lo: int, hi: int): seq<Chunk>
    requires p < ChannelCount && Finished(cs)
  {
    var a := Attrs[p];
    (if p == 0 || GroupOf(a) != GroupOf(Attrs[p - 1]) then [GroupOpen(GroupOf(a))] else [])
    + ChannelChunks(AxisOf(a), cs[p], lo, hi)
    + (if AxisOf(a) == 3 then [ParameterClose] else [])
  }

  /** What the channel loop has written after its first `p` channels. */
  function ChannelsWritten(cs: seq<Curve>, p: nat, lo: int, hi: int): seq<Chunk>
    requires p <= ChannelCount && Finished(cs)
  {
    if p == 0 then [] else ChannelsWritten(cs, p - 1, lo, hi) + ChannelPiece(cs, p - 1, lo, hi)
  }

  lemma Assoc<T>(a: seq<T>, b: seq<T>, c: seq<T>)
    ensures a + (b + c) == a + b + c
  {
  }

  /** Three passes that open a group, write X, Y and Z and close the group write that
      group's parameter. */
  lemma {:induction false} ThreeChannels(cs: seq<Curve>, b: nat, g: Group, lo: int, hi: int)
    requires b + 3 <= ChannelCount && Finished(cs)
    requires ChannelPiece(cs, b, lo, hi) == [GroupOpen(g)] + ChannelChunks(1, cs[b], lo, hi) + []
    requires ChannelPiece(cs, b + 1, lo, hi) == [] + ChannelChunks(2, cs[b + 1], lo, hi) + []
    requires ChannelPiece(cs, b + 2, lo, hi)
             == [] + ChannelChunks(3, cs[b + 2], lo, hi) + [ParameterClose]
    ensures ChannelsWritten(cs, b + 3, lo, hi)
            == ChannelsWritten(cs, b, lo, hi) + GroupChunks(g, cs[b], cs[b + 1], cs[b + 2], lo, hi)
  {
    var w := ChannelsWritten(cs, b, lo, hi);
    var o := [GroupOpen(g)];
    var c0 := ChannelChunks(1, cs[b], lo, hi);
    var c1 := ChannelChunks(2, cs[b + 1], lo, hi);
    var c2 := ChannelChunks(3, cs[b + 2], lo, hi);
    var pc := [ParameterClose];
    assert o + c0 + [] == o + c0 && [] + c1 + [] == c1 && [] + c2 + pc == c2 + pc;
    assert ChannelsWritten(cs, b + 1, lo, hi) == w + (o + c0);
    assert ChannelsWritten(cs, b + 2, lo, hi) == w + (o + c0) + c1;
    assert ChannelsWritten(cs, b + 3, lo, hi) == w + (o + c0) + c1 + (c2 + pc);
    Assoc(w + (o + c0) + c1, c2, pc);
    Assoc(w, o + c0 + c1 + c2, pc);
    Assoc(w, o + c0 + c1, c2);
    Assoc(w, o + c0, c1);
  }

  /** Group and axis of each entry of `attrlist`. */
  lemma AttrTable()
    ensures GroupOf(Attrs[0]) == Position && GroupOf(Attrs[1]) == Position && GroupOf(Attrs[2]) == Position
    ensures GroupOf(Attrs[3]) == Rotation && GroupOf(Attrs[4]) == Rotation && GroupOf(Attrs[5]) == Rotation
    ensures GroupOf(Attrs[6]) == Scale && GroupOf(Attrs[7]) == Scale && GroupOf(Attrs[8]) == Scale
    ensures AxisOf(Attrs[0]) == 1 && AxisOf(Attrs[3]) == 1 && AxisOf(Attrs[6]) == 1
    ensures AxisOf(Attrs[1]) == 2 && AxisOf(Attrs[4]) == 2 && AxisOf(Attrs[7]) == 2
    ensures AxisOf(Attrs[2]) == 3 && AxisOf(Attrs[5]) == 3 && AxisOf(Attrs[8]) == 3
  {
  }

  /** Channels 3b, 3b+1, 3b+2 (for b = 0, 1, 2) write group `g`. */
  lemma {:induction false} GroupWritten(cs: seq<Curve>, b: nat, g: Group, lo: int, hi: int)
    requires Finished(cs)
    requires (b == 0 && g == Position) || (b == 3 && g == Rotation) || (b == 6 && g == Scale)
    ensures ChannelsWritten(cs, b + 3, lo, hi)
            == ChannelsWritten(cs, b, lo, hi) + GroupChunks(g, cs[b], cs[b + 1], cs[b + 2], lo, hi)
  {
    AttrTable();
    ThreeChannels(cs, b, g, lo, hi);
  }

  /** The channel loop, run over all nine channels, writes the three groups in turn:
      testing for a change of group name opens each group exactly once. */
  lemma ChannelsWrittenAreGroups(cs: seq<Curve>, lo: int, hi: int)
    requires Finished(cs)
    ensures ChannelsWritten(cs, |cs|, lo, hi) == TransformChunks(cs, lo, hi)
  {
    var g0 := GroupChunks(Position, cs[0], cs[1], cs[2], lo, hi);
    var g1 := GroupChunks(Rotation, cs[3], cs[4], cs[5], lo, hi);
    var g2 := GroupChunks(Scale, cs[6], cs[7], cs[8], lo, hi);
    var zero := 0;
    GroupWritten(cs, zero, Position, lo, hi);
    assert ChannelsWritten(cs, zero, lo, hi) == [];
    assert ChannelsWritten(cs, zero + 3, lo, hi) == g0;
    GroupWritten(cs, zero + 3, Rotation, lo, hi);
    GroupWritten(cs, zero + 6, Scale, lo, hi);
    assert ChannelsWritten(cs, |cs|, lo, hi) == g0 + g1 + g2;
  }

  /** One pass of the loop over `attrlist` (lines 273-306): the group and axis come
      from the channel's name; a group parameter is opened when the group's name
      differs from the last one opened, and closed after its Z channel. */
  method WriteChannelPass(file: MotionFile, cs: seq<Curve>, p: nat, last: Option<Group>,
                          lo: int, hi: int)
    returns (last': Option<Group>)
    requires p < ChannelCount && Finished(cs)
    requires last == (if p == 0 then None else Some(GroupOf(Attrs[p - 1])))
    modifies file
    ensures file.chunks == old(file.chunks) + ChannelPiece(cs, p, lo, hi)
    ensures last' == Some(GroupOf(Attrs[p]))
  {
    ghost var opening: seq<Chunk> := [];
    ghost var closing: seq<Chunk> := [];
    var g, axis := GroupOf(Attrs[p]), AxisOf(Attrs[p]);
    last' := last;
    if last != Some(g) {
      file.Write(GroupOpen(g));
      last' := Some(g);
      opening := [GroupOpen(g)];
    }
    ghost var channel := ChannelChunks(axis, cs[p], lo, hi);
    WriteChannel(file, axis, cs[p], lo, hi);
    if axis == 3 {
      file.Write(ParameterClose);
      closing := [ParameterClose];
    }
    assert file.chunks == old(file.chunks) + opening + channel + closing;
    assert ChannelPiece(cs, p, lo, hi) == opening + channel + closing;
    Assoc(old(file.chunks), opening + channel, closing);
    Assoc(old(file.chunks), opening, channel);
  }

  /** The loop over `attrlist` (lines 272-306). */
  method WriteTransform(file: MotionFile, cs: seq<Curve>, lo: int, hi: int)
    requires Finished(cs)
    modifies file
    ensures file.chunks == old(file.chunks) + ChannelsWritten(cs, |cs|, lo, hi)
  {
    var last: Option<Group> := None;
    for p := 0 to ChannelCount
      invariant file.chunks == old(file.chunks) + ChannelsWritten(cs, p, lo, hi)
      invariant last == (if p == 0 then None else Some(GroupOf(Attrs[p - 1])))
    {
      last := WriteChannelPass(file, cs, p, last, lo, hi);
      Assoc(old(file.chunks), ChannelsWritten(cs, p, lo, hi), ChannelPiece(cs, p, lo, hi));
    }
  }

  /** The `Object` parameter and the end of the node (lines 309-335). */
  method WriteObjectParameter(file: MotionFile, isCamera: bool, fov: Option<Curve>, lo: int, hi: int)
    requires HasFov(isCamera, fov)
    modifies file
    ensures file.chunks == old(file.chunks) + ObjectParameterChunks(isCamera, fov, lo, hi)
  {
    if isCamera {
      var c := fov.value;
      ghost var head := [ObjectOpen, FovOpen(c.default.value, |c.data|)];
      ghost var keys := KeypointChunks(c.data, lo, hi);
      ghost var tail := [CurveClose, ParameterClose, CameraType, ParameterClose, NodeClose(true)];
      file.Write(ObjectOpen);
      file.Write(FovOpen(c.default.value, |c.data|));
      assert file.chunks == old(file.chunks) + head;
      WriteKeypoints(file, c.data, lo, hi);
      ghost var written := file.chunks;
      file.Write(CurveClose);
      file.Write(ParameterClose);
      file.Write(CameraType);
      file.Write(ParameterClose);
      file.Write(NodeClose(true));
      assert file.chunks == written + tail;
      Assoc(old(file.chunks), head, keys);
      Assoc(old(file.chunks), head + keys, tail);
    } else {
      file.Write(LayerObjectOpen);
      file.Write(LayerType);
      file.Write(LayerObjectClose);
      file.Write(NodeClose(false));
    }
  }

  /** Writes one object's node (lines 264-335). */
  method WriteObject(file: MotionFile, name: string, id: nat, isCamera: bool, cs: seq<Curve>,
                     fov: Option<Curve>, lo: int, hi: int)
    requires Finished(cs) && HasFov(isCamera, fov)
    modifies file
    ensures file.chunks == old(file.chunks) + ObjectChunks(name, id, isCamera, cs, fov, lo, hi)
  {
    ghost var head := [NodeOpen(name, id, isCamera), PropertiesOpen, TransformOpen];
    ghost var tc := ChannelsWritten(cs, |cs|, lo, hi);
    ghost var closes := [ParameterClose, ParameterClose];
    ghost var op := ObjectParameterChunks(isCamera, fov, lo, hi);
    file.Write(NodeOpen(name, id, isCamera));
    file.Write(PropertiesOpen);
    file.Write(TransformOpen);
    assert file.chunks == old(file.chunks) + head;
    WriteTransform(file, cs, lo, hi);
    ghost var w1 := file.chunks;
    file.Write(ParameterClose);
    file.Write(ParameterClose);
    assert file.chunks == w1 + closes;
    ghost var w2 := file.chunks;
    WriteObjectParameter(file, isCamera, fov, lo, hi);
    assert file.chunks == old(file.chunks) + head + tc + closes + op;
    Assoc(old(file.chunks), head + tc + closes, op);
    Assoc(old(file.chunks), head + tc, closes);
    Assoc(old(file.chunks), head, tc);
  }

  /** The five header entries (lines 91-126). */
  function HeaderChunks(s: SceneSettings): (h: seq<Chunk>)
    ensures |h| == 5 && h[3] == SceneHead(SceneFieldsOf(s))
  {
    [XmlHeader, Factory, Viewer, SceneHead(SceneFieldsOf(s)), ProjectStub]
  }

  /** Writes a list of entries in order (the header and footer loops, lines 248-249
      and 336-337). */
  method WriteAll(file: MotionFile, cs: seq<Chunk>)
    modifies file
    ensures file.chunks == old(file.chunks) + cs
  {
    for i := 0 to |cs|
      invariant file.chunks == old(file.chunks) + cs[..i]
    {
      assert cs[..i + 1] == cs[..i] + [cs[i]];
      file.Write(cs[i]);
    }
    assert cs[..|cs|] == cs;
  }
}
