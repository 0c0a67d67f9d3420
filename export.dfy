/** The `exportTracking` operation as a whole: check for a camera, record every frame,
    then write the header, one node per object and the footer to the `.motn` file. */
module Exporter {
  import opened Wrappers
  import opened Names
  import opened Channels
  import opened Reduction
  import opened Recording
  import opened Serializer

  /** The ways the export stops with an exception instead of a finished file. */
  datatype ExportError =
    | MissingCamera   // the scene has no active camera (`scene.camera.data`, line 82)
    | MissingDefault  // there are objects but no frame was sampled (`['default']`, line 290)
    | NameCollision   // two objects have the same normalised name (`['data']` deleted at line 306)

  /** What the export reads from the scene: its settings, the objects in scene order,
      the active camera and, for every frame from the start frame to the end frame,
      each object's decomposed world transform and the camera's field of view in
      degrees. */
  datatype Scene = Scene(settings: SceneSettings, names: seq<string>, camera: Option<Camera>,
                         samples: seq<seq<Decomposed>>, fovs: seq<real>)

  /** The written file: its path and the text of each write, in order. */
  datatype Output = Output(path: string, text: seq<string>)

  /** `end_frame + 1 - start_frame`. */
  function FrameCount(sc: Scene): int {
    sc.settings.endFrame + 1 - sc.settings.startFrame
  }

  /** The scene provides one sample per object and one field of view per frame. */
  predicate WellFormed(sc: Scene) {
    && |sc.samples| == (if FrameCount(sc) > 0 then FrameCount(sc) else 0)
    && |sc.fovs| == |sc.samples|
    && forall f :: 0 <= f < |sc.samples| ==> |sc.samples[f]| == |sc.names|
  }

  /** Two objects whose normalised names are equal. */
  predicate NamesCollide(names: seq<string>) {
    exists i, j :: 0 <= i < j < |names| && FixObjName(names[i]) == FixObjName(names[j])
  }

  /** Object `j`'s entries after every frame was sampled: the reduced curves of its
      channels, their histories and, for the camera, the field of view. */
  function ObjectTrack(sc: Scene, dest: Destination, cam: Camera, j: nat): Track
    requires WellFormed(sc) && j < |sc.names|
  {
    var col := ObjectColumn(sc.samples, j);
    Track(ExpectedCurves(sc.settings.startFrame, FrameCount(sc), col, SceneScale(dest)),
          ExpectedHistory(col, SceneScale(dest)),
          ExpectedFov(sc.settings.startFrame, sc.fovs, IsCamera(sc.names[j], cam)))
  }

  /** Every object's entries after the sampling loop, in scene order. */
  function RecordedTracks(sc: Scene, dest: Destination, cam: Camera): (ts: seq<Track>)
    requires WellFormed(sc)
    ensures |ts| == |sc.names|
    ensures forall j :: 0 <= j < |sc.names| ==> ts[j] == ObjectTrack(sc, dest, cam, j)
  {
    seq(|sc.names|, j requires 0 <= j < |sc.names| => ObjectTrack(sc, dest, cam, j))
  }

  /** Object `j` can be written: its curves, and the camera's field of view, have
      defaults. */
  predicate Ready(sc: Scene, cam: Camera, tracks: seq<Track>, j: nat)
    requires j < |tracks| == |sc.names|
  {
    Finished(tracks[j].curves) && HasFov(IsCamera(sc.names[j], cam), tracks[j].fov)
  }

  /** An object is ready exactly when at least one frame was sampled. */
  lemma RecordedReadyIff(sc: Scene, dest: Destination, cam: Camera)
    requires WellFormed(sc)
    ensures forall j :: 0 <= j < |sc.names| ==>
      (Ready(sc, cam, RecordedTracks(sc, dest, cam), j) <==> |sc.samples| > 0)
  {
    var ts := RecordedTracks(sc, dest, cam);
    forall j | 0 <= j < |sc.names|
      ensures Ready(sc, cam, ts, j) <==> |sc.samples| > 0
    {
      var col := ObjectColumn(sc.samples, j);
      if |sc.samples| > 0 {
        ExpectedIsFinished(sc.settings.startFrame, FrameCount(sc), col, sc.fovs,
                           IsCamera(sc.names[j], cam), SceneScale(dest));
      } else {
        assert ts[j].curves[0].default == None;
      }
    }
  }

  /** Every channel's default is its value in the first frame, and the camera's
      field-of-view default is the first frame's field of view. */
  lemma DefaultsAreFirstFrame(sc: Scene, dest: Destination, cam: Camera, j: nat, p: nat)
    requires WellFormed(sc) && j < |sc.names| && p < ChannelCount && |sc.samples| > 0
    ensures ObjectTrack(sc, dest, cam, j).curves[p].default
         == Some(ChannelValue(sc.samples[0][j], SceneScale(dest), Attrs[p]))
    ensures IsCamera(sc.names[j], cam) ==>
      ObjectTrack(sc, dest, cam, j).fov.Some? && ObjectTrack(sc, dest, cam, j).fov.value.default == Some(sc.fovs[0])
  {
  }

  /** Every kept key is a frame of the export range and holds the value sampled at
      that frame; so `ChannelKeypointCount` applies to every written channel. */
  lemma KeysAreSampledFrames(sc: Scene, dest: Destination, cam: Camera, j: nat, p: nat)
    requires WellFormed(sc) && j < |sc.names| && p < ChannelCount
    ensures var data := ObjectTrack(sc, dest, cam, j).curves[p].data;
      && InRange(data, sc.settings.startFrame, sc.settings.endFrame + 1)
      && forall f :: f in data ==>
           data[f] == ChannelValue(sc.samples[f - sc.settings.startFrame][j], SceneScale(dest), Attrs[p])
  {
    KeptAreSampled(sc.settings.startFrame, Column(ObjectColumn(sc.samples, j), SceneScale(dest), p),
                   FrameCount(sc));
  }

  /** The camera's field of view is never reduced: it has a key for every frame of the
      range, holding that frame's field of view. */
  lemma CameraFovHasEveryFrame(sc: Scene, dest: Destination, cam: Camera, j: nat)
    requires WellFormed(sc) && j < |sc.names| && IsCamera(sc.names[j], cam)
    ensures var fov := ObjectTrack(sc, dest, cam, j).fov;
      && fov.Some?
      && |fov.value.data| == |sc.samples|
      && forall f :: sc.settings.startFrame <= f < sc.settings.startFrame + |sc.samples| ==>
           f in fov.value.data && fov.value.data[f] == sc.fovs[f - sc.settings.startFrame]
  {
    AllSamplesSize(sc.settings.startFrame, sc.fovs);
  }

  /** The node of object `j`, with id `10000 + j` (nothing when the object is not
      ready, where the export stops instead). */
  function ObjectBlock(sc: Scene, cam: Camera, tracks: seq<Track>, j: nat): seq<Chunk>
    requires j < |tracks| == |sc.names|
  {
    if Ready(sc, cam, tracks, j) then
      ObjectChunks(FixObjName(sc.names[j]), 10000 + j, IsCamera(sc.names[j], cam),
                   tracks[j].curves, tracks[j].fov, sc.settings.startFrame, sc.settings.endFrame + 1)
    else []
  }

  /** Every object's node, in scene order. */
  function Blocks(sc: Scene, cam: Camera, tracks: seq<Track>): (bs: seq<seq<Chunk>>)
    requires |tracks| == |sc.names|
    ensures |bs| == |sc.names|
  {
    seq(|sc.names|, j requires 0 <= j < |sc.names| => ObjectBlock(sc, cam, tracks, j))
  }

  /** The blocks one after the other. */
  function Concat(bs: seq<seq<Chunk>>): seq<Chunk> {
    if bs == [] then [] else Concat(bs[..|bs| - 1]) + bs[|bs| - 1]
  }

  lemma ConcatSnoc(bs: seq<seq<Chunk>>, j: nat)
    requires j < |bs|
    ensures Concat(bs[..j + 1]) == Concat(bs[..j]) + bs[j]
  {
    assert bs[..j + 1][..j] == bs[..j];
  }

  /** `bs` holds every object's node. The trigger keeps a node's chunks folded until
      `ObjectBlock` itself is mentioned. */
  predicate BlocksOf(sc: Scene, cam: Camera, tracks: seq<Track>, bs: seq<seq<Chunk>>)
    requires |tracks| == |sc.names|
  {
    && |bs| == |sc.names|
    && forall j {:trigger ObjectBlock(sc, cam, tracks, j)} :: 0 <= j < |sc.names| ==>
         bs[j] == ObjectBlock(sc, cam, tracks, j)
  }

  lemma BlocksAreBlocks(sc: Scene, cam: Camera, tracks: seq<Track>)
    requires |tracks| == |sc.names|
    ensures BlocksOf(sc, cam, tracks, Blocks(sc, cam, tracks))
  {
  }

  /** The whole document: header, every object's node, footer. */
  function Document(sc: Scene, dest: Destination, cam: Camera): seq<Chunk>
    requires WellFormed(sc)
  {
    HeaderChunks(sc.settings) + Concat(Blocks(sc, cam, RecordedTracks(sc, dest, cam))) + [Footer]
  }
  /** The document opens with the five header chunks and closes with the footer. */
  lemma DocumentFraming(sc: Scene, dest: Destination, cam: Camera)
    requires WellFormed(sc)
    ensures var doc := Document(sc, dest, cam);
      |doc| >= 6 && doc[..5] == HeaderChunks(sc.settings) && doc[|doc| - 1] == Footer
  {
    var h := HeaderChunks(sc.settings);
    var body := Concat(Blocks(sc, cam, RecordedTracks(sc, dest, cam)));
    assert (h + body + [Footer])[..5] == h;
  }

  /** Object `j`'s node opens with its normalised name, id `10000 + j` and its role's
      tag, and closes with the same tag. */
  lemma NodeTags(sc: Scene, cam: Camera, tracks: seq<Track>, j: nat)
    requires j < |tracks| == |sc.names| && Ready(sc, cam, tracks, j)
    ensures var b := ObjectBlock(sc, cam, tracks, j);
      && |b| > 0
      && b[0] == NodeOpen(FixObjName(sc.names[j]), 10000 + j, IsCamera(sc.names[j], cam))
      && b[|b| - 1] == NodeClose(IsCamera(sc.names[j], cam))
  {
    ObjectNodeTags(FixObjName(sc.names[j]), 10000 + j, IsCamera(sc.names[j], cam),
                   tracks[j].curves, tracks[j].fov, sc.settings.startFrame, sc.settings.endFrame + 1);
  }


  /** After at least one frame every curve has its default. */
  lemma ExpectedIsFinished(start: int, n: int, col: seq<Decomposed>, fovs: seq<real>,
                           isCamera: bool, sscale: real)
    requires |col| > 0 && |fovs| > 0
    ensures Finished(ExpectedCurves(start, n, col, sscale))
    ensures HasFov(isCamera, ExpectedFov(start, fovs, isCamera))
  {
  }

  /** The objects' track lists before any frame, in scene order (lines 139-148). */
  function EmptyTracks(names: seq<string>, cam: Camera): (ts: seq<Track>)
    ensures |ts| == |names|
    ensures forall j :: 0 <= j < |names| ==> ts[j] == EmptyTrack(IsCamera(names[j], cam))
  {
    seq(|names|, j requires 0 <= j < |names| => EmptyTrack(IsCamera(names[j], cam)))
  }

  /** The sampling loop over the frames (lines 158-238): afterwards every object holds
      the reduced curves of all its samples and, for the camera, every field of view. */
  method RecordAll(sc: Scene, dest: Destination, cam: Camera) returns (tracks: seq<Track>)
    requires WellFormed(sc)
    ensures tracks == RecordedTracks(sc, dest, cam)
  {
    var start, frames, sscale := sc.settings.startFrame, FrameCount(sc), SceneScale(dest);
    var roles := CameraRoles(sc.names, cam);
    tracks := EmptyTracks(sc.names, cam);
    for fnum := 0 to |sc.samples|
      invariant |tracks| == |sc.names|
      invariant forall j :: 0 <= j < |sc.names| ==>
        TrackMatches(tracks[j], start, frames, ObjectColumn(sc.samples[..fnum], j),
                     sc.fovs[..fnum], roles[j], sscale)
    {
      tracks := RecordFrame(tracks, sc.samples[fnum], sc.fovs[fnum], roles, sscale,
                            start + fnum, fnum, frames, start, sc.samples[..fnum], sc.fovs[..fnum]);
      assert sc.samples[..fnum + 1] == sc.samples[..fnum] + [sc.samples[fnum]];
      assert sc.fovs[..fnum + 1] == sc.fovs[..fnum] + [sc.fovs[fnum]];
    }
    assert sc.samples[..|sc.samples|] == sc.samples;
    assert sc.fovs[..|sc.fovs|] == sc.fovs;
    assert forall j :: 0 <= j < |sc.names| ==> tracks[j] == ObjectTrack(sc, dest, cam, j);
  }

  /** The normalised names of `names`, in order (the `fixObjName` call of line 142 for each object). */
  function FixedNames(names: seq<string>): (r: seq<string>)
    ensures |r| == |names|
    ensures forall i :: 0 <= i < |names| ==> r[i] == FixObjName(names[i])
  {
    if names == [] then [] else FixedNames(names[..|names| - 1]) + [FixObjName(names[|names| - 1])]
  }

  /** Distinct normalised names mean no collision. */
  lemma DistinctNames(names: seq<string>)
    requires forall a, b :: 0 <= a < b < |names| ==> FixedNames(names)[a] != FixedNames(names)[b]
    ensures !NamesCollide(names)
  {
    forall a, b | 0 <= a < b < |names|
      ensures FixObjName(names[a]) != FixObjName(names[b])
    {
      assert FixedNames(names)[a] == FixObjName(names[a]);
      assert FixedNames(names)[b] == FixObjName(names[b]);
    }
  }

  /** A name already among the first `j` normalised names is a collision. */
  lemma RepeatedName(names: seq<string>, j: nat)
    requires j < |names| && FixObjName(names[j]) in FixedNames(names[..j])
    ensures NamesCollide(names)
  {
    var i :| 0 <= i < j && FixedNames(names[..j])[i] == FixObjName(names[j]);
    assert FixedNames(names[..j])[i] == FixObjName(names[..j][i]);
    assert FixObjName(names[i]) == FixObjName(names[j]);
  }

  /** Writes the node of object `j` (lines 259-335). */
  method WriteNode(file: MotionFile, sc: Scene, cam: Camera, tracks: seq<Track>, j: nat)
    requires j < |tracks| == |sc.names| && Ready(sc, cam, tracks, j)
    modifies file
    ensures file.chunks == old(file.chunks) + ObjectBlock(sc, cam, tracks, j)
  {
    WriteObject(file, FixObjName(sc.names[j]), 10000 + j, IsCamera(sc.names[j], cam),
                tracks[j].curves, tracks[j].fov, sc.settings.startFrame, sc.settings.endFrame + 1);
  }

  /** One pass of the writing loop (lines 258-335): object `j` without a default
      stops the export at `['default']`, one whose normalised name is among those
      already written stops it at `['data']`; otherwise its node is written. */
  method WriteNext(file: MotionFile, sc: Scene, cam: Camera, tracks: seq<Track>, sampled: bool,
                   j: nat, written: seq<string>, ghost bs: seq<seq<Chunk>>)
    returns (err: Option<ExportError>)
    requires j < |tracks| == |sc.names| && BlocksOf(sc, cam, tracks, bs)
    requires Ready(sc, cam, tracks, j) <==> sampled
    requires written == FixedNames(sc.names[..j])
    modifies file
    ensures !sampled ==> err == Some(MissingDefault)
    ensures sampled && FixObjName(sc.names[j]) in written ==>
      err == Some(NameCollision) && NamesCollide(sc.names)
    ensures sampled && FixObjName(sc.names[j]) !in written ==>
      err == None && file.chunks == old(file.chunks) + bs[j]
  {
    var name := FixObjName(sc.names[j]);
    if !(Finished(tracks[j].curves) && HasFov(IsCamera(sc.names[j], cam), tracks[j].fov)) {
      return Some(MissingDefault);
    }
    if name in written {
      RepeatedName(sc.names, j);
      return Some(NameCollision);
    }
    WriteNode(file, sc, cam, tracks, j);
    return None;
  }

  /** The writing loop over the objects (lines 257-335). */
  method WriteNodes(file: MotionFile, sc: Scene, cam: Camera, tracks: seq<Track>, sampled: bool,
                    ghost bs: seq<seq<Chunk>>)
    returns (err: Option<ExportError>)
    requires |tracks| == |sc.names| && BlocksOf(sc, cam, tracks, bs)
    requires forall j :: 0 <= j < |sc.names| ==> (Ready(sc, cam, tracks, j) <==> sampled)
    modifies file
    ensures |sc.names| > 0 && !sampled ==> err == Some(MissingDefault)
    ensures (|sc.names| == 0 || sampled) && NamesCollide(sc.names) ==> err == Some(NameCollision)
    ensures (|sc.names| == 0 || sampled) && !NamesCollide(sc.names) ==>
      err == None && file.chunks == old(file.chunks) + Concat(bs)
  {
    var written: seq<string> := [];
    for j := 0 to |sc.names|
      invariant j > 0 ==> sampled
      invariant written == FixedNames(sc.names[..j])
      invariant forall a, b :: 0 <= a < b < j ==> written[a] != written[b]
      invariant file.chunks == old(file.chunks) + Concat(bs[..j])
    {
      var name := FixObjName(sc.names[j]);
      err := WriteNext(file, sc, cam, tracks, sampled, j, written, bs);
      if err.Some? {
        return;
      }
      ConcatSnoc(bs, j);
      Assoc(old(file.chunks), Concat(bs[..j]), bs[j]);
      assert sc.names[..j + 1][..j] == sc.names[..j];
      written := written + [name];
    }
    err := None;
    assert sc.names[..|sc.names|] == sc.names;
    DistinctNames(sc.names);
    assert bs[..|sc.names|] == bs;
  }

  /** Writes the header, the objects' nodes and the footer (lines 91-126, 257-343). */
  method WriteDocument(file: MotionFile, sc: Scene, cam: Camera, tracks: seq<Track>, sampled: bool)
    returns (err: Option<ExportError>)
    requires |tracks| == |sc.names|
    requires forall j :: 0 <= j < |sc.names| ==> (Ready(sc, cam, tracks, j) <==> sampled)
    modifies file
    ensures |sc.names| > 0 && !sampled ==> err == Some(MissingDefault)
    ensures (|sc.names| == 0 || sampled) && NamesCollide(sc.names) ==> err == Some(NameCollision)
    ensures (|sc.names| == 0 || sampled) && !NamesCollide(sc.names) ==>
      err == None
      && file.chunks == old(file.chunks) + HeaderChunks(sc.settings) + Concat(Blocks(sc, cam, tracks)) + [Footer]
  {
    var header := HeaderChunks(sc.settings);
    WriteAll(file, header);
    BlocksAreBlocks(sc, cam, tracks);
    err := WriteNodes(file, sc, cam, tracks, sampled, Blocks(sc, cam, tracks));
    if err.Some? {
      return;
    }
    WriteAll(file, [Footer]);
    assert file.chunks == old(file.chunks) + header + Concat(Blocks(sc, cam, tracks)) + [Footer];
  }

  /** The chunks `exportTracking` writes once a camera is found (lines 136-343), or the
      error that stops it. */
  method ExportChunks(sc: Scene, dest: Destination, cam: Camera)
    returns (r: Result<seq<Chunk>, ExportError>)
    requires WellFormed(sc)
    ensures |sc.names| > 0 && FrameCount(sc) <= 0 ==> r == Err(MissingDefault)
    ensures !(|sc.names| > 0 && FrameCount(sc) <= 0) && NamesCollide(sc.names) ==>
      r == Err(NameCollision)
    ensures !(|sc.names| > 0 && FrameCount(sc) <= 0) && !NamesCollide(sc.names) ==>
      r == Ok(Document(sc, dest, cam))
  {
    var tracks := RecordAll(sc, dest, cam);
    RecordedReadyIff(sc, dest, cam);
    var file := new MotionFile();
    var err := WriteDocument(file, sc, cam, tracks, |sc.samples| > 0);
    if err.Some? {
      return Err(err.value);
    }
    assert [] + HeaderChunks(sc.settings) == HeaderChunks(sc.settings);
    assert file.chunks == Document(sc, dest, cam);
    return Ok(file.chunks);
  }

  /** `exportTracking(mafilename)`: the file's path and text, or the error that stops
      the export. */
  method Export(dest: Destination, path: string, sc: Scene, show: real -> string)
    returns (r: Result<Output, ExportError>)
    requires WellFormed(sc)
    ensures sc.camera.None? ==> r == Err(MissingCamera)
    ensures sc.camera.Some? && |sc.names| > 0 && FrameCount(sc) <= 0 ==> r == Err(MissingDefault)
    ensures sc.camera.Some? && !(|sc.names| > 0 && FrameCount(sc) <= 0) && NamesCollide(sc.names) ==>
      r == Err(NameCollision)
    ensures sc.camera.Some? && !(|sc.names| > 0 && FrameCount(sc) <= 0) && !NamesCollide(sc.names) ==>
      r == Ok(Output(WithMotnExtension(path), RenderAll(Document(sc, dest, sc.camera.value), show)))
  {
    if sc.camera.None? {
      return Err(MissingCamera);
    }
    var chunks := ExportChunks(sc, dest, sc.camera.value);
    if chunks.Err? {
      return Err(chunks.error);
    }
    return Ok(Output(WithMotnExtension(path), RenderAll(chunks.value, show)));
  }
}
