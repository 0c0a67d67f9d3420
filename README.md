# Apple Motion camera-tracking exporter, modelled in Dafny

This project models the core of Blender's "Export: Apple Motion (.motn)" add-on
(`motion_camera_tracking.py`). The add-on's `exportTracking` works in four steps:

1. It samples every object's world transform, frame by frame, over the scene's frame
   range, and the camera's field of view.
2. It splits each transform into nine channels: translation in X, Y and Z (scaled
   by 100 for After Effects), rotation in X, Y and Z (unchanged), and scale in X, Y
   and Z (with Y and Z swapped). It reduces each channel's keyframes as it goes:
   whenever a value repeats the two before it, the middle key is deleted, and so is
   the first or the last key of the range when the repeat touches it.
3. It writes an XML document for Apple Motion:
   - a fixed header with the scene settings (size, duration, frame rate, NTSC);
   - one node per object, a `scenenode` for the camera and a `layer` otherwise, with
     Position/Rotation/Scale parameters holding one curve per channel;
   - for the camera, an Angle Of View curve;
   - a footer.
4. It appends `.motn` to the file name when it is missing.

The model has these modules:

- `Names`: `fixObjName`, which turns every `.` into `_`, and the `.motn` extension rule.
- `Channels`: the destination's scene scale, and the nine channels with their
  values.
- Camera tests:
  - `Channels.IsCameraAsWritten` is the comparison as the source writes it: an object's name against the camera's data-block name;
  - `Channels.IsCamera` and `Channels.CameraRoles` are the intended test, against the camera object's own name.
  - The exporter uses the intended test (see "## Findings" and "## Left out").
- `Reduction`: one channel's online reduction.
  - `Reduction.Step` is the code's loop body, with every `del`.
  - `Kept` is an independent closed-form statement of which keys survive.
  - `Step` is proved to turn `Kept` of the earlier samples into `Kept` of the longer
    list, and every `del` is proved to find its key.
- `Recording`: the sampling loop.
  - The exporter's table `t` for one object is a `Track`: nine curves (key map plus
    `default`), the reduction history `pvals`, and the field-of-view curve for the
    camera.
  - `RecordObject` and `RecordFrame` keep every track equal to what the samples seen
    so far demand.
- `Serializer`: the document.
  - The file is a `MotionFile` object whose `chunks` list grows with each write.
  - Each `Chunk` stands for one `write` call, and `Render` gives its exact text.
  - How floating-point values are printed is a parameter, `show`.
  - The writing methods are proved to append exactly the reference chunk sequences:
    `ObjectChunks`, and the `TransformChunks` grouping (Position, Rotation, Scale
    with X, Y, Z each).
- `Exporter`: `exportTracking` as a whole.
  - It fails when the scene has no active camera.
  - It records every frame.
  - It writes the header, the nodes and the footer.
  - It stops with the errors of `ExportError`.

A channel's keys are written in ascending frame order. On Python 3.7 and later a
dictionary iterates in insertion order, and frames are inserted in increasing order
and never re-inserted, so that order is ascending. The Python of the Blender versions
the add-on targets may order them differently (see "## Left out").

Three consequences of the code are easy to mistake:
- A channel constant over a range of three or more frames keeps no key at all:
  its value survives only as the default (`Reduction.ConstantChannelHasNoKeys`).
  No keypoint is written for it.
- The field-of-view curve is never reduced: it keeps one key per frame
  (`Exporter.CameraFovHasEveryFrame`).
- The reduction never deletes a key twice. For a range of three frames, the three
  deletions hit the range's three frames (start, start + 1, start + 2), and
  `Reduction.Step` proves that each `del` finds its key.

## Model

| member | source | states |
|---|---|---|
| Names.FixObjName | motion_camera_tracking.py:35-36 | the result has the name's length, and each character is the name's, with `.` replaced by `_` |
| Names.FixObjNameHasNoDot | motion_camera_tracking.py:35-36 | a normalised name contains no `.` |
| Names.FixObjNameIdempotent | motion_camera_tracking.py:35-36 | normalising twice gives the same as normalising once |
| Names.FixObjNameKeepsDotFreeName | motion_camera_tracking.py:35-36 | a name without `.` is left unchanged |
| Names.FixObjNameCollides | motion_camera_tracking.py:142 | two different object names (`Cube.001`, `Cube_001`) normalise to the same node name |
| Names.WithMotnExtension | motion_camera_tracking.py:245-246 | the output path ends with `.motn` and starts with the given path; it is the given path exactly when that already ends with `.motn` |
| Names.WithMotnExtensionIdempotent | motion_camera_tracking.py:245-246 | applying the extension rule twice gives the same as applying it once |
| Text.IntToString | motion_camera_tracking.py:109-121 | `str()` of an integer, as used for the header values here and the keypoint times at lines 294-298: a minus sign exactly for negatives, then decimal digits without a leading zero |
| Text.NatToStringRoundTrip | motion_camera_tracking.py:266-268 | reading a natural number's digits back gives the number |
| Text.IntToStringRoundTrip | motion_camera_tracking.py:294-298 | parsing a rendered integer gives the integer back |
| Text.IntToStringInjective | motion_camera_tracking.py:294-298 | distinct frame times are rendered as distinct texts |
| Channels.SceneScale | motion_camera_tracking.py:67-68 | the scale is 100 exactly for After Effects, and 1 for Shake and Maya |
| Channels.Sample | motion_camera_tracking.py:178-201 | nine values in `attrlist` order: the translation times the scene scale, the Euler angles as they are, then scale X, Z, Y (Y and Z swapped) |
| Channels.AfterEffectsScalesTranslationOnly | motion_camera_tracking.py:67-68 | for After Effects, translations are 100 times those of any other destination; rotations and scales are identical |
| Channels.FindFromIsFirstOccurrence | motion_camera_tracking.py:275-281 | `FindFrom` is Python's `str.find`: the first index where the substring occurs, or -1 when it occurs nowhere |
| Channels.GroupOfIsNameTest | motion_camera_tracking.py:275-277 | a channel's group is what the tests on its `attrlist` name decide: `translate` gives Position, else `rotate` gives Rotation, else Scale |
| Channels.AxisOfIsNameTest | motion_camera_tracking.py:279-281 | a channel's axis is what the tests on its `attrlist` name decide: `X` gives 1, else `Y` gives 2, else 3 |
| Channels.IsCameraAsWritten | motion_camera_tracking.py:147 | the test as written agrees with the intended one when the camera object and its data block share a name; when they differ, it never flags the camera object |
| Channels.CameraRoles | motion_camera_tracking.py:147 | under the intended test, with distinct object names at most one object is flagged as the camera |
| Channels.CameraRoleIsUnique | motion_camera_tracking.py:147 | with distinct object names, only the camera object is flagged |
| Channels.CameraTestAsWrittenPicksWrongObject | motion_camera_tracking.py:81-82 | comparing object names with the camera data's name flags a non-camera object and misses the camera |
| Reduction.Delete | motion_camera_tracking.py:233-235 | `del`: only on a present key; it removes that key and keeps the others' values |
| Reduction.DroppedAfterSample | motion_camera_tracking.py:226-236 | how one more sample changes which earlier keys are dropped, and whether the new key is |
| Reduction.KeptAfterSample | motion_camera_tracking.py:226-236 | the reference key map after one more sample is the old map plus the new key, minus exactly the frames the rule deletes |
| Reduction.Step | motion_camera_tracking.py:225-236 | one loop iteration turns the reference keys of the earlier samples into the reference keys of the longer list, and shifts the history; every `del` finds its key |
| Reduction.KeptAreSampled | motion_camera_tracking.py:182-201 | every kept key is a sampled frame and holds the value sampled there |
| Reduction.NothingDroppedBeforeThirdFrame | motion_camera_tracking.py:232-235 | with at most two samples every frame keeps its key |
| Reduction.InteriorKeptIffNotConstant | motion_camera_tracking.py:228-233 | an interior frame keeps its key exactly when its value differs from a neighbour's |
| Reduction.ConstantChannelHasNoKeys | motion_camera_tracking.py:232-235 | a channel constant over three or more frames ends with no keys |
| Reduction.ConstantRunKeepsEndpoints | motion_camera_tracking.py:228-233 | of a constant run inside the range, only its first and last frames keep keys |
| Reduction.KeptReproducesSamples | motion_camera_tracking.py:206-236 | the kept keys, completed by the default (the first sample) as a step curve, reproduce every sample, so the reduction loses nothing |
| Reduction.AllSamplesSize | motion_camera_tracking.py:203-204 | the field-of-view map has one key per sampled frame |
| Recording.EmptyTrack | motion_camera_tracking.py:145-148 | the entries created before sampling are what zero samples demand |
| Recording.StepChannels | motion_camera_tracking.py:226-236 | each of the nine channels takes one reduction step; every curve then holds the reference keys of its longer sample list |
| Recording.RecordObject | motion_camera_tracking.py:167-236 | after one frame the object's curves, defaults, histories and field of view are what the longer sampled history demands |
| Recording.RecordFrame | motion_camera_tracking.py:162-238 | one frame updates every object's track the same way |
| Serializer.SceneFieldsOf | motion_camera_tracking.py:107-121 | the size is the resolution times its percentage over 100; NTSC is 1 exactly when the fps base exceeds 1; duration, time range and play range are the end frame; the frame rate is the fps |
| Serializer.HeaderChunks | motion_camera_tracking.py:91-126 | the header is five entries, the fourth carrying the scene settings |
| Serializer.NodeTextTagsMatch | motion_camera_tracking.py:265-268 | the text `Render` writes to open a node starts the element its closing text ends: `<scenenode ` and `</scenenode>` for the camera, `<layer ` and `</layer>` otherwise |
| Serializer.KeypointTextDeterminesFrame | motion_camera_tracking.py:294-298 | the text `Render` writes for a keypoint determines its frame: two keypoints with the same text are at the same frame |
| Serializer.TimeText | motion_camera_tracking.py:294-298 | a keypoint's time is the text of `frame - 1` and parses back to `frame - 1` |
| Serializer.MotionFile.constructor | motion_camera_tracking.py:247 | a newly opened file is empty |
| Serializer.MotionFile.Write | motion_camera_tracking.py:248-249 | a write appends one chunk and changes nothing else |
| Serializer.KeysBetweenSound | motion_camera_tracking.py:293 | every listed key is in the key map and in the range |
| Serializer.KeysBetweenSorted | motion_camera_tracking.py:293 | the listed keys are strictly increasing |
| Serializer.KeysBetweenComplete | motion_camera_tracking.py:293 | every key of the map in the range is listed |
| Serializer.KeysBetweenCount | motion_camera_tracking.py:293 | the number of listed keys is the number of map keys in the range |
| Serializer.KeysBetweenCoverAll | motion_camera_tracking.py:287-293 | when every key lies in the range, as many keys are listed as the map has: `numberOfKeypoints` is `len(data)` |
| Serializer.KeypointsOfKeysBetween | motion_camera_tracking.py:293-298 | writing the listed keys in order gives the keypoints of the range |
| Serializer.ChannelKeypointCount | motion_camera_tracking.py:287-298 | `numberOfKeypoints` equals the number of keypoints that follow; they follow in increasing frame order, each with its stored value |
| Serializer.FovKeypointCount | motion_camera_tracking.py:309-331 | the Angle Of View block's `numberOfKeypoints` equals the number of keypoints that follow; they follow in increasing frame order, each with its stored value, and the block ends with the camera type and the `scenenode` close |
| Serializer.ObjectNodeTags | motion_camera_tracking.py:264-268 | a node opens with its role's tag, name and id, and closes with the same role's tag |
| Serializer.WriteKeypoints | motion_camera_tracking.py:293-298 | the keypoints of the range are appended in increasing frame order |
| Serializer.WriteChannel | motion_camera_tracking.py:287-302 | one channel's parameter, its keypoints and its closing tags are appended |
| Serializer.WriteChannelPass | motion_camera_tracking.py:272-306 | one `attrlist` pass opens a group exactly when the group changes, and closes it after Z |
| Serializer.WriteTransform | motion_camera_tracking.py:272-306 | the nine passes append the channels in `attrlist` order |
| Serializer.GroupWritten | motion_camera_tracking.py:283-305 | three passes over one group write that group's block |
| Serializer.ChannelsWrittenAreGroups | motion_camera_tracking.py:272-306 | what the nine passes write is the Position, Rotation and Scale groups, each with X, Y and Z |
| Serializer.WriteObjectParameter | motion_camera_tracking.py:309-335 | the camera gets the Angle Of View curve and camera type; other objects get the fixed layer type; then the node is closed |
| Serializer.WriteObject | motion_camera_tracking.py:264-335 | one object's whole node is appended |
| Serializer.WriteAll | motion_camera_tracking.py:248-249 | the given entries are appended in order |
| Exporter.RecordAll | motion_camera_tracking.py:158-238 | after the sampling loop every object holds its recorded track |
| Exporter.RecordedReadyIff | motion_camera_tracking.py:206-220 | every object has all its defaults exactly when at least one frame was sampled |
| Exporter.DefaultsAreFirstFrame | motion_camera_tracking.py:206-220 | each default is the first frame's channel value, and the camera's field-of-view default is the first frame's field of view |
| Exporter.KeysAreSampledFrames | motion_camera_tracking.py:182-201 | every written key is a frame of the range and holds the value sampled there |
| Exporter.CameraFovHasEveryFrame | motion_camera_tracking.py:203-204 | the camera's field-of-view curve has a key for every frame, with that frame's value |
| Exporter.DocumentFraming | motion_camera_tracking.py:248-249 | the document starts with the five header entries and ends with the footer |
| Exporter.NodeTags | motion_camera_tracking.py:264-268 | object `j`'s node opens with its normalised name, id `10000 + j` and its role's tag, and closes with the same tag |
| Exporter.FixedNames | motion_camera_tracking.py:142 | the list has one entry per object, and entry `i` is object `i`'s normalised name |
| Exporter.RepeatedName | motion_camera_tracking.py:142-146 | a normalised name already written is a collision of two objects |
| Exporter.DistinctNames | motion_camera_tracking.py:142-146 | pairwise distinct normalised names mean no collision |
| Exporter.WriteNode | motion_camera_tracking.py:259-335 | object `j`'s node is appended |
| Exporter.WriteNext | motion_camera_tracking.py:257-335 | a missing default stops the loop; so does an already-written name (its data was deleted); otherwise the node is appended |
| Exporter.WriteNodes | motion_camera_tracking.py:257-335 | with no frames the loop stops on the first object; with a collision it stops; otherwise every node is appended in scene order |
| Exporter.WriteDocument | motion_camera_tracking.py:248-338 | header, nodes and footer are appended, or the loop's error is returned |
| Exporter.ExportChunks | motion_camera_tracking.py:136-338 | records and writes; failures occur exactly in the cases named below, and otherwise the document is written |
| Exporter.Export | motion_camera_tracking.py:66-338 | fails without a camera, then with objects but no frames, then on a name collision; otherwise it returns the `.motn` path and the document's text |

## Left out

- Matrix decomposition (lines 167-198): the `-90°` rotation about X and Blender's `to_translation`, `to_euler('ZXY')` and `to_scale` are Blender code. The decomposed transform is an input of the model, as is `degrees(camera.angle)` (line 204).
- Scene evaluation (`frame_set`, lines 77, 159): the scene's state at each frame is an input. The final `scene.frame_set(oframe)` (line 342), which puts the scene back on the frame it was on, is not modelled either; the source skips it after an exception, having no `try`/`finally`.
- Unused values: `aspect`, `aperturex` and `aperturey` (lines 87-89, 132-134). They are computed but never written. `aspect` would also divide by zero for a zero vertical resolution.
- Dead code: `tscale`, `pc`, `tt12` and `framespeed` (lines 69, 156, 160, 294, 319); `t['nodes']`, `static_objs` and the `max_static` loop (lines 136, 144, 241, 250-254); and the `'function'` lists (lines 146, 148). None of them change the output.
- `limit_export` is the constant 0 (lines 32, 163, 259), so its branches are not modelled.
- The layer filter (lines 140, 258): under Python 3, `filter(...)` returns an iterator, which never equals `[]`. So no object is ever skipped, and the model exports every object.
- Add-on registration, the operator's properties, `poll`, `execute`, `draw` and the menu entry (lines 38-65 and after 340): Blender UI.
- File I/O: `open` and `write` are modelled as a list of chunks, one per `write`. Encoding and closing the file are not modelled.
- Serializer.WriteKeypoints: the keypoints of a curve are written in ascending frame order, which is Python 3.7's dictionary iteration order. The add-on targets Blender 2.5x-2.7x, and their Python (3.2-3.5) iterates a dictionary of integer keys in hash-table slot order. The order then differs when the frame range wraps round the table size: the 201 field-of-view keys of frames 400-600 sit in a 512-slot table and come out as 512-600, then 400-511. `Serializer.ChannelKeypointCount` and `Serializer.FovKeypointCount` state the same ascending order.
- Float printing: `str()` and `%s` on floats are the parameter `show`. Integers are rendered exactly, by `Text.IntToString`.
- Exporter.Export: when the exception comes from line 290 or 291 (no frames sampled, or a name collision found while writing), the source has already written part of the file. The model returns only the error, not the partial output. The missing camera (line 82) fails before the file is opened.
- Exporter.Export: the camera role uses the intended test, `Channels.IsCamera`, which compares with the camera object's name. The source compares with the camera data block's name at lines 147, 203, 219, 265 and 309. The two differ when the camera object and its data block are named differently. Then the source gives the `_fov` entry, the `scenenode` tag and the Angle Of View to the object named like the data block, if there is one, and writes every other object, the real camera included, as a `layer`. `Channels.CameraTestAsWrittenPicksWrongObject` exhibits this.
- Exporter.Export: the active camera is assumed to be a camera object with camera data. Blender lets any object be `scene.camera`. For an Empty, `camobj.data` is `None` (line 82), and `camera.name` at line 147 raises `AttributeError` before the file is opened. For a mesh, line 147 compares with the mesh's name, and `degrees(camera.angle)` at line 204 raises `AttributeError` at the first frame. Neither `AttributeError` is modelled, and neither is a failing `open` of the output path at line 247; in those cases the model exports a full document.
- Exporter.ExportChunks: the same camera-role difference as for `Exporter.Export`. Its `Document` flags the object named like the camera object.
- Exporter.RecordAll: the same camera-role difference. The field-of-view curve is recorded for the object named like the camera object, not for the object named like its data block.
- Exporter.Export: a name collision is reported as `NameCollision`. The shared table entries the colliding objects fill during sampling are not modelled. Depending on the values, the source's `KeyError` may come from a `del` in the sampling loop rather than from line 291.
- `del t` (line 340) frees memory only.
- Real numbers stand for Python floats: NaN, infinities and rounding are not modelled.

## Findings

| source | as written | input that shows it | evidently intended | confidence | as-written member | corrected member |
|---|---|---|---|---|---|---|
| motion_camera_tracking.py:147 | `obj.name == camera.name` compares an object's name with the name of the camera's data block (`camera = camobj.data`, line 82) | a camera object `Camera` whose data block is named `Lens`, plus another object named `Lens`: `Lens` is written as a `scenenode` with the field of view, and the camera as a plain `layer` | compare with the camera object's own name, `camobj.name` | not executed | Channels.CameraTestAsWrittenPicksWrongObject | Channels.CameraRoleIsUnique |
