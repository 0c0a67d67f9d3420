/** The sampling loop of the exporter: every frame, every object's nine channels (and
    the camera's field of view) receive a sample, the first frame sets each channel's
    default, and each channel's keys are reduced on the fly. */
module Recording {
  import opened Wrappers
  import opened Channels
  import opened Reduction

  /** One channel's entry in the exporter's table: its key map (`'data'`) and its
      `'default'`, which does not exist before the first frame. */
  datatype Curve = Curve(data: map<int, real>, default: Option<real>)

  /** Everything recorded for one object: its nine curves in `Attrs` order, the
      reduction history of each, and the field-of-view curve when it is the camera. */
  datatype Track = Track(curves: seq<Curve>, history: seq<History>, fov: Option<Curve>)

  function First(vs: seq<real>): Option<real> {
    if vs == [] then None else Some(vs[0])
  }

  /** The samples one channel of an object has received, given that object's
      decomposed transforms frame by frame. */
  function Column(col: seq<Decomposed>, sscale: real, p: nat): (vs: seq<real>)
    requires p < ChannelCount
    ensures |vs| == |col|
    ensures forall f :: 0 <= f < |col| ==> vs[f] == ChannelValue(col[f], sscale, Attrs[p])
  {
    seq(|col|, f requires 0 <= f < |col| => ChannelValue(col[f], sscale, Attrs[p]))
  }

  /** One object's decomposed transforms, frame by frame, out of per-frame samples of
      all objects. */
  function ObjectColumn(seen: seq<seq<Decomposed>>, j: nat): (col: seq<Decomposed>)
    requires forall f :: 0 <= f < |seen| ==> j < |seen[f]|
    ensures |col| == |seen|
    ensures forall f :: 0 <= f < |seen| ==> col[f] == seen[f][j]
  {
    seq(|seen|, f requires 0 <= f < |seen| => seen[f][j])
  }

  /** The curves an object must hold after the transforms `col`. */
  function ExpectedCurves(start: int, n: int, col: seq<Decomposed>, sscale: real): (cs: seq<Curve>)
    ensures |cs| == ChannelCount
  {
    seq(ChannelCount, p requires 0 <= p < ChannelCount =>
      Curve(Kept(start, Column(col, sscale, p), n), First(Column(col, sscale, p))))
  }

  function ExpectedHistory(col: seq<Decomposed>, sscale: real): (hs: seq<History>)
    ensures |hs| == ChannelCount
  {
    seq(ChannelCount, p requires 0 <= p < ChannelCount => HistoryOf(Column(col, sscale, p)))
  }

  /** The field of view is recorded for the camera only, one key per frame. */
  function ExpectedFov(start: int, fovs: seq<real>, isCamera: bool): Option<Curve> {
    if isCamera then Some(Curve(AllSamples(start, fovs), First(fovs))) else None
  }

  /** `tr` is what the exporter holds for an object after the transforms `col` and the
      field-of-view values `fovs`. */
  predicate TrackMatches(tr: Track, start: int, n: int, col: seq<Decomposed>, fovs: seq<real>,
                         isCamera: bool, sscale: real)
  {
    && tr.curves == ExpectedCurves(start, n, col, sscale)
    && tr.history == ExpectedHistory(col, sscale)
    && tr.fov == ExpectedFov(start, fovs, isCamera)
  }

  /** The table entries created for an object before sampling (lines 145-148), and its
      history `[None, None]` per channel (line 222). */
  function EmptyTrack(isCamera: bool): (tr: Track)
    ensures forall start, n, sscale :: TrackMatches(tr, start, n, [], [], isCamera, sscale)
  {
    var tr := Track(seq(ChannelCount, _ => Curve(map[], None)),
                    seq(ChannelCount, _ => History(None, None)),
                    if isCamera then Some(Curve(map[], None)) else None);
    assert forall start, n, sscale :: ExpectedCurves(start, n, [], sscale) == tr.curves;
    tr
  }

  lemma ColumnAfterSample(col: seq<Decomposed>, d: Decomposed, sscale: real, p: nat)
    requires p < ChannelCount
    ensures Column(col + [d], sscale, p) == Column(col, sscale, p) + [ChannelValue(d, sscale, Attrs[p])]
  {
    assert (col + [d])[|col|] == d;
  }

  lemma AllSamplesAfterSample(start: int, vs: seq<real>, v: real)
    ensures AllSamples(start, vs + [v]) == AllSamples(start, vs)[start + |vs| := v]
  {
  }

  /** The reduction loop over the nine channels (lines 221-236): channel `q`, whose
      earlier samples are `cols[q]` and whose new sample `vals[q]` is already in its
      curve, takes one `Step`. */
  method StepChannels(curves: seq<Curve>, history: seq<History>, vals: seq<real>,
                      frame: int, fnum: nat, frames: int,
                      ghost start: int, ghost cols: seq<seq<real>>)
    returns (curves': seq<Curve>, history': seq<History>)
    requires |curves| == |history| == |vals| == |cols| == ChannelCount
    requires fnum < frames && frame == start + fnum
    requires forall q :: 0 <= q < ChannelCount ==>
      && |cols[q]| == fnum
      && curves[q].data == Kept(start, cols[q], frames)[frame := vals[q]]
      && history[q] == HistoryOf(cols[q])
    ensures |curves'| == |history'| == ChannelCount
    ensures forall q :: 0 <= q < ChannelCount ==>
      && curves'[q] == curves[q].(data := Kept(start, cols[q] + [vals[q]], frames))
      && history'[q] == HistoryOf(cols[q] + [vals[q]])
  {
    curves', history' := curves, history;
    for p := 0 to ChannelCount
      invariant |curves'| == |history'| == ChannelCount
      invariant forall q :: 0 <= q < p ==>
        && curves'[q] == curves[q].(data := Kept(start, cols[q] + [vals[q]], frames))
        && history'[q] == HistoryOf(cols[q] + [vals[q]])
      invariant forall q :: p <= q < ChannelCount ==> curves'[q] == curves[q] && history'[q] == history[q]
    {
      var data, h := Step(curves'[p].data, history'[p], frame, fnum, frames, start, cols[p], vals[p]);
      curves' := curves'[p := curves'[p].(data := data)];
      history' := history'[p := h];
    }
  }

  /** Records one frame for one object (lines 167-236): the nine values `vals` the
      transform `d` gives its channels go into them, the first frame sets the defaults,
      and each channel takes one reduction step. The object then holds what the longer
      history demands. */
  method RecordObject(tr: Track, d: Decomposed, vals: seq<real>, fov: real, isCamera: bool,
                      sscale: real, frame: int, fnum: nat, frames: int,
                      ghost start: int, ghost col: seq<Decomposed>, ghost fovs: seq<real>)
    returns (tr': Track)
    requires |vals| == ChannelCount
    requires forall p :: 0 <= p < ChannelCount ==> vals[p] == ChannelValue(d, sscale, Attrs[p])
    requires |col| == |fovs| == fnum < frames && frame == start + fnum
    requires TrackMatches(tr, start, frames, col, fovs, isCamera, sscale)
    ensures TrackMatches(tr', start, frames, col + [d], fovs + [fov], isCamera, sscale)
  {
    var curves := seq(ChannelCount, p requires 0 <= p < ChannelCount =>
      tr.curves[p].(data := tr.curves[p].data[frame := vals[p]]));
    var fovCurve := tr.fov;
    if isCamera {
      fovCurve := Some(fovCurve.value.(data := fovCurve.value.data[frame := fov]));
    }
    if fnum == 0 {
      curves := seq(ChannelCount, p requires 0 <= p < ChannelCount =>
        curves[p].(default := Some(vals[p])));
      if isCamera {
        fovCurve := Some(fovCurve.value.(default := Some(fov)));
      }
    }
    ghost var cols := seq(ChannelCount, q requires 0 <= q < ChannelCount => Column(col, sscale, q));
    forall q | 0 <= q < ChannelCount
      ensures Column(col + [d], sscale, q) == cols[q] + [vals[q]]
      ensures curves[q].default == First(cols[q] + [vals[q]])
    {
      ColumnAfterSample(col, d, sscale, q);
    }
    var curves', history' := StepChannels(curves, tr.history, vals, frame, fnum, frames, start, cols);
    AllSamplesAfterSample(start, fovs, fov);
    tr' := Track(curves', history', fovCurve);
  }

  /** Records one frame for every object, in scene order (lines 162-236). */
  method RecordFrame(tracks: seq<Track>, sample: seq<Decomposed>, fov: real, roles: seq<bool>,
                     sscale: real, frame: int, fnum: nat, frames: int,
                     ghost start: int, ghost seen: seq<seq<Decomposed>>, ghost fovs: seq<real>)
    returns (tracks': seq<Track>)
    requires |tracks| == |roles| == |sample|
    requires |seen| == |fovs| == fnum < frames && frame == start + fnum
    requires forall f :: 0 <= f < |seen| ==> |seen[f]| == |roles|
    requires forall j :: 0 <= j < |roles| ==>
      TrackMatches(tracks[j], start, frames, ObjectColumn(seen, j), fovs, roles[j], sscale)
    ensures |tracks'| == |roles|
    ensures forall j :: 0 <= j < |roles| ==>
      TrackMatches(tracks'[j], start, frames, ObjectColumn(seen + [sample], j), fovs + [fov],
                   roles[j], sscale)
  {
    ghost var seen' := seen + [sample];
    tracks' := tracks;
    for j := 0 to |roles|
      invariant |tracks'| == |roles|
      invariant forall i :: 0 <= i < j ==>
        TrackMatches(tracks'[i], start, frames, ObjectColumn(seen', i), fovs + [fov], roles[i], sscale)
      invariant forall i :: j <= i < |roles| ==> tracks'[i] == tracks[i]
    {
      var vals := Sample(sample[j], sscale);
      var tr := RecordObject(tracks'[j], sample[j], vals, fov, roles[j], sscale, frame, fnum,
                             frames, start, ObjectColumn(seen, j), fovs);
      assert ObjectColumn(seen', j) == ObjectColumn(seen, j) + [sample[j]];
      tracks' := tracks'[j := tr];
    }
  }
}
