/** Online keyframe reduction of one channel (`pvals` and the `del` statements of the
    sampling loop). Frame `start + i` carries the channel's `i`-th sample `vs[i]`;
    `n` is the number of frames in the export range. */
module Reduction {
  import opened Wrappers

  /** The two-slot history `pvals[name][p]`: the most recent and the second most
      recent sampled value (`None` before there is one). */
  datatype History = History(last: Option<real>, beforeLast: Option<real>)

  /** The history after the samples `vs` have been seen. */
  function HistoryOf(vs: seq<real>): History {
    History(if |vs| >= 1 then Some(vs[|vs| - 1]) else None,
            if |vs| >= 2 then Some(vs[|vs| - 2]) else None)
  }

  /** Sample `j` equals the two samples before it. */
  predicate Triple(vs: seq<real>, j: int) {
    2 <= j < |vs| && vs[j] == vs[j - 1] && vs[j - 1] == vs[j - 2]
  }

  /** Whether the key of sample `i` has been deleted once the samples `vs` (of `n`)
      have been recorded: as the previous frame of a triple, as the first frame when
      the first three samples are equal, or as the last frame of the range when the
      final three samples are equal. */
  predicate Dropped(vs: seq<real>, n: int, i: int) {
    || Triple(vs, i + 1)
    || (i == 0 && Triple(vs, 2))
    || (i == |vs| - 1 && |vs| == n && Triple(vs, i))
  }

  /** The sample taken at frame `f`. */
  function ValueAt(start: int, vs: seq<real>, f: int): real
    requires start <= f < start + |vs|
  {
    vs[f - start]
  }

  /** Whether the key of frame `f` has been dropped. */
  predicate DroppedFrame(start: int, vs: seq<real>, n: int, f: int) {
    Dropped(vs, n, f - start)
  }

  /** Reference definition of a channel's key map after the samples `vs`: every
      sampled frame whose key has not been dropped, with its sampled value. */
  function Kept(start: int, vs: seq<real>, n: int): map<int, real> {
    map f | start <= f < start + |vs| && !DroppedFrame(start, vs, n, f) :: ValueAt(start, vs, f)
  }

  /** A channel that is never reduced (the field of view): one key per sampled frame. */
  function AllSamples(start: int, vs: seq<real>): map<int, real> {
    map f | start <= f < start + |vs| :: ValueAt(start, vs, f)
  }

  /** Python's `del m[k]`, which fails unless `k` is a key of `m`. */
  function Delete(m: map<int, real>, k: int): (r: map<int, real>)
    requires k in m
    ensures r.Keys == m.Keys - {k}
    ensures forall f :: f in r ==> r[f] == m[f]
  {
    m - {k}
  }

  /** How one more sample changes which keys are dropped. */
  lemma DroppedAfterSample(vs: seq<real>, v: real, n: int, i: int)
    requires |vs| < n && 0 <= i <= |vs|
    ensures var w, k := vs + [v], |vs|;
      i < k ==> (Dropped(w, n, i) <==>
                   Dropped(vs, n, i) || (i == k - 1 && Triple(w, k)) || (i == 0 && k == 2 && Triple(w, k)))
    ensures var w, k := vs + [v], |vs|;
      i == k ==> (Dropped(w, n, i) <==> k == n - 1 && Triple(w, k))
  {
    var w, k := vs + [v], |vs|;
    forall j | j < k ensures Triple(w, j) == Triple(vs, j) {
      if 2 <= j {
        assert w[j] == vs[j] && w[j - 1] == vs[j - 1] && w[j - 2] == vs[j - 2];
      }
    }
  }

  /** The frames whose keys the rule deletes when sample `k` (at frame `frame`)
      completes a triple: the previous frame, the first frame when `k == 2`, and the
      new frame itself when it is the last of the `n` frames. */
  function Removed(w: seq<real>, k: int, n: int, frame: int): set<int> {
    if Triple(w, k) then
      {frame - 1} + (if k == 2 then {frame - 2} else {}) + (if k == n - 1 then {frame} else {})
    else {}
  }

  /** One more sample adds its frame's key and drops exactly the `Removed` frames. */
  lemma KeptAfterSample(start: int, vs: seq<real>, v: real, n: int)
    requires |vs| < n
    ensures Kept(start, vs + [v], n)
         == Kept(start, vs, n)[start + |vs| := v] - Removed(vs + [v], |vs|, n, start + |vs|)
  {
    var w, k, frame := vs + [v], |vs|, start + |vs|;
    var lhs := Kept(start, w, n);
    var rhs := Kept(start, vs, n)[frame := v] - Removed(w, k, n, frame);
    forall f | start <= f <= frame
      ensures f in lhs <==> f in rhs
    {
      DroppedAfterSample(vs, v, n, f - start);
    }
    assert lhs.Keys == rhs.Keys;
  }

  /** One iteration of the reduction loop for one channel (lines 227-236). `data`
      already holds the new sample at `frame`; the history is compared with it, shifted,
      and the keys the rule names are deleted. Every `del` finds its key, so the step
      never fails, and the result is the reference map of the longer sample list. */
  method Step(data: map<int, real>, h: History, frame: int, fnum: nat, frames: int,
              ghost start: int, ghost vs: seq<real>, ghost v: real)
    returns (data': map<int, real>, h': History)
    requires |vs| == fnum < frames && frame == start + fnum
    requires data == Kept(start, vs, frames)[frame := v]
    requires h == HistoryOf(vs)
    ensures data' == Kept(start, vs + [v], frames)
    ensures h' == HistoryOf(vs + [v])
  {
    ghost var w := vs + [v];
    KeptAfterSample(start, vs, v, frames);
    var vv := data[frame];
    var delLastFrame := Some(vv) == h.last && Some(vv) == h.beforeLast;
    assert delLastFrame <==> Triple(w, fnum);
    h' := History(Some(vv), h.last);
    data' := data;
    if delLastFrame {
      data' := Delete(data', frame - 1);
      if fnum == 2 {
        data' := Delete(data', frame - 2);
      }
      if fnum == frames - 1 {
        data' := Delete(data', frame);
      }
    }
    assert data'.Keys == data.Keys - Removed(w, fnum, frames, frame);
  }

  /** The reduced keys are sampled frames and keep their sampled values. */
  lemma KeptAreSampled(start: int, vs: seq<real>, n: int)
    ensures forall f :: f in Kept(start, vs, n) ==>
      start <= f < start + |vs| && Kept(start, vs, n)[f] == vs[f - start]
  {
  }

  /** Nothing is deleted while fewer than three samples have been seen. */
  lemma NothingDroppedBeforeThirdFrame(start: int, vs: seq<real>, n: int)
    requires |vs| <= 2
    ensures Kept(start, vs, n) == AllSamples(start, vs)
  {
  }

  /** An interior sample survives exactly when it differs from one of its neighbours. */
  lemma InteriorKeptIffNotConstant(start: int, vs: seq<real>, i: int)
    requires 1 <= i && i + 1 < |vs|
    ensures start + i in Kept(start, vs, |vs|) <==> !(vs[i - 1] == vs[i] && vs[i] == vs[i + 1])
  {
  }

  /** A channel that keeps one value over a whole range of three or more frames ends
      with no keys at all (its value survives only as the default). */
  lemma {:induction false} ConstantChannelHasNoKeys(start: int, vs: seq<real>)
    requires |vs| >= 3
    requires forall i :: 0 <= i < |vs| ==> vs[i] == vs[0]
    ensures Kept(start, vs, |vs|) == map[]
  {
    var m := Kept(start, vs, |vs|);
    forall f | f in m ensures false {
      var i := f - start;
      if i == 0 {
        assert Triple(vs, 2);
      } else if i == |vs| - 1 {
        assert Triple(vs, i);
      }
    }
  }

  /** Of a constant run strictly inside the range, bounded by different values on
      both sides, only the run's first and last frames are kept. */
  lemma {:induction false} ConstantRunKeepsEndpoints(start: int, vs: seq<real>, a: int, b: int)
    requires 0 < a <= b && b + 1 < |vs|
    requires vs[a - 1] != vs[a] && vs[b + 1] != vs[b]
    requires forall i :: a <= i <= b ==> vs[i] == vs[a]
    ensures forall f :: start + a <= f <= start + b ==>
      (f in Kept(start, vs, |vs|) <==> f == start + a || f == start + b)
  {
    forall f | start + a <= f <= start + b
      ensures f in Kept(start, vs, |vs|) <==> f == start + a || f == start + b
    {
      var i := f - start;
      InteriorKeptIffNotConstant(start, vs, i);
      if a < i < b {
        assert vs[i - 1] == vs[a] && vs[i + 1] == vs[a];
      }
    }
  }

  /** The value a step curve shows at frame `f`: the most recent key at or before
      `f`, or `dflt` when there is none. */
  function Held(m: map<int, real>, start: int, dflt: real, f: int): real
    decreases f - start
  {
    if f < start then dflt else if f in m then m[f] else Held(m, start, dflt, f - 1)
  }

  /** Reduction loses nothing: the kept keys, completed by the default (the first
      sample), reproduce every sample of the range. */
  lemma {:induction false} KeptReproducesSamples(start: int, vs: seq<real>, i: int)
    requires 0 <= i < |vs|
    ensures Held(Kept(start, vs, |vs|), start, vs[0], start + i) == vs[i]
    decreases i
  {
    var m := Kept(start, vs, |vs|);
    if start + i !in m {
      assert Dropped(vs, |vs|, i);
      if i > 0 {
        assert vs[i] == vs[i - 1];
        KeptReproducesSamples(start, vs, i - 1);
      }
    }
  }

  /** `|AllSamples(start, vs)| == |vs|`, by adding one sample at a time. */
  lemma {:induction false} AllSamplesSize(start: int, vs: seq<real>)
    ensures |AllSamples(start, vs)| == |vs|
    decreases |vs|
  {
    if vs != [] {
      var init := vs[..|vs| - 1];
      AllSamplesSize(start, init);
      assert AllSamples(start, vs) == AllSamples(start, init)[start + |init| := vs[|vs| - 1]];
      assert start + |init| !in AllSamples(start, init);
    }
  }
}
