/** `GAZE_OT_Zoom`: the face-size driven zoom operator. One instance lives for
    one session (SHIFT+T); its state is `buffer`, the last face size, or
    `None` before the first one. */
module Zoom {
  import opened Common
  import opened Events
  import opened Rounding
  import opened RegionDetector

  /** `modal` pulls five frames per cycle. */
  const PullsPerCycle: nat := 5
  /** `round(fsize / cnt / 3)`: the mean width is divided by three. */
  const SizeDivisor: int := 3

  /** The face widths that `face_filter` returns for the frames with exactly
      one face, in order; `frames[i]` is what the face detector reported for
      the `i`-th frame pulled. */
  function FoundWidths(frames: seq<seq<Box>>): (ws: seq<int>)
    ensures |ws| <= |frames|
    ensures forall i :: 0 <= i < |ws| ==> ws[i] > 0
    ensures |ws| == 0 <==> forall i :: 0 <= i < |frames| ==> FaceFilter(frames[i]).None?
  {
    if frames == [] then []
    else
      var rest := FoundWidths(frames[1..]);
      assert forall i :: 0 < i < |frames| ==> frames[1..][i - 1] == frames[i];
      match FaceFilter(frames[0])
      case None => rest
      case Some(w) => [w] + rest
  }

  function SumInts(s: seq<int>): int {
    if s == [] then 0 else s[0] + SumInts(s[1..])
  }

  /** The loop of `modal`: total and number of the widths found in the pulled frames. */
  method CollectWidths(frames: seq<seq<Box>>) returns (fsize: int, cnt: nat)
    requires |frames| == PullsPerCycle
    ensures fsize == SumInts(FoundWidths(frames)) && cnt == |FoundWidths(frames)|
    ensures cnt <= PullsPerCycle
    ensures cnt == 0 <==> forall i :: 0 <= i < |frames| ==> FaceFilter(frames[i]).None?
  {
    fsize, cnt := 0, 0;
    for i := 0 to PullsPerCycle
      invariant fsize + SumInts(FoundWidths(frames[i..])) == SumInts(FoundWidths(frames))
      invariant cnt + |FoundWidths(frames[i..])| == |FoundWidths(frames)|
    {
      assert frames[i..][1..] == frames[i + 1..];
      var k := FaceFilter(frames[i]);
      if k.Some? {
        fsize := fsize + k.value;
        cnt := cnt + 1;
      }
    }
  }

  /** The face size of one cycle: `None` when no pulled frame had exactly one
      face, otherwise the mean width over three, rounded half to even. */
  function CycleSize(frames: seq<seq<Box>>): (r: Option<int>)
    ensures r.None? <==> forall i :: 0 <= i < |frames| ==> FaceFilter(frames[i]).None?
  {
    var ws := FoundWidths(frames);
    if |ws| == 0 then None
    else Some(RoundHalfEven(SumInts(ws) as real / (SizeDivisor * |ws|) as real))
  }

  lemma {:induction false} SumOfConstant(ws: seq<int>, w: int)
    requires forall i :: 0 <= i < |ws| ==> ws[i] == w
    ensures SumInts(ws) == |ws| * w
  {
    if ws != [] {
      SumOfConstant(ws[1..], w);
    }
  }

  /** A face seen at the same width `w` in every frame where it was found gives
      the size `w / 3`, rounded: the averaging does not depend on how many
      frames found it. */
  lemma SteadyFaceSize(frames: seq<seq<Box>>, w: int)
    requires exists i :: 0 <= i < |frames| && FaceFilter(frames[i]).Some?
    requires forall i :: 0 <= i < |frames| && FaceFilter(frames[i]).Some? ==> FaceFilter(frames[i]).value == w
    ensures CycleSize(frames) == Some(RoundHalfEven(w as real / SizeDivisor as real))
  {
    var ws := FoundWidths(frames);
    FoundWidthsFrom(frames, w);
    SumOfConstant(ws, w);
    CancelCount(w, |ws|);
  }

  /** `(n * w) / (3 * n) == w / 3` for a positive count `n`. */
  lemma CancelCount(w: int, n: nat)
    requires n > 0
    ensures (n * w) as real / (SizeDivisor * n) as real == w as real / SizeDivisor as real
  {
  }

  /** `fsize / cnt / 3 == fsize / (3 * cnt)` for a positive count. */
  lemma DivideTwice(fsize: int, cnt: nat)
    requires cnt > 0
    ensures fsize as real / cnt as real / SizeDivisor as real == fsize as real / (SizeDivisor * cnt) as real
  {
  }

  lemma {:induction false} FoundWidthsFrom(frames: seq<seq<Box>>, w: int)
    requires forall i :: 0 <= i < |frames| && FaceFilter(frames[i]).Some? ==> FaceFilter(frames[i]).value == w
    ensures forall i :: 0 <= i < |FoundWidths(frames)| ==> FoundWidths(frames)[i] == w
  {
    if frames != [] {
      assert forall i :: 0 < i < |frames| ==> frames[1..][i - 1] == frames[i];
      FoundWidthsFrom(frames[1..], w);
    }
  }

  /** One cycle's effect on the baseline: the new baseline, and the change of
      view distance requested, if any. */
  datatype SizeStep = SizeStep(baseline: Option<int>, delta: Option<int>)

  /** The baseline rule of `modal`: no size leaves everything as it was; the
      first size only becomes the baseline; a later size asks for
      `(baseline - size) * efact` and becomes the new baseline. */
  function StepSize(baseline: Option<int>, size: Option<int>, efact: int): (r: SizeStep)
    ensures size.None? ==> r == SizeStep(baseline, None)
    ensures size.Some? ==> r.baseline == size
    ensures r.delta.Some? <==> baseline.Some? && size.Some?
    ensures r.delta.Some? ==> r.delta.value == (baseline.value - size.value) * efact
  {
    match size
    case None => SizeStep(baseline, None)
    case Some(s) =>
      if baseline.None? then SizeStep(Some(s), None)
      else SizeStep(Some(s), Some((baseline.value - s) * efact))
  }

  /** The baseline after a run of cycle sizes, and the total change of view
      distance requested on the way. */
  function RunSizes(baseline: Option<int>, sizes: seq<Option<int>>, efact: int): (Option<int>, int)
    decreases |sizes|
  {
    if sizes == [] then (baseline, 0)
    else
      var step := StepSize(baseline, sizes[0], efact);
      var (b, total) := RunSizes(step.baseline, sizes[1..], efact);
      (b, total + if step.delta.Some? then step.delta.value else 0)
  }

  /** The deltas telescope: over any run of cycles that starts from a baseline,
      the view distance moves by `efact` times the drop from the first baseline
      to the last one. */
  lemma {:induction false} RunTelescopes(b0: int, sizes: seq<Option<int>>, efact: int)
    ensures RunSizes(Some(b0), sizes, efact).0.Some?
    ensures RunSizes(Some(b0), sizes, efact).1 == (b0 - RunSizes(Some(b0), sizes, efact).0.value) * efact
    decreases |sizes|
  {
    if sizes != [] {
      var step := StepSize(Some(b0), sizes[0], efact);
      RunTelescopes(step.baseline.value, sizes[1..], efact);
    }
  }

  class ZoomOperator {
    var buffer: Option<int>

    /** `__init__`: a new session has no baseline. */
    constructor ()
      ensures buffer == None
    {
      buffer := None;
    }

    /** `modal`: on an event that is neither T nor a mouse event, forget the
        baseline and finish; otherwise measure the face over five frames and
        apply the baseline rule. The change is returned instead of being added
        to the view distance. */
    method Modal(eventType: string, efact: int, frames: seq<seq<Box>>)
      returns (status: Status, delta: Option<int>)
      requires |frames| == PullsPerCycle
      modifies this
      ensures EndsModal(eventType, "T") ==> status == Finished && delta.None? && buffer.None?
      ensures !EndsModal(eventType, "T") ==>
                status == RunningModal &&
                SizeStep(buffer, delta) == StepSize(old(buffer), CycleSize(frames), efact)
    {
      if EndsModal(eventType, "T") {
        buffer := None;
        return Finished, None;
      }
      var fsize, cnt := CollectWidths(frames);
      if cnt == 0 {
        return RunningModal, None;
      }
      var size := RoundHalfEven(fsize as real / cnt as real / SizeDivisor as real);
      DivideTwice(fsize, cnt);
      if buffer.None? {
        buffer := Some(size);
        return RunningModal, None;
      }
      delta := Some((buffer.value - size) * efact);
      buffer := Some(size);
      status := RunningModal;
    }
  }
}
