/** `GAZE_OT_Rotate`: the gaze-driven orbit operator. One instance lives for
    one session (Blender builds it when SHIFT+R is pressed); its state is the
    two smoothing buffers, `last_offset`, and the attribute `lastoffset` that
    `compare` writes by mistake. */
module Rotate {
  import opened Common
  import opened Events
  import opened Rounding
  import opened RegionDetector
  import opened GazeFuser
  import opened Smoother

  /** An integer pair such as `last_offset` or the result of `compare`. */
  datatype Offset = Offset(x: int, y: int)

  /** What the detectors report for the one frame that `scan` pulls: the face
      boxes, the eye boxes, and the first Hough circle centre (already rounded)
      for the left and right eye crops, were those crops examined. */
  datatype RotateFrame = RotateFrame(
    faces: seq<Box>, eyes: seq<Box>, leftCircle: Option<Point>, rightCircle: Option<Point>)

  /** The call made on the viewport: `view_orbit(arg, type=...)`, recording
      the first positional argument as the source writes it. */
  datatype Orbit = NoOrbit | OrbitRight(arg: int) | OrbitLeft(arg: int)

  /** The raw gaze sample of one frame, before smoothing: `None` when neither
      eye yields a pupil. A pupil is looked for only in an eye that was found. */
  function ScanSample(frame: RotateFrame): (r: Option<Ratio>)
    ensures r.None? <==>
              var (l, rt) := Buckets(frame.faces, frame.eyes);
              (l.None? || frame.leftCircle.None?) && (rt.None? || frame.rightCircle.None?)
    ensures |frame.faces| != 1 ==> r.None?
  {
    var (left, right) := Buckets(frame.faces, frame.eyes);
    var leftPupil := if left.Some? then frame.leftCircle else None;
    var rightPupil := if right.Some? then frame.rightCircle else None;
    if leftPupil.None? && rightPupil.None? then None
    else Some(Mux(left, right, leftPupil, rightPupil))
  }

  /** The orbit `modal` requests for the horizontal result `x` of `compare`,
      when a 3D view was found at `invoke`: an ORBITRIGHT call passing `efact`
      as its first positional argument for a positive value, an ORBITLEFT call
      passing `-efact` for a negative one, nothing at zero. */
  function OrbitFor(x: int, efact: int, hasView: bool): (o: Orbit)
    ensures o.OrbitRight? <==> hasView && x > 0
    ensures o.OrbitLeft? <==> hasView && x < 0
    ensures o.OrbitRight? ==> o.arg == efact
    ensures o.OrbitLeft? ==> o.arg == -efact
  {
    if !hasView then NoOrbit
    else if x > 0 then OrbitRight(efact)
    else if x < 0 then OrbitLeft(-efact)
    else NoOrbit
  }

  /** Because `compare` never updates `last_offset`, the orbit follows the
      current smoothed offset and not its change: a steady gaze off-centre
      keeps the window as it is and orbits the same way on every cycle. */
  lemma SteadyGazeKeepsOrbiting(buf: seq<real>, v: real, efact: int)
    requires |buf| == BufferSize
    requires forall i :: 0 <= i < |buf| ==> buf[i] == v
    requires SmoothedOffset(buf, FactorX) != 0
    ensures Pushed(buf, v) == buf
    ensures OrbitFor(SmoothedOffset(Pushed(buf, v), FactorX), efact, true) != NoOrbit
  {
  }

  class RotateOperator {
    var bufferX: seq<real>
    var bufferY: seq<real>
    var lastOffset: Offset
    /** The attribute `self.lastoffset`, which `compare` sets and nothing reads. */
    var strayLastOffset: Option<Offset>

    /** The buffers are filled and emptied together and never exceed the
        capacity; `last_offset` keeps its initial value, because only the
        constructor assigns it. */
    ghost predicate Valid()
      reads this
      ensures Valid() ==> |bufferX| <= BufferSize && |bufferY| <= BufferSize
    {
      |bufferX| == |bufferY| <= BufferSize && lastOffset == Offset(0, 0)
    }

    /** `__init__`: a new session starts with empty buffers. */
    constructor ()
      ensures Valid()
      ensures bufferX == [] && bufferY == []
      ensures lastOffset == Offset(0, 0) && strayLastOffset == None
    {
      bufferX, bufferY := [], [];
      lastOffset := Offset(0, 0);
      strayLastOffset := None;
    }

    /** `pupil_offset`: push one fused sample into both windows and return the
        smoothed offsets from the eye centre. */
    method PupilOffset(argX: real, argY: real) returns (ox: int, oy: int)
      requires Valid()
      modifies this
      ensures Valid()
      ensures bufferX == Pushed(old(bufferX), argX) && bufferY == Pushed(old(bufferY), argY)
      ensures lastOffset == old(lastOffset) && strayLastOffset == old(strayLastOffset)
      ensures ox == SmoothedOffset(bufferX, FactorX) && oy == SmoothedOffset(bufferY, FactorY)
    {
      if |bufferX| >= BufferSize {
        bufferX := bufferX[1..];
        bufferY := bufferY[1..];
      }
      bufferX := bufferX + [argX];
      bufferY := bufferY + [argY];
      var x := Sum(bufferX) / BufferSize as real;
      var y := Sum(bufferY) / BufferSize as real;
      ox := RoundHalfEven((x - 0.5) * FactorX as real);
      oy := RoundHalfEven((y - 0.5) * FactorY as real);
    }

    /** `compare`: `(0, 0)` when a sample is missing, otherwise the difference
        from `last_offset`. The new sample is stored in `lastoffset`, not in
        `last_offset`, so the difference is always the sample itself. */
    method Compare(x: Option<int>, y: Option<int>) returns (d: Offset)
      requires Valid()
      modifies this
      ensures Valid()
      ensures bufferX == old(bufferX) && bufferY == old(bufferY) && lastOffset == old(lastOffset)
      ensures x.None? || y.None? ==> d == Offset(0, 0) && strayLastOffset == old(strayLastOffset)
      ensures x.Some? && y.Some? ==>
                d == Offset(x.value - lastOffset.x, y.value - lastOffset.y) &&
                d == Offset(x.value, y.value) &&
                strayLastOffset == Some(Offset(x.value, y.value))
    {
      if x.None? || y.None? {
        return Offset(0, 0);
      }
      var sx, sy := lastOffset.x, lastOffset.y;
      d := Offset(x.value - sx, y.value - sy);
      strayLastOffset := Some(Offset(x.value, y.value));
    }

    /** `scan`: detect the eyes of one frame, locate the pupils, fuse them and
        smooth the result. A frame without a pupil leaves the windows as they
        were and gives no offset. */
    method Scan(frame: RotateFrame) returns (offset: Option<Offset>)
      requires Valid()
      modifies this
      ensures Valid()
      ensures lastOffset == old(lastOffset) && strayLastOffset == old(strayLastOffset)
      ensures ScanSample(frame).None? ==>
                offset.None? && bufferX == old(bufferX) && bufferY == old(bufferY)
      ensures ScanSample(frame).Some? ==>
                var s := ScanSample(frame).value;
                bufferX == Pushed(old(bufferX), s.x) && bufferY == Pushed(old(bufferY), s.y) &&
                offset == Some(Offset(SmoothedOffset(bufferX, FactorX), SmoothedOffset(bufferY, FactorY)))
    {
      var left, right := EyesDetect(frame.faces, frame.eyes);
      var leftPupil, rightPupil := None, None;
      if left.Some? {
        leftPupil := frame.leftCircle;
      }
      if right.Some? {
        rightPupil := frame.rightCircle;
      }
      if leftPupil.None? && rightPupil.None? {
        return None;
      }
      var m := Mux(left, right, leftPupil, rightPupil);
      var ox, oy := PupilOffset(m.x, m.y);
      offset := Some(Offset(ox, oy));
    }

    /** `modal`: on an event that is neither R nor a mouse event, finish;
        otherwise scan one frame, compare, and orbit by the sign of the
        horizontal difference. */
    method Modal(eventType: string, efact: int, hasView: bool, frame: RotateFrame)
      returns (status: Status, orbit: Orbit)
      requires Valid()
      modifies this
      ensures Valid()
      ensures EndsModal(eventType, "R") ==>
                status == Finished && orbit == NoOrbit &&
                bufferX == old(bufferX) && bufferY == old(bufferY) &&
                strayLastOffset == old(strayLastOffset)
      ensures !EndsModal(eventType, "R") ==>
                status == RunningModal &&
                match ScanSample(frame)
                case None =>
                  orbit == NoOrbit && bufferX == old(bufferX) && bufferY == old(bufferY) &&
                  strayLastOffset == old(strayLastOffset)
                case Some(s) =>
                  bufferX == Pushed(old(bufferX), s.x) && bufferY == Pushed(old(bufferY), s.y) &&
                  orbit == OrbitFor(SmoothedOffset(bufferX, FactorX), efact, hasView) &&
                  strayLastOffset == Some(Offset(SmoothedOffset(bufferX, FactorX), SmoothedOffset(bufferY, FactorY)))
    {
      if EndsModal(eventType, "R") {
        return Finished, NoOrbit;
      }
      var offset := Scan(frame);
      var ox := if offset.Some? then Some(offset.value.x) else None;
      var oy := if offset.Some? then Some(offset.value.y) else None;
      var d := Compare(ox, oy);
      status := RunningModal;
      orbit := OrbitFor(d.x, efact, hasView);
    }
  }
}
