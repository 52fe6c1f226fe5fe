# Gaze Navi head tracker — a Dafny model of its tracking core

Gaze Navi is a Blender add-on that steers the 3D viewport with a webcam. Two
modal operators do the work. `GAZE_OT_Rotate` (SHIFT+R) finds one face and its
eyes in each frame, locates a pupil in each eye crop, fuses the pupils into a
gaze ratio, smooths it over a five-sample window, and orbits the view left or
right by the sign of the smoothed offset. `GAZE_OT_Zoom` (SHIFT+T) measures the
face width over five frames and changes the view distance by the change of that
size since the previous cycle.

This project models that logic in Dafny, with the OpenCV detectors, the camera
and Blender treated as inputs and outputs:

- `common.dfy` — `Option`, detector boxes (`Box`, a rectangle with positive
  width and height) and pupil points.
- `rounding.dfy` — `round` / `np.round` as exact round-half-to-even on reals.
- `events.dfy` — the event test shared by both `modal` handlers: finish on any
  event that is neither the operator's key nor contains `MOUSE`.
- `region_detector.dfy` — the single-face gate of `face_filter` and
  `eyes_detect`, and the filtering and left/right bucketing of eye boxes (a
  loop, as in the source).
- `gaze_fuser.dfy` — `mux`.
- `smoother.dfy` — the FIFO window of `pupil_offset` and its scaled mean.
- `rotate.dfy` — class `RotateOperator` (buffers `buffer_x`, `buffer_y`,
  `last_offset`, and the stray attribute `lastoffset`), with `pupil_offset`,
  `compare`, `scan` and `modal`.
- `zoom.dfy` — class `ZoomOperator` (the baseline `buffer`), its five-pull
  sampling loop and `modal`.

Behaviour of the code worth noting:

- `mux` returns plain fractions: unscaled and unrounded, all of which go into
  the smoothing window. With both pupils it divides the summed x offsets by
  the summed widths, and its vertical value adds the right pupil's y twice
  (`right_pupil[1]+right_pupil[1]`).
- Eye boxes are bucketed by their left edge `x` against `fx + fw/2`
  (compared as `2x < 2fx + fw`). A later box overwrites an earlier one of the
  same side.
- The smoothed mean always divides by the capacity, 5, even while the window
  holds fewer samples. So for horizontal ratios in [0, 1] the first two
  samples of a session give a negative offset (`Smoother.StartupBiasLeft`).
  Ratios in [0, 1] are not guaranteed: the eye crop is `h` pixels wide, so a
  pupil x can exceed a box width `w` smaller than `h`.
- `compare` stores the new sample in `self.lastoffset`, a misspelt attribute,
  so `last_offset` stays `(0, 0)` forever. The orbit therefore follows the
  sign of the current smoothed offset, not its change, and a steady gaze off
  centre orbits on every cycle (`Rotate.SteadyGazeKeepsOrbiting`).
- The zoom size is `round(sum / cnt / 3)`, half to even, and the delta is
  `(previous - current) * efact`.

The camera and the detectors are inputs. A rotate cycle receives a
`RotateFrame`: the face boxes and eye boxes that the cascades reported, and
the first Hough circle centre for each eye crop. A zoom cycle receives five
face-box lists, one per frame pulled. Blender's event arrives as its `type`
string. `context.scene.RNAefact` arrives as the integer `efact`. Whether
`invoke` found a 3D view arrives as `hasView`. The viewport is an output: the
rotate `modal` returns the `view_orbit` call it would make (`Orbit`), and the
zoom `modal` returns the amount it would add to `view_distance`.

## Model

| member | source | states |
|---|---|---|
| `Rounding.RoundHalfEven` | blender_head_tracker.py:171-172 | the result is an integer within 1/2 of the input, and an exact tie goes to the even neighbour |
| `Rounding.RoundHalfEvenUnique` | blender_head_tracker.py:171-172 | any integer within 1/2 whose ties are even is the rounding result, so the rounding is fully determined |
| `Rounding.RoundHalfEvenNegate` | blender_head_tracker.py:171-172 | rounding commutes with negation: `round(-r) == -round(r)` |
| `Rounding.RoundHalfEvenOfInt` | blender_head_tracker.py:64 | an integer rounds to itself |
| `Events.Contains` | blender_head_tracker.py:52 | Python's `'MOUSE' in event.type`; an occurrence implies the substring is no longer than the string |
| `Events.ContainsSpec` | blender_head_tracker.py:52 | the recursive substring test holds iff the substring occurs at some index |
| `Events.EndsModal` | blender_head_tracker.py:52 | a session continues iff the event type is the operator's key or has `MOUSE` at some index (the same test at line 206 with key R) |
| `Events.EndsModalExamples` | blender_head_tracker.py:52-54 | the operator's own key and mouse events (`MOUSEMOVE`, `LEFTMOUSE`) keep a session; `ESC` and the other operator's key end it |
| `RegionDetector.SingleFace` | blender_head_tracker.py:113-118 | a face box is reported iff the detector gave exactly one candidate, and it is that candidate |
| `RegionDetector.FaceFilter` | blender_head_tracker.py:33-41 | a width is returned iff there is exactly one face; it is positive and is the width of a reported face |
| `RegionDetector.Inside` | blender_head_tracker.py:120 | the negation of the skip test: the eye box lies within the face box, hence is no wider and no taller |
| `RegionDetector.SideOf` | blender_head_tracker.py:122 | the integer test `2x < 2fx + fw` yields Left exactly when the source's `x < fx + fw/2` holds on reals |
| `RegionDetector.LastOnSide` | blender_head_tracker.py:117-125 | the content of one bucket after the loop; a box it returns is an input box that qualifies for that side |
| `RegionDetector.Buckets` | blender_head_tracker.py:108-126 | the pair `eyes_detect` returns: `(None, None)` without exactly one face; each box returned is an input box inside the face on its side |
| `RegionDetector.LastOnSideSpec` | blender_head_tracker.py:119-125 | a bucket is empty iff no eye box qualifies for that side; otherwise it holds a qualifying input box after which no box qualifies (the last one in input order) |
| `RegionDetector.OutsideBoxIgnored` | blender_head_tracker.py:120-121 | an eye box not entirely inside the face changes neither bucket |
| `RegionDetector.BucketsPartition` | blender_head_tracker.py:122-125 | no box qualifies for both sides, and every box inside the face qualifies for one |
| `RegionDetector.EyesDetect` | blender_head_tracker.py:108-126 | the loop's result equals the bucket specification; no eyes without exactly one face; each reported eye is an input box inside the face, left iff its left edge is left of the face midline |
| `GazeFuser.SideRatio` | blender_head_tracker.py:145-147 | one eye's `(px / w, py / h)`: multiplied back by the box width and height it gives the pupil point |
| `GazeFuser.MediantBetween` | blender_head_tracker.py:148 | `(a + c) / (b + d)` lies between `a / b` and `c / d` for positive `b`, `d` |
| `GazeFuser.Mux` | blender_head_tracker.py:143-149 | with one pupil missing, the other side's `(px / w, py / h)`; with both, a horizontal value between the two sides' horizontal ratios |
| `GazeFuser.MuxVerticalIgnoresLeftPupil` | blender_head_tracker.py:149 | with both pupils, the left pupil's y offset does not affect the result |
| `GazeFuser.MuxVerticalEqualHeights` | blender_head_tracker.py:149 | with both pupils and equal eye heights, the vertical value is the right eye's vertical ratio alone |
| `GazeFuser.MuxHorizontalEqualWidths` | blender_head_tracker.py:148 | with both pupils and equal eye widths, the horizontal value is the mean of the two horizontal ratios |
| `GazeFuser.MuxExamples` | blender_head_tracker.py:143-149 | a left pupil (20, 30) in a 40 by 60 box gives (0.5, 0.5), a fraction with no scaling; two eyes with vertical ratios 0.75 and 0.25 fuse to 0.25 |
| `Smoother.Pushed` | blender_head_tracker.py:164-168 | one push: the new sample is last, a window of at most 5 stays at most 5, and a window below capacity only gains the sample at its end |
| `Smoother.Mean` | blender_head_tracker.py:169-170 | the smoothed value times the capacity 5 is the sum of the window; for a full window it is the arithmetic mean |
| `Smoother.SmoothedOffset` | blender_head_tracker.py:169-172 | the returned offset is within 1/2 of `(mean - 0.5) * factor` |
| `Smoother.PushedShape` | blender_head_tracker.py:164-168 | after a push the window has at most 5 samples, the new sample is last, the oldest is dropped iff the window was full, and the rest keep their order |
| `Smoother.WindowHoldsLatest` | blender_head_tracker.py:164-168 | pushing a sequence of samples leaves exactly the last 5 of everything pushed, or all of them while fewer were pushed |
| `Smoother.MeanAfterEviction` | blender_head_tracker.py:164-170 | pushing into a full window moves the mean by (new - evicted) / 5 |
| `Smoother.MeanOfConstant` | blender_head_tracker.py:169-170 | `k` equal samples `v` have sum `k * v` and mean `k * v / 5`: the divisor is the capacity, not the count |
| `Smoother.OffsetBounds` | blender_head_tracker.py:169-172 | with samples in [0, 1], the x offset is within [-8, 8] and the y offset within [-4, 4] |
| `Smoother.StartupBiasLeft` | blender_head_tracker.py:169-172 | with one or two samples in [0, 1], the x offset is negative |
| `Rotate.ScanSample` | blender_head_tracker.py:175-189 | a frame gives no sample iff neither found eye has a pupil; never without exactly one face |
| `Rotate.OrbitFor` | blender_head_tracker.py:212-220 | with a 3D view, an ORBITRIGHT call iff x > 0 and an ORBITLEFT call iff x < 0, passing `efact` (right) or `-efact` (left) as the first positional argument of `view_orbit`; no call at 0 or without a view |
| `Rotate.SteadyGazeKeepsOrbiting` | blender_head_tracker.py:153-159 | a full window of equal samples with a nonzero offset is unchanged by another equal sample, and the orbit is requested again |
| `Rotate.RotateOperator.Valid` | blender_head_tracker.py:100-102 | the object invariant: both buffers of equal length at most 5, and `last_offset == (0, 0)`, because only `__init__` assigns it (line 158 writes `lastoffset`) |
| `Rotate.RotateOperator.constructor` | blender_head_tracker.py:97-102 | a session starts with empty buffers and `last_offset == (0, 0)` |
| `Rotate.RotateOperator.PupilOffset` | blender_head_tracker.py:162-172 | both windows get the push, the invariant (equal lengths, at most 5) holds, and the offsets are the rounded, scaled means of the new windows |
| `Rotate.RotateOperator.Compare` | blender_head_tracker.py:153-159 | `(0, 0)` with a missing value; otherwise the difference from `last_offset`, which equals the sample because `last_offset` is never updated; only `lastoffset` changes |
| `Rotate.RotateOperator.Scan` | blender_head_tracker.py:175-192 | without a pupil the windows are unchanged and no offset is returned; otherwise the fused sample is pushed and the smoothed offsets are returned |
| `Rotate.RotateOperator.Modal` | blender_head_tracker.py:204-223 | a non-R, non-mouse event finishes with no orbit and no state change; otherwise one scan, and the orbit follows the sign of the new smoothed x offset |
| `Zoom.FoundWidths` | blender_head_tracker.py:56-61 | the found widths are positive, there are no more widths than frames, and there are none iff no frame had exactly one face |
| `Zoom.CollectWidths` | blender_head_tracker.py:56-61 | the five-pull loop returns the sum and the number of found widths; the count is 0 iff no frame had exactly one face |
| `Zoom.CycleSize` | blender_head_tracker.py:62-64 | a cycle has no size iff no pulled frame had exactly one face |
| `Zoom.SteadyFaceSize` | blender_head_tracker.py:56-64 | if every found width is `w`, the size is `round(w / 3)` whatever the number of frames that found it |
| `Zoom.DivideTwice` | blender_head_tracker.py:64 | `fsize / cnt / 3` equals `fsize / (3 * cnt)` |
| `Zoom.StepSize` | blender_head_tracker.py:62-72 | no size leaves the baseline and gives no delta; a size always becomes the baseline; a delta is given iff there was a baseline, and it is `(baseline - size) * efact` |
| `Zoom.RunTelescopes` | blender_head_tracker.py:67-72 | over any run of cycles from a baseline `b0`, the deltas add up to `(b0 - final baseline) * efact` |
| `Zoom.ZoomOperator.constructor` | blender_head_tracker.py:27-30 | a session starts with no baseline |
| `Zoom.ZoomOperator.Modal` | blender_head_tracker.py:51-75 | a non-T, non-mouse event clears the baseline and finishes with no delta; otherwise the baseline rule is applied to the cycle's size |

## Left out

- The OpenCV calls (`cvtColor`, `detectMultiScale` with its size and neighbour parameters, `HoughCircles`, and the rounding of the first circle in `pupil_filter`) are foreign library code. Their results are inputs.
- The eye crop `gray[y:y+h, x:x+h]` is numpy pixel slicing and is not modelled. It uses the box height for both sides. Pupils are taken as given for the crop. So the model does not bound a pupil point by its box, and `Smoother.OffsetBounds` and `Smoother.StartupBiasLeft` assume ratios in [0, 1], With square eye boxes this holds for the horizontal ratio. It holds for the vertical ratio only with one pupil or with eye boxes of equal height. With both pupils, `mux` divides twice the right pupil's y by the summed heights, which exceeds 1 when the right box is the taller one and its pupil sits low in it.
- The camera (`cv2.VideoCapture` and the endless `snapshot` generator) is I/O. Each frame pull is an element of a supplied sequence.
- The Blender glue is host code: operator and panel registration, `poll`, `execute`, `invoke`'s search for a 3D view (its outcome is `hasView`), the panel's `draw`, keymaps, and the RNA properties. The range 0..10 of `RNAefact` is not enforced, since `modal` does not check it.
- Viewport mutation is host state. The model returns the `view_orbit` request and the view-distance change instead of applying them. `Zoom.ZoomOperator.Modal` therefore does not model the `AttributeError` raised when `invoke` found no 3D view and `self.rv3d` is `None`.
- Blender stops calling `modal` once it returns `FINISHED`. The model does not enforce that ordering on its callers.
- Floating point is not modelled. Ratios and means are exact reals, and both `round` and `np.round` are exact round-half-to-even, without IEEE-754 representation errors.
- The `print` calls are console output and are left out.
