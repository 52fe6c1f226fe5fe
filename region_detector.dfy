/** Post-processing of the cascade detectors: the single-face gate shared by
    both operators (`face_filter`, `eyes_detect`) and the filtering and
    left/right bucketing of eye boxes in `eyes_detect`. The detectors
    themselves are inputs: each is the sequence of boxes it reported. */
module RegionDetector {
  import opened Common

  datatype Side = Left | Right

  /** The face box, when the detector reported exactly one candidate. */
  function SingleFace(faces: seq<Box>): (r: Option<Box>)
    ensures r.Some? <==> |faces| == 1
    ensures r.Some? ==> r.value in faces
  {
    if |faces| != 1 then None else Some(faces[0])
  }

  /** `face_filter`: the face width, but only for an unambiguous face. */
  function FaceFilter(faces: seq<Box>): (r: Option<int>)
    ensures r.Some? <==> |faces| == 1
    ensures r.Some? ==> r.value > 0 && exists f :: f in faces && f.w == r.value
  {
    match SingleFace(faces)
    case None => None
    case Some(f) => Some(f.w)
  }

  /** The eye box lies entirely within the face box: the test of the loop of
      `eyes_detect` that does not skip it. */
  predicate Inside(eye: Box, face: Box): (r: bool)
    ensures r ==> eye.w <= face.w && eye.h <= face.h
  {
    face.x <= eye.x && eye.x + eye.w <= face.x + face.w &&
    face.y <= eye.y && eye.y + eye.h <= face.y + face.h
  }

  /** Which half of the face the eye box's LEFT EDGE falls in:
      `x < fx + fw/2`, with both sides doubled to stay in integers. */
  function SideOf(eye: Box, face: Box): (s: Side)
    ensures s == Left <==> (eye.x as real) < face.x as real + face.w as real / 2.0
  {
    if 2 * eye.x < 2 * face.x + face.w then Left else Right
  }

  /** An eye box that the loop of `eyes_detect` stores in the `side` bucket. */
  predicate Qualifies(eye: Box, face: Box, side: Side) {
    Inside(eye, face) && SideOf(eye, face) == side
  }

  /** The bucket's content after the loop: the last qualifying box, if any. */
  function LastOnSide(eyes: seq<Box>, face: Box, side: Side): (r: Option<Box>)
    ensures r.Some? ==> r.value in eyes && Qualifies(r.value, face, side)
    decreases |eyes|
  {
    if |eyes| == 0 then None
    else if Qualifies(eyes[|eyes| - 1], face, side) then Some(eyes[|eyes| - 1])
    else LastOnSide(eyes[..|eyes| - 1], face, side)
  }

  /** The buckets `(left, right)` that `eyes_detect` returns. */
  function Buckets(faces: seq<Box>, eyes: seq<Box>): (r: (Option<Box>, Option<Box>))
    ensures |faces| != 1 ==> r == (None, None)
    ensures r.0.Some? ==> r.0.value in eyes && Qualifies(r.0.value, faces[0], Left)
    ensures r.1.Some? ==> r.1.value in eyes && Qualifies(r.1.value, faces[0], Right)
  {
    match SingleFace(faces)
    case None => (None, None)
    case Some(face) => (LastOnSide(eyes, face, Left), LastOnSide(eyes, face, Right))
  }

  /** A bucket is empty exactly when no box qualifies for it; otherwise it
      holds a qualifying box of the input and no later box qualifies. */
  lemma {:induction false} LastOnSideSpec(eyes: seq<Box>, face: Box, side: Side)
    ensures LastOnSide(eyes, face, side).None? <==>
              forall i :: 0 <= i < |eyes| ==> !Qualifies(eyes[i], face, side)
    ensures LastOnSide(eyes, face, side).Some? ==>
              exists i :: 0 <= i < |eyes| && eyes[i] == LastOnSide(eyes, face, side).value &&
                Qualifies(eyes[i], face, side) &&
                forall j :: i < j < |eyes| ==> !Qualifies(eyes[j], face, side)
    decreases |eyes|
  {
    if |eyes| > 0 {
      var n := |eyes| - 1;
      var init := eyes[..n];
      if !Qualifies(eyes[n], face, side) {
        LastOnSideSpec(init, face, side);
        assert forall i :: 0 <= i < n ==> init[i] == eyes[i];
        if LastOnSide(init, face, side).Some? {
          var i :| 0 <= i < n && init[i] == LastOnSide(init, face, side).value &&
                   Qualifies(init[i], face, side) &&
                   forall j :: i < j < n ==> !Qualifies(init[j], face, side);
          assert eyes[i] == LastOnSide(eyes, face, side).value;
        }
      }
    }
  }

  /** A box that is not entirely inside the face is skipped: it changes neither bucket. */
  lemma OutsideBoxIgnored(eyes: seq<Box>, b: Box, face: Box, side: Side)
    requires !Inside(b, face)
    ensures LastOnSide(eyes + [b], face, side) == LastOnSide(eyes, face, side)
  {
  }

  /** No box goes into both buckets, and every inside box goes into one. */
  lemma BucketsPartition(eye: Box, face: Box)
    ensures !(Qualifies(eye, face, Left) && Qualifies(eye, face, Right))
    ensures Inside(eye, face) ==> Qualifies(eye, face, Left) || Qualifies(eye, face, Right)
  {
  }

  /** `eyes_detect` on the detector outputs of one frame: with exactly one face,
      scan the eye boxes in order, skip those not inside the face, and let each
      kept box overwrite the bucket of its side. */
  method EyesDetect(faces: seq<Box>, eyes: seq<Box>) returns (left: Option<Box>, right: Option<Box>)
    ensures (left, right) == Buckets(faces, eyes)
    ensures |faces| != 1 ==> left.None? && right.None?
    ensures left.Some? ==> left.value in eyes && Qualifies(left.value, faces[0], Left)
    ensures right.Some? ==> right.value in eyes && Qualifies(right.value, faces[0], Right)
  {
    left, right := None, None;
    if |faces| != 1 {
      return;
    }
    var face := faces[0];
    var i := 0;
    while i < |eyes|
      invariant 0 <= i <= |eyes|
      invariant left == LastOnSide(eyes[..i], face, Left)
      invariant right == LastOnSide(eyes[..i], face, Right)
      invariant left.Some? ==> left.value in eyes && Qualifies(left.value, face, Left)
      invariant right.Some? ==> right.value in eyes && Qualifies(right.value, face, Right)
    {
      var b := eyes[i];
      assert eyes[..i + 1][..i] == eyes[..i];
      if b.x < face.x || b.x + b.w > face.x + face.w || b.y < face.y || b.y + b.h > face.y + face.h {
        i := i + 1;
        continue;
      }
      if 2 * b.x < 2 * face.x + face.w {
        left := Some(b);
      } else {
        right := Some(b);
      }
      i := i + 1;
    }
    assert eyes[..i] == eyes;
  }
}
