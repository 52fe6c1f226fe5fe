/** Values shared by every stage of the head tracker: optional results,
    detector rectangles and pupil points. */
module Common {

  /** Python's `None` or a value. */
  datatype Option<+T> = None | Some(value: T)

  /** An (x, y, w, h) rectangle as a cascade detector reports it. */
  datatype Rect = Rect(x: int, y: int, w: int, h: int)

  /** A detector box: the cascade classifiers never report an empty rectangle. */
  type Box = r: Rect | r.w > 0 && r.h > 0 witness Rect(0, 0, 1, 1)

  /** A pupil centre, in pixels, relative to the origin of its eye crop. */
  datatype Point = Point(x: int, y: int)
}
