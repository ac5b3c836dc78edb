/** The bookkeeping of `AutoKalmanTracker` in main.py.

    Background subtraction, the morphological opening and the contour search
    are OpenCV calls: their result enters as the list of foreground blobs.
    The Kalman filter is an opaque estimator: the integer positions of its
    prediction and of its correction for this frame enter as parameters. */
module Tracker {
  import opened Common

  /** One external foreground contour: its area and its bounding box. */
  datatype Blob = Blob(area: real, box: Box)

  /** A measured position; the centre of a box can fall on half pixels. */
  datatype Position = Position(x: real, y: real)

  /** A blob must be larger than this to count as a measurement. */
  const MinBlobArea: real := 3000.0

  /** Python's `max(contours, key=cv2.contourArea)`: the index of the first
      blob of greatest area. */
  function ArgMax(blobs: seq<Blob>): (k: nat)
    requires |blobs| > 0
    ensures k < |blobs|
    ensures forall j :: 0 <= j < |blobs| ==> blobs[j].area <= blobs[k].area
    ensures forall j :: 0 <= j < k ==> blobs[j].area < blobs[k].area
  {
    if |blobs| == 1 then 0
    else
      var k := ArgMax(blobs[..|blobs| - 1]);
      if blobs[|blobs| - 1].area > blobs[k].area then |blobs| - 1 else k
  }

  /** The box measured this frame, if any: that of the largest blob, when
      its area exceeds 3000. A frame yields a measurement exactly when some
      blob exceeds the threshold, and the box is then that of a blob no
      other blob is larger than. */
  function Measurement(blobs: seq<Blob>): (r: Option<Box>)
    ensures r.Some? ==> exists j :: 0 <= j < |blobs| && blobs[j].area > MinBlobArea && r.value == blobs[j].box &&
                          forall k :: 0 <= k < |blobs| ==> blobs[k].area <= blobs[j].area
    ensures r.None? ==> forall j :: 0 <= j < |blobs| ==> blobs[j].area <= MinBlobArea
  {
    if |blobs| == 0 then None
    else
      var k := ArgMax(blobs);
      if blobs[k].area > MinBlobArea then Some(blobs[k].box) else None
  }

  /** The centre of a bounding box, `(x + w/2, y + h/2)`: as far from the
      left edge as from the right one, and from the top as from the bottom. */
  function Center(b: Box): (c: Position)
    ensures c.x - b.x as real == (b.x + b.w) as real - c.x
    ensures c.y - b.y as real == (b.y + b.h) as real - c.y
  {
    Position(b.x as real + (b.w as real) / 2.0, b.y as real + (b.h as real) / 2.0)
  }

  /** The fields of a tracker as a value. */
  datatype TrackerView = TrackerView(firstDetection: bool, initialPos: Option<Position>, bestW: int, bestH: int)

  /** The initial position is recorded exactly when the first detection
      has happened. */
  predicate ViewValid(v: TrackerView)
  {
    v.firstDetection <==> v.initialPos.None?
  }

  /** A tracker as `__init__` leaves it. */
  const FreshView: TrackerView := TrackerView(true, None, 100, 100)

  /** The fields after one `update` with this frame's blobs. */
  function NextView(v: TrackerView, blobs: seq<Blob>): (r: TrackerView)
    requires ViewValid(v)
    ensures ViewValid(r)
    ensures Measurement(blobs).None? ==> r == v
    ensures Measurement(blobs).Some? ==>
      && r.bestW == Measurement(blobs).value.w && r.bestH == Measurement(blobs).value.h
      && !r.firstDetection
    ensures v.initialPos.Some? ==> r.initialPos == v.initialPos
    ensures v.firstDetection && Measurement(blobs).Some? ==> r.initialPos == Some(Center(Measurement(blobs).value))
    ensures !v.firstDetection ==> !r.firstDetection
  {
    match Measurement(blobs)
    case None => v
    case Some(b) => TrackerView(false, if v.firstDetection then Some(Center(b)) else v.initialPos, b.w, b.h)
  }

  class AutoKalmanTracker {
    var firstDetection: bool
    var initialPos: Option<Position>
    var bestW: int
    var bestH: int

    function View(): TrackerView
      reads this
    {
      TrackerView(firstDetection, initialPos, bestW, bestH)
    }

    ghost predicate Valid()
      reads this
    {
      ViewValid(View())
    }

    /** `not self.first_detection`: the flag `update` reports. */
    predicate Active()
      reads this
    {
      !firstDetection
    }

    constructor ()
      ensures Valid() && !Active() && View() == FreshView
      ensures firstDetection && initialPos == None
      ensures bestW == 100 && bestH == 100
    {
      firstDetection := true;
      initialPos := None;
      bestW := 100;
      bestH := 100;
    }

    /** One call of `update`. `predicted` and `corrected` are the integer
        parts of the estimator's prediction and of its correction with this
        frame's measurement. */
    method Update(blobs: seq<Blob>, predicted: Point, corrected: Point)
        returns (pos: Point, w: int, h: int, active: bool)
      requires Valid()
      modifies this
      ensures Valid()
      ensures View() == NextView(old(View()), blobs)
      ensures Measurement(blobs).Some? ==>
        && bestW == Measurement(blobs).value.w && bestH == Measurement(blobs).value.h
        && pos == corrected
        && initialPos == (if old(initialPos).None? then Some(Center(Measurement(blobs).value)) else old(initialPos))
      ensures Measurement(blobs).None? ==>
        && bestW == old(bestW) && bestH == old(bestH)
        && pos == predicted
        && initialPos == old(initialPos)
      ensures old(initialPos).Some? ==> initialPos == old(initialPos)
      ensures old(Active()) ==> Active()
      ensures Active() <==> old(Active()) || Measurement(blobs).Some?
      ensures active == Active() && w == bestW && h == bestH
    {
      var measurement: Option<Position> := None;
      if |blobs| > 0 {
        var maxC := blobs[ArgMax(blobs)];
        if maxC.area > MinBlobArea {
          bestW := maxC.box.w;
          bestH := maxC.box.h;
          measurement := Some(Center(maxC.box));
        }
      }
      if measurement.Some? {
        if firstDetection {
          initialPos := measurement;
          firstDetection := false;
        }
        pos := corrected;
      } else {
        pos := predicted;
      }
      return pos, bestW, bestH, !firstDetection;
    }
  }
}
