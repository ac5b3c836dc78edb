/** Single-frame shape classification (`detect_pattern` in main.py).

    The OpenCV geometry of each contour (area, bounding box, polygon
    approximation, convexity, circularity and convexity defects) is given as
    input; what is modelled is the screening, the label decision tree and the
    running maximum that picks the largest contour. */
module Shapes {
  import opened Common

  /** The labels the classifier can produce. `NumVert(n)` is the fallback
      label, printed as "num_vert_<n>". */
  datatype Label = Circulo | Flecha | Cuadrado | Montana | Pico | NumVert(n: nat)

  /** The OpenCV results for one contour.
      - `area`: `cv2.contourArea`;
      - `box`: `cv2.boundingRect`;
      - `approx`: the polygon of `cv2.approxPolyDP` (its length is the vertex count);
      - `isConvex`: `cv2.isContourConvex(approx)`;
      - `circular`: the perimeter is positive and `4*pi*area/perimeter^2 > 0.7`;
      - `defects`: the depth field of each row of `cv2.convexityDefects`,
        or `None` when OpenCV reports no defects or raises `cv2.error`. */
  datatype Contour = Contour(
    area: real,
    box: Box,
    approx: seq<Point>,
    isConvex: bool,
    circular: bool,
    defects: Option<seq<int>>)

  /** What `detect_pattern` returns when some contour survives: the label,
      the approximated polygon, and `index`, the position of the kept
      contour in the list of contours. */
  datatype Detection = Detection(pattern: Label, approx: seq<Point>, index: nat)

  function Digit(d: nat): (c: char)
    requires d < 10
    ensures '0' <= c <= '9'
  {
    (48 + d) as char
  }

  /** Decimal rendering of a natural number, as Python's f-string prints it. */
  function NatToString(n: nat): (s: string)
    ensures |s| >= 1
    ensures (|s| == 1) == (n < 10)
    ensures forall k :: 0 <= k < |s| ==> '0' <= s[k] <= '9'
    decreases n
  {
    if n < 10 then [Digit(n)] else NatToString(n / 10) + [Digit(n % 10)]
  }

  lemma {:induction false} NatToStringInjective(a: nat, b: nat)
    requires NatToString(a) == NatToString(b)
    ensures a == b
    decreases a
  {
    if a >= 10 && b >= 10 {
      var sa, sb := NatToString(a / 10), NatToString(b / 10);
      assert NatToString(a) == sa + [Digit(a % 10)];
      assert NatToString(b) == sb + [Digit(b % 10)];
      assert |sa| == |sb|;
      assert sa == NatToString(a)[..|sa|];
      assert sb == NatToString(b)[..|sb|];
      NatToStringInjective(a / 10, b / 10);
      assert Digit(a % 10) == NatToString(a)[|sa|] == Digit(b % 10);
    }
  }

  /** The label string that main.py stores in `pattern_label`. Every
      string is non-empty, so the truth test `pattern_label and ...` never
      rejects a label: fallback labels take part in the selection. Only the
      fallback strings start with a lower-case `n`. */
  function LabelName(l: Label): (r: string)
    ensures |r| > 0
    ensures r[0] == 'n' <==> l.NumVert?
  {
    match l
    case Circulo => "CIRCULO"
    case Flecha => "FLECHA"
    case Cuadrado => "CUADRADO"
    case Montana => "MONTANA"
    case Pico => "PICO"
    case NumVert(n) => "num_vert_" + NatToString(n)
  }

  /** Distinct labels have distinct strings, so comparing labels (as the
      state machine does) is the same as comparing the strings. */
  lemma LabelNameInjective(a: Label, b: Label)
    requires LabelName(a) == LabelName(b)
    ensures a == b
  {
    if a.NumVert? && b.NumVert? {
      var pre := "num_vert_";
      assert LabelName(a)[|pre|..] == NatToString(a.n);
      assert LabelName(b)[|pre|..] == NatToString(b.n);
      NatToStringInjective(a.n, b.n);
    }
  }

  /** The area screen: strictly between 2% and 80% of the image area. */
  predicate AreaInRange(c: Contour, width: nat, height: nat)
    ensures AreaInRange(c, width, height) ==> 0.0 < c.area < (height * width) as real
  {
    0.02 * ((height * width) as real) < c.area < 0.8 * ((height * width) as real)
  }

  /** The border screen: the bounding box keeps a 2-pixel margin inside the image. */
  predicate InsideBorder(c: Contour, width: nat, height: nat)
    ensures InsideBorder(c, width, height) ==>
      && 0 < c.box.x && c.box.x + c.box.w < width
      && 0 < c.box.y && c.box.y + c.box.h < height
      && c.box.w <= width - 4 && c.box.h <= height - 4
  {
    c.box.x >= 2 && c.box.y >= 2 && c.box.x + c.box.w <= width - 2 && c.box.y + c.box.h <= height - 2
  }

  /** A contour is classified only when it passes both screens. */
  predicate Survives(c: Contour, width: nat, height: nat)
    ensures Survives(c, width, height) ==> c.area > 0.0 && width > 0 && height > 0
  {
    AreaInRange(c, width, height) && InsideBorder(c, width, height)
  }

  /** A defect counts when its depth exceeds `20 * max(w, h)`. */
  function DefectLimit(b: Box): int
  {
    Max(b.w, b.h) * 20
  }

  /** The number of depths in `depths` that exceed `limit`. */
  function DeepCount(depths: seq<int>, limit: int): (n: nat)
    ensures n <= |depths|
    ensures n == 0 <==> forall k :: 0 <= k < |depths| ==> depths[k] <= limit
  {
    if depths == [] then 0
    else DeepCount(depths[..|depths| - 1], limit) + (if depths[|depths| - 1] > limit then 1 else 0)
  }

  /** The defect count that the decision tree sees: no defects at all when
      OpenCV returned none or raised an error. */
  function DeepDefects(c: Contour): (n: nat)
    ensures c.defects.None? ==> n == 0
    ensures c.defects.Some? ==>
      && n <= |c.defects.value|
      && (n == 0 <==> forall k :: 0 <= k < |c.defects.value| ==> c.defects.value[k] <= DefectLimit(c.box))
  {
    match c.defects
    case None => 0
    case Some(ds) => DeepCount(ds, DefectLimit(c.box))
  }

  /** The counting loop of main.py over the rows of `defects`. */
  method CountDeepDefects(depths: seq<int>, limit: int) returns (count: nat)
    ensures count == DeepCount(depths, limit)
  {
    count := 0;
    var j := 0;
    while j < |depths|
      invariant 0 <= j <= |depths|
      invariant count == DeepCount(depths[..j], limit)
    {
      assert depths[..j + 1][..j] == depths[..j];
      if depths[j] > limit {
        count := count + 1;
      }
      j := j + 1;
    }
    assert depths[..j] == depths;
  }

  /** The decision tree over a contour's vertex count, convexity,
      circularity and deep-defect count. Each recognised label has exactly
      one rule; every other combination falls back to `NumVert(vertices)`. */
  function LabelFor(vertices: nat, isConvex: bool, circular: bool, defectCount: nat): (l: Label)
    ensures l == Circulo <==> vertices > 7 && isConvex && circular
    ensures l == Flecha <==> vertices == 4 && !isConvex
    ensures l == Cuadrado <==> vertices == 4 && isConvex
    ensures l == Montana <==> vertices == 5 && !isConvex && defectCount == 1
    ensures l == Pico <==> vertices == 5 && !isConvex && defectCount == 2
    ensures l.NumVert? ==> l.n == vertices
  {
    if vertices > 7 && isConvex then
      (if circular then Circulo else NumVert(vertices))
    else if vertices == 4 && !isConvex then Flecha
    else if vertices == 5 && !isConvex then
      (if defectCount == 1 then Montana else if defectCount == 2 then Pico else NumVert(5))
    else if vertices == 4 && isConvex then Cuadrado
    else NumVert(vertices)
  }

  /** The label main.py gives one contour. MONTANA and PICO need a
      defect computation that succeeded; a fallback label carries the
      contour's vertex count. */
  function Classify(c: Contour): (l: Label)
    ensures l == Montana || l == Pico ==> c.defects.Some? && |c.approx| == 5 && !c.isConvex
    ensures l == Circulo ==> c.circular && c.isConvex && |c.approx| > 7
    ensures l.NumVert? ==> l.n == |c.approx|
  {
    LabelFor(|c.approx|, c.isConvex, c.circular, DeepDefects(c))
  }

  /** Four-vertex polygons are arrows when non-convex and squares when
      convex: the two labels are exclusive and cover all 4-vertex inputs. */
  lemma FourVerticesArrowOrSquare(c: Contour)
    requires |c.approx| == 4
    ensures Classify(c) == Flecha || Classify(c) == Cuadrado
    ensures Classify(c) == Flecha <==> !c.isConvex
  {
  }

  /** A failed defect computation counts as no defect: a 5-vertex non-convex
      contour then keeps its fallback label instead of aborting the frame. */
  lemma DefectErrorFallsBack(c: Contour)
    requires |c.approx| == 5 && !c.isConvex && c.defects.None?
    ensures Classify(c) == NumVert(5)
  {
  }

  /** `index` is the contour `detect_pattern` keeps: it survives the screens,
      no surviving contour is larger, and every earlier surviving contour is
      strictly smaller (ties go to the earlier contour). */
  predicate IsBest(contours: seq<Contour>, width: nat, height: nat, index: nat)
  {
    && index < |contours|
    && Survives(contours[index], width, height)
    && (forall k :: 0 <= k < |contours| && Survives(contours[k], width, height) ==>
          contours[k].area <= contours[index].area)
    && (forall k :: 0 <= k < index && Survives(contours[k], width, height) ==>
          contours[k].area < contours[index].area)
  }

  /** Two indices that both satisfy `IsBest` are the same one: the choice is
      determined by the contours. */
  lemma BestIsUnique(contours: seq<Contour>, width: nat, height: nat, i: nat, j: nat)
    requires IsBest(contours, width, height, i) && IsBest(contours, width, height, j)
    ensures i == j
  {
  }

  /** The label of the contour `detect_pattern` keeps, if any. */
  ghost function PatternOf(contours: seq<Contour>, width: nat, height: nat): Option<Label>
  {
    if exists k: nat :: IsBest(contours, width, height, k) then
      var k: nat :| IsBest(contours, width, height, k);
      Some(Classify(contours[k]))
    else None
  }

  /** When `index` is the kept contour, `PatternOf` is its label. */
  lemma PatternOfBest(contours: seq<Contour>, width: nat, height: nat, index: nat)
    requires IsBest(contours, width, height, index)
    ensures PatternOf(contours, width, height) == Some(Classify(contours[index]))
  {
    var k: nat :| IsBest(contours, width, height, k);
    BestIsUnique(contours, width, height, k, index);
  }

  /** `detect_pattern`: screen every contour, label the survivors and keep
      the one with the strictly greatest area seen so far. */
  method DetectPattern(contours: seq<Contour>, width: nat, height: nat) returns (r: Option<Detection>)
    ensures r.None? <==> forall k :: 0 <= k < |contours| ==> !Survives(contours[k], width, height)
    ensures r.Some? ==>
      && IsBest(contours, width, height, r.value.index)
      && r.value.pattern == Classify(contours[r.value.index])
      && r.value.approx == contours[r.value.index].approx
    ensures PatternOf(contours, width, height) == (if r.Some? then Some(r.value.pattern) else None)
  {
    var maxArea := 0.0;
    r := None;
    var minTotalArea := ((height * width) as real) * 0.02;
    var maxTotalArea := ((height * width) as real) * 0.8;
    for i := 0 to |contours|
      invariant r.None? ==> maxArea == 0.0
      invariant r.None? <==> forall k :: 0 <= k < i ==> !Survives(contours[k], width, height)
      invariant r.Some? ==>
        && r.value.index < i
        && Survives(contours[r.value.index], width, height)
        && r.value.pattern == Classify(contours[r.value.index])
        && r.value.approx == contours[r.value.index].approx
        && maxArea == contours[r.value.index].area
        && (forall k :: 0 <= k < i && Survives(contours[k], width, height) ==> contours[k].area <= maxArea)
        && (forall k :: 0 <= k < r.value.index && Survives(contours[k], width, height) ==>
              contours[k].area < maxArea)
    {
      var c := contours[i];
      if minTotalArea < c.area < maxTotalArea {
        var b := c.box;
        if b.x < 2 || b.y < 2 || b.x + b.w > width - 2 || b.y + b.h > height - 2 {
          continue;
        }
        var numVert := |c.approx|;
        var defectCount := 0;
        if numVert == 5 && !c.isConvex {
          match c.defects {
            case None =>
            case Some(ds) =>
              defectCount := CountDeepDefects(ds, Max(b.w, b.h) * 20);
          }
        }
        var patternLabel := LabelFor(numVert, c.isConvex, c.circular, defectCount);
        if |LabelName(patternLabel)| > 0 && c.area > maxArea {
          maxArea := c.area;
          r := Some(Detection(patternLabel, c.approx, i));
        }
      }
    }
    if r.Some? {
      PatternOfBest(contours, width, height, r.value.index);
    }
  }
}
