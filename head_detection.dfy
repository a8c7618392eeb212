/**
 * The integer geometry of drone_backend/src/cv/head_detection.py: the 3x3
 * grid classifier `drone_directions` (returning the direction it prints)
 * and the square-crop arithmetic of the detection loop. Frame sizes are
 * natural numbers, so Python's floor division `//` and Dafny's `/` agree.
 */
module HeadDetection {
  import opened Wrappers

  datatype GridDirection =
    | UpAndLeft | Up | UpAndRight
    | Left | Center | Right
    | DownAndLeft | Down | DownAndRight

  /** Where a coordinate falls against the two grid lines of its axis. */
  datatype Band = Before | Between | After

  /** The first grid line of an axis of the given size. */
  function FirstLine(size: nat): nat
  {
    size / 3
  }

  /** The second grid line, as drone_directions computes it. */
  function SecondLine(size: nat): (l: nat)
    ensures FirstLine(size) <= l <= size
  {
    (size / 3) * 2
  }

  /**
   * drone_directions as written: the nine branches in source order; a point
   * that satisfies none of them prints nothing.
   */
  function DroneDirections(x: int, y: int, width: nat, height: nat): (r: Option<GridDirection>)
    ensures r == Cell(AxisBand(x, width), AxisBand(y, height))
    ensures r.None? <==> OnGridLine(x, width) || OnGridLine(y, height)
  {
    var w3 := width / 3;
    var h3 := height / 3;
    if x < w3 && y < h3 then Some(UpAndLeft)
    else if x > w3 && x < w3 * 2 && y < h3 then Some(Up)
    else if x > w3 * 2 && y < h3 then Some(UpAndRight)
    else if x < w3 && y > h3 && y < h3 * 2 then Some(Left)
    else if x > w3 && x < w3 * 2 && y > h3 && y < h3 * 2 then Some(Center)
    else if x > w3 * 2 && y > h3 && y < h3 * 2 then Some(Right)
    else if x < w3 && y > h3 * 2 then Some(DownAndLeft)
    else if x > w3 && x < w3 * 2 && y > h3 * 2 then Some(Down)
    else if x > w3 * 2 && y > h3 * 2 then Some(DownAndRight)
    else None
  }

  /** A coordinate exactly on one of its axis's grid lines. */
  predicate OnGridLine(v: int, size: nat)
  {
    v == FirstLine(size) || v == SecondLine(size)
  }

  /**
   * The open band of one axis a coordinate lies in, independently of the
   * other axis; None on a grid line.
   */
  function AxisBand(v: int, size: nat): (b: Option<Band>)
    ensures b.None? <==> OnGridLine(v, size)
    ensures b == Some(Before) <==> v < FirstLine(size)
    ensures b == Some(Between) <==> FirstLine(size) < v < SecondLine(size)
    ensures b == Some(After) <==> v > SecondLine(size)
  {
    if v < FirstLine(size) then Some(Before)
    else if FirstLine(size) < v < SecondLine(size) then Some(Between)
    else if v > SecondLine(size) then Some(After)
    else None
  }

  /** The label of a cell, horizontal band first and vertical band second. */
  function Cell(horizontal: Option<Band>, vertical: Option<Band>): Option<GridDirection>
  {
    match (horizontal, vertical)
    case (Some(h), Some(v)) => Some(Label(h, v))
    case _ => None
  }

  function Label(horizontal: Band, vertical: Band): GridDirection
  {
    match (vertical, horizontal)
    case (Before, Before) => UpAndLeft
    case (Before, Between) => Up
    case (Before, After) => UpAndRight
    case (Between, Before) => Left
    case (Between, Between) => Center
    case (Between, After) => Right
    case (After, Before) => DownAndLeft
    case (After, Between) => Down
    case (After, After) => DownAndRight
  }

  /** Distinct cells carry distinct labels: a label names exactly one cell. */
  lemma LabelInjective(h1: Band, v1: Band, h2: Band, v2: Band)
    requires Label(h1, v1) == Label(h2, v2)
    ensures h1 == h2 && v1 == v2
  {
  }

  /** The nine guards of drone_directions, in source order. */
  function Guards(x: int, y: int, width: nat, height: nat): (g: seq<bool>)
    ensures |g| == 9
  {
    var w3 := width / 3;
    var h3 := height / 3;
    [ x < w3 && y < h3,
      x > w3 && x < w3 * 2 && y < h3,
      x > w3 * 2 && y < h3,
      x < w3 && y > h3 && y < h3 * 2,
      x > w3 && x < w3 * 2 && y > h3 && y < h3 * 2,
      x > w3 * 2 && y > h3 && y < h3 * 2,
      x < w3 && y > h3 * 2,
      x > w3 && x < w3 * 2 && y > h3 * 2,
      x > w3 * 2 && y > h3 * 2 ]
  }

  /** The labels drone_directions prints, in the order of its branches. */
  const SourceOrder: seq<GridDirection> :=
    [UpAndLeft, Up, UpAndRight, Left, Center, Right, DownAndLeft, Down, DownAndRight]

  /** Each guard holds exactly when drone_directions reports that branch's label. */
  lemma GuardsMatchDirections(x: int, y: int, width: nat, height: nat, i: nat)
    requires i < 9
    ensures Guards(x, y, width, height)[i] <==> DroneDirections(x, y, width, height) == Some(SourceOrder[i])
  {
  }

  /**
   * At most one guard holds for any point, so the order of the elif chain
   * never decides a label.
   */
  lemma GuardsExclusive(x: int, y: int, width: nat, height: nat, i: nat, j: nat)
    requires i < j < 9
    ensures !(Guards(x, y, width, height)[i] && Guards(x, y, width, height)[j])
  {
  }

  /** The corner cells of the frame. */
  lemma CornerDirections(x: int, y: int, width: nat, height: nat)
    ensures x < width / 3 && y < height / 3 ==> DroneDirections(x, y, width, height) == Some(UpAndLeft)
    ensures x > 2 * (width / 3) && y > 2 * (height / 3) ==>
              DroneDirections(x, y, width, height) == Some(DownAndRight)
  {
  }

  /** A point strictly inside the middle third of both axes is centred. */
  lemma CenterDirection(x: int, y: int, width: nat, height: nat)
    requires width / 3 < x < 2 * (width / 3) && height / 3 < y < 2 * (height / 3)
    ensures DroneDirections(x, y, width, height) == Some(Center)
  {
  }

  /** A pixel on the first vertical grid line of a 640x480 frame gets no direction. */
  lemma BoundaryPixelHasNoDirection()
    ensures DroneDirections(213, 100, 640, 480) == None
    ensures DroneDirections(100, 160, 640, 480) == None
  {
  }

  /**
   * The band of one axis with every coordinate placed: grid lines belong to
   * the band that starts at them.
   */
  function ClosedBand(v: int, size: nat): (b: Band)
    ensures AxisBand(v, size).Some? ==> b == AxisBand(v, size).value
  {
    if v < FirstLine(size) then Before
    else if v < SecondLine(size) then Between
    else After
  }

  /** The classifier with the boundary gap closed: every point gets a direction. */
  function CorrectedDirections(x: int, y: int, width: nat, height: nat): (d: GridDirection)
    ensures d == Label(ClosedBand(x, width), ClosedBand(y, height))
  {
    var w3 := width / 3;
    var h3 := height / 3;
    var column := if x < w3 then 0 else if x < w3 * 2 then 1 else 2;
    var row := if y < h3 then 0 else if y < h3 * 2 then 1 else 2;
    [ [UpAndLeft, Up, UpAndRight],
      [Left, Center, Right],
      [DownAndLeft, Down, DownAndRight] ][row][column]
  }

  /** Wherever the original reports a direction, the corrected classifier reports the same one. */
  lemma CorrectedAgreesOffGridLines(x: int, y: int, width: nat, height: nat)
    requires DroneDirections(x, y, width, height).Some?
    ensures CorrectedDirections(x, y, width, height) == DroneDirections(x, y, width, height).value
  {
  }

  /** The corrected classifier places the boundary pixels the original drops. */
  lemma CorrectedCoversBoundary(width: nat, height: nat)
    requires width >= 3 && height >= 3
    ensures CorrectedDirections(width / 3, height / 3, width, height) == Center
    ensures CorrectedDirections(2 * (width / 3), 0, width, height) == UpAndRight
  {
  }

  // ---- the square crop of the detection loop -------------------------

  /** The crop window: columns [left, right) around the frame centre, radius h // 2. */
  datatype Crop = Crop(left: int, right: int)

  function SquareCrop(width: nat, height: nat): (c: Crop)
    ensures c.right - c.left == 2 * (height / 2)
    ensures c.left + c.right == 2 * (width / 2)
  {
    var xCenter := width / 2;
    var radius := height / 2;
    Crop(xCenter - radius, xCenter + radius)
  }

  /**
   * The length of the slice [start:stop] of a Python sequence of length n:
   * a negative bound counts from the end, and both are clamped to [0, n].
   */
  function SliceLength(n: nat, start: int, stop: int): (len: nat)
    ensures len <= n
    ensures 0 <= start <= stop <= n ==> len == stop - start
  {
    var s := Normalize(n, start);
    var e := Normalize(n, stop);
    if e > s then e - s else 0
  }

  function Normalize(n: nat, bound: int): (b: nat)
    ensures b <= n
    ensures 0 <= bound <= n ==> b == bound
  {
    if bound < 0 then (if bound + n < 0 then 0 else bound + n)
    else if bound > n then n
    else bound
  }

  /** new_w, the width of the cropped frame. */
  function CroppedWidth(width: nat, height: nat): (w: nat)
    ensures w <= width
    ensures height <= width ==> w == 2 * (height / 2)
  {
    var c := SquareCrop(width, height);
    SliceLength(width, c.left, c.right)
  }

  /** A portrait frame's crop starts at a negative column, which Python counts from the end. */
  lemma PortraitCropWraps()
    ensures SquareCrop(480, 640).left == -80
    ensures CroppedWidth(480, 640) == 80
  {
  }

  /** The head centre, the floor of the midpoint of its bounding box. */
  function HeadCenter(low: int, high: int): (c: int)
    requires low <= high
    ensures low <= c <= high
    ensures 2 * c == low + high || 2 * c == low + high - 1
  {
    (low + high) / 2
  }

  /** x_head_in_square: a frame column shifted to the crop's coordinates. */
  function ToSquare(x: int, width: nat, height: nat): (sx: int)
    ensures sx == x - SquareCrop(width, height).left
    ensures height <= width ==> (0 <= sx < CroppedWidth(width, height) <==>
                                 SquareCrop(width, height).left <= x < SquareCrop(width, height).right)
  {
    x - (width / 2 - height / 2)
  }

  /**
   * The drawn grid lines use int(new_w/3) and int(new_w*2/3), the classifier
   * new_w // 3 and (new_w // 3) * 2: the first lines always coincide, the
   * second ones exactly when new_w mod 3 is not 2.
   */
  lemma DrawnGridMatchesClassifier(size: nat)
    ensures size / 3 == FirstLine(size)
    ensures (2 * size) / 3 == SecondLine(size) <==> size % 3 != 2
  {
    var q := size / 3;
    var m := size % 3;
    assert size == 3 * q + m;
    assert 2 * size == 3 * (2 * q) + 2 * m;
    if m == 2 {
      assert (2 * size) / 3 == 2 * q + 1;
    } else {
      assert (2 * size) / 3 == 2 * q;
    }
  }
}
