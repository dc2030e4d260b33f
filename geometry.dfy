/**
 * The geometry of the crop rectangle in index.ts: the pointer zones of the
 * `MousePosition` enum, the classifier `getMousePosition`, the clamped edge
 * updates of a drag, the `canResize` guard of a whole-rectangle move and the
 * cursor hint of each zone. Pixel values are unbounded integers.
 */
module Geometry {

  /** Where a pointer lies relative to the crop rectangle (`MousePosition`). */
  datatype Zone =
    | Top | Left | Bottom | Right
    | TopLeft | TopRight | BottomLeft | BottomRight
    | Middle | Outside
  {
    /** The four zones that `canResize` accepts and that a drag resizes. */
    predicate IsEdge() {
      this == Top || this == Left || this == Bottom || this == Right
    }

    predicate IsCorner() {
      this == TopLeft || this == TopRight || this == BottomLeft || this == BottomRight
    }
  }

  /** A pointer position relative to the image's top-left corner. */
  datatype Coords = Coords(x: int, y: int)

  /** The crop rectangle: `leftCrop`, `topCrop`, `rightCrop`, `bottomCrop`. */
  datatype Rect = Rect(left: int, top: int, right: int, bottom: int)

  /** The merged options the controller reads. */
  datatype Config = Config(minWidth: int, minHeight: int, closeCrop: int, cornerCrop: int)

  /** The rendered size of the image (`offsetWidth`, `offsetHeight`). */
  datatype Image = Image(width: int, height: int)

  function Min(a: int, b: int): int { if a <= b then a else b }

  function Max(a: int, b: int): int { if a >= b then a else b }

  function Width(r: Rect): int { r.right - r.left }

  function Height(r: Rect): int { r.bottom - r.top }

  /** The closed rectangle [left, right] x [top, bottom]: its border counts as inside. */
  predicate Contains(r: Rect, p: Coords) {
    r.left <= p.x <= r.right && r.top <= p.y <= r.bottom
  }

  /** The rectangle lies inside the image and is at least the minimum size. */
  predicate WellFormed(r: Rect, cfg: Config, img: Image) {
    0 <= r.left && r.left <= r.right - cfg.minWidth && r.right <= img.width &&
    0 <= r.top && r.top <= r.bottom - cfg.minHeight && r.bottom <= img.height
  }

  /**
   * The left and top edges can take the image's size as the rectangle's
   * right and bottom edges and still leave the minimum size, and the right and
   * bottom edges are inside the image. Measuring the image turns such a
   * rectangle into a well-formed one; it holds of the empty rectangle the
   * controller starts with and is kept by every drag, before or after the
   * image is measured.
   */
  predicate LoadReady(r: Rect, cfg: Config, img: Image) {
    0 <= r.left <= img.width - cfg.minWidth && r.right <= img.width &&
    0 <= r.top <= img.height - cfg.minHeight && r.bottom <= img.height
  }

  function DistLeft(r: Rect, p: Coords): int { p.x - r.left }

  function DistTop(r: Rect, p: Coords): int { p.y - r.top }

  function DistRight(r: Rect, p: Coords): int { r.right - p.x }

  function DistBottom(r: Rect, p: Coords): int { r.bottom - p.y }

  /** A distance that selects an edge's branch (strictly below `closeCrop`). */
  predicate Near(d: int, cfg: Config) { d < cfg.closeCrop }

  /** A distance that turns an edge into a corner (strictly below `cornerCrop`). */
  predicate Cornered(d: int, cfg: Config) { d < cfg.cornerCrop }

  /**
   * `getMousePosition`. The ensures clauses give, for every zone, exactly the
   * points that land in it: the first near edge in the order left, top,
   * right, bottom picks the branch, and inside it the first cornered
   * neighbouring edge picks the corner.
   */
  function Classify(r: Rect, cfg: Config, p: Coords): (z: Zone)
    ensures z == Outside <==> !Contains(r, p)
    ensures z == Middle <==>
      Contains(r, p) && !Near(DistLeft(r, p), cfg) && !Near(DistTop(r, p), cfg)
      && !Near(DistRight(r, p), cfg) && !Near(DistBottom(r, p), cfg)
    ensures z == Left <==>
      Contains(r, p) && Near(DistLeft(r, p), cfg)
      && !Cornered(DistTop(r, p), cfg) && !Cornered(DistBottom(r, p), cfg)
    ensures z == Top <==>
      Contains(r, p) && !Near(DistLeft(r, p), cfg) && Near(DistTop(r, p), cfg)
      && !Cornered(DistLeft(r, p), cfg) && !Cornered(DistRight(r, p), cfg)
    ensures z == Right <==>
      Contains(r, p) && !Near(DistLeft(r, p), cfg) && !Near(DistTop(r, p), cfg)
      && Near(DistRight(r, p), cfg)
      && !Cornered(DistTop(r, p), cfg) && !Cornered(DistBottom(r, p), cfg)
    ensures z == Bottom <==>
      Contains(r, p) && !Near(DistLeft(r, p), cfg) && !Near(DistTop(r, p), cfg)
      && !Near(DistRight(r, p), cfg) && Near(DistBottom(r, p), cfg)
      && !Cornered(DistLeft(r, p), cfg) && !Cornered(DistRight(r, p), cfg)
    ensures z == TopLeft <==>
      Contains(r, p) &&
      ((Near(DistLeft(r, p), cfg) && Cornered(DistTop(r, p), cfg)) ||
       (!Near(DistLeft(r, p), cfg) && Near(DistTop(r, p), cfg) && Cornered(DistLeft(r, p), cfg)))
    ensures z == TopRight <==>
      Contains(r, p) &&
      ((!Near(DistLeft(r, p), cfg) && Near(DistTop(r, p), cfg)
        && !Cornered(DistLeft(r, p), cfg) && Cornered(DistRight(r, p), cfg)) ||
       (!Near(DistLeft(r, p), cfg) && !Near(DistTop(r, p), cfg) && Near(DistRight(r, p), cfg)
        && Cornered(DistTop(r, p), cfg)))
    ensures z == BottomLeft <==>
      Contains(r, p) &&
      ((Near(DistLeft(r, p), cfg) && !Cornered(DistTop(r, p), cfg) && Cornered(DistBottom(r, p), cfg)) ||
       (!Near(DistLeft(r, p), cfg) && !Near(DistTop(r, p), cfg) && !Near(DistRight(r, p), cfg)
        && Near(DistBottom(r, p), cfg) && Cornered(DistLeft(r, p), cfg)))
    ensures z == BottomRight <==>
      Contains(r, p) &&
      ((!Near(DistLeft(r, p), cfg) && !Near(DistTop(r, p), cfg) && Near(DistRight(r, p), cfg)
        && !Cornered(DistTop(r, p), cfg) && Cornered(DistBottom(r, p), cfg)) ||
       (!Near(DistLeft(r, p), cfg) && !Near(DistTop(r, p), cfg) && !Near(DistRight(r, p), cfg)
        && Near(DistBottom(r, p), cfg) && !Cornered(DistLeft(r, p), cfg) && Cornered(DistRight(r, p), cfg)))
  {
    if Contains(r, p) then
      var distToLeft := DistLeft(r, p);
      var distToTop := DistTop(r, p);
      var distToRight := DistRight(r, p);
      var distToBottom := DistBottom(r, p);
      if distToLeft < cfg.closeCrop then
        if distToTop < cfg.cornerCrop then TopLeft
        else if distToBottom < cfg.cornerCrop then BottomLeft
        else Left
      else if distToTop < cfg.closeCrop then
        if distToLeft < cfg.cornerCrop then TopLeft
        else if distToRight < cfg.cornerCrop then TopRight
        else Top
      else if distToRight < cfg.closeCrop then
        if distToTop < cfg.cornerCrop then TopRight
        else if distToBottom < cfg.cornerCrop then BottomRight
        else Right
      else if distToBottom < cfg.closeCrop then
        if distToLeft < cfg.cornerCrop then BottomLeft
        else if distToRight < cfg.cornerCrop then BottomRight
        else Bottom
      else
        Middle
    else
      Outside
  }

  /** `v` is `x` clamped to the interval [lo, hi]. */
  predicate IsClamp(v: int, x: int, lo: int, hi: int) {
    lo <= v <= hi &&
    (x < lo ==> v == lo) && (hi < x ==> v == hi) && (lo <= x <= hi ==> v == x)
  }

  /**
   * The edge cases of the drag switch in `_onHover`: the dragged edge follows
   * the pointer, clamped between the image border and the opposite edge less
   * the minimum size; no other edge moves. When that interval is empty the
   * image-border clamp, applied last, wins.
   */
  function ResizeEdge(r: Rect, cfg: Config, img: Image, edge: Zone, p: Coords): (r': Rect)
    requires edge.IsEdge()
    ensures edge == Top ==> r' == r.(top := r'.top)
    ensures edge == Top && 0 <= r.bottom - cfg.minHeight ==> IsClamp(r'.top, p.y, 0, r.bottom - cfg.minHeight)
    ensures edge == Top && r.bottom - cfg.minHeight < 0 ==> r'.top == 0
    ensures edge == Bottom ==> r' == r.(bottom := r'.bottom)
    ensures edge == Bottom && r.top + cfg.minHeight <= img.height ==>
      IsClamp(r'.bottom, p.y, r.top + cfg.minHeight, img.height)
    ensures edge == Bottom && img.height < r.top + cfg.minHeight ==> r'.bottom == img.height
    ensures edge == Left ==> r' == r.(left := r'.left)
    ensures edge == Left && 0 <= r.right - cfg.minWidth ==> IsClamp(r'.left, p.x, 0, r.right - cfg.minWidth)
    ensures edge == Left && r.right - cfg.minWidth < 0 ==> r'.left == 0
    ensures edge == Right ==> r' == r.(right := r'.right)
    ensures edge == Right && r.left + cfg.minWidth <= img.width ==>
      IsClamp(r'.right, p.x, r.left + cfg.minWidth, img.width)
    ensures edge == Right && img.width < r.left + cfg.minWidth ==> r'.right == img.width
    ensures WellFormed(r, cfg, img) ==> WellFormed(r', cfg, img)
    ensures LoadReady(r, cfg, img) ==> LoadReady(r', cfg, img)
  {
    match edge
    case Top => r.(top := Max(Min(p.y, r.bottom - cfg.minHeight), 0))
    case Bottom => r.(bottom := Min(Max(p.y, r.top + cfg.minHeight), img.height))
    case Left => r.(left := Max(Min(p.x, r.right - cfg.minWidth), 0))
    case Right => r.(right := Min(Max(p.x, r.left + cfg.minWidth), img.width))
  }

  /** `canResize`: may `edge` take the value `change`, judged against the current opposite edge? */
  function CanResize(r: Rect, cfg: Config, img: Image, edge: Zone, change: int): (ok: bool)
    requires edge.IsEdge()
    ensures edge == Top ==> (ok <==> 0 <= change && r.bottom - change > cfg.minHeight)
    ensures edge == Bottom ==> (ok <==> change <= img.height && change - r.top > cfg.minHeight)
    ensures edge == Left ==> (ok <==> 0 <= change && r.right - change > cfg.minWidth)
    ensures edge == Right ==> (ok <==> change <= img.width && change - r.left > cfg.minWidth)
  {
    match edge
    case Top => change >= 0 && change < r.bottom - cfg.minHeight
    case Bottom => change <= img.height && change > r.top + cfg.minHeight
    case Left => change >= 0 && change < r.right - cfg.minWidth
    case Right => change <= img.width && change > r.left + cfg.minWidth
  }

  /** The rectangle moved by (dx, dy): every edge shifts, the size is kept. */
  function Translate(r: Rect, dx: int, dy: int): (r': Rect)
    ensures Width(r') == Width(r) && Height(r') == Height(r)
    ensures r'.left - r.left == dx && r'.top - r.top == dy
  {
    Rect(r.left + dx, r.top + dy, r.right + dx, r.bottom + dy)
  }

  /**
   * The guard of a middle drag: all four `canResize` checks on the shifted
   * edges. Because each check compares with the opposite edge as it is
   * before the move, a move passes only when it stays inside the image AND
   * each component of the step is strictly smaller than the slack between the
   * rectangle's size and the minimum size; an accepted move keeps the
   * rectangle well formed.
   */
  function MoveAllowed(r: Rect, cfg: Config, img: Image, dx: int, dy: int): (ok: bool)
    ensures ok <==>
      0 <= r.left + dx && r.right + dx <= img.width &&
      0 <= r.top + dy && r.bottom + dy <= img.height &&
      -(Width(r) - cfg.minWidth) < dx < Width(r) - cfg.minWidth &&
      -(Height(r) - cfg.minHeight) < dy < Height(r) - cfg.minHeight
    ensures ok ==> WellFormed(Translate(r, dx, dy), cfg, img)
  {
    CanResize(r, cfg, img, Top, r.top + dy) &&
    CanResize(r, cfg, img, Left, r.left + dx) &&
    CanResize(r, cfg, img, Bottom, r.bottom + dy) &&
    CanResize(r, cfg, img, Right, r.right + dx)
  }

  /** The body cursor `_onHover` writes for a zone; corners have none yet. */
  function CursorFor(z: Zone): (cursor: string)
    ensures cursor == "move" <==> z == Middle
    ensures cursor == "row-resize" <==> z == Top || z == Bottom
    ensures cursor == "col-resize" <==> z == Left || z == Right
    ensures cursor == "" <==> z.IsCorner() || z == Outside
  {
    match z
    case Middle => "move"
    case Top | Bottom => "row-resize"
    case Left | Right => "col-resize"
    case _ => ""
  }

  /** A rectangle exactly at its minimum width or height cannot be moved by any step. */
  lemma MinimumSizeCannotMove(r: Rect, cfg: Config, img: Image, dx: int, dy: int)
    requires Width(r) == cfg.minWidth || Height(r) == cfg.minHeight
    ensures !MoveAllowed(r, cfg, img, dx, dy)
  {
  }

  /**
   * Ties go by branch order, not by distance: a point near both the left and
   * the top edge is resolved by the left branch even when it is nearer the top.
   */
  lemma LeftBranchWinsTies(r: Rect, cfg: Config, p: Coords)
    requires Contains(r, p) && Near(DistLeft(r, p), cfg) && Near(DistTop(r, p), cfg)
    ensures Classify(r, cfg, p) in {Left, TopLeft, BottomLeft}
    ensures Cornered(DistTop(r, p), cfg) ==> Classify(r, cfg, p) == TopLeft
  {
  }

  /** The thresholds are exclusive: at distance closeCrop an edge is not near. */
  lemma ThresholdIsExclusive(r: Rect, cfg: Config, p: Coords)
    requires Contains(r, p) && 0 < cfg.closeCrop
    requires DistLeft(r, p) == cfg.closeCrop
    requires !Near(DistTop(r, p), cfg) && !Near(DistRight(r, p), cfg) && !Near(DistBottom(r, p), cfg)
    ensures Classify(r, cfg, p) == Middle
    ensures Classify(r, cfg, p.(x := p.x - 1)) == (
      if Cornered(DistTop(r, p), cfg) then TopLeft
      else if Cornered(DistBottom(r, p), cfg) then BottomLeft
      else Left)
  {
  }

  /** The zones of a 400 x 300 image cropped to its full bounds, with the default options. */
  lemma FullImageZones()
    ensures var r, cfg := Rect(0, 0, 400, 300), Config(10, 10, 5, 10);
      Classify(r, cfg, Coords(2, 2)) == TopLeft &&
      Classify(r, cfg, Coords(398, 2)) == TopRight &&
      Classify(r, cfg, Coords(2, 150)) == Left &&
      Classify(r, cfg, Coords(200, 150)) == Middle &&
      Classify(r, cfg, Coords(401, 150)) == Outside &&
      Classify(r, cfg, Coords(400, 300)) == BottomRight
  {
  }
}
