/**
 * The event handlers of `VanillaCrop` (index.ts) as functions of the
 * controller's state: what `_onDown`, `_onUp`, `_onHover` and `updateImage`
 * do to the crop rectangle, the drag zone and the two remembered pointer
 * positions, and what `_onHover` answers (cursor and default suppression).
 */
module Controller {
  import opened Wrappers
  import opened Geometry

  /**
   * The fields the handlers update: the rectangle, the zone being dragged
   * (`Outside` when idle), the last hovered point and the drag anchor.
   */
  datatype State = State(crop: Rect, dragging: Zone, lastCoords: Coords, initialDrag: Coords)

  /**
   * What a hover does besides changing the state: the cursor it writes
   * (`None` when the handler returns before writing one) and whether it
   * suppresses the browser's default action.
   */
  datatype Hint = Hint(cursor: Option<string>, suppress: bool)

  /** A pointer event, with image-relative coordinates. `PointerUp` also stands for pointer-leave. */
  datatype Event = PointerDown(at: Coords) | PointerUp | PointerMove(at: Coords)

  /** The field initialisers, before the image has been measured. */
  const Initial: State := State(Rect(0, 0, 0, 0), Outside, Coords(0, 0), Coords(0, 0))

  /** The hint for a hover that reaches the cursor switch at zone `z`. */
  function Reply(z: Zone): (h: Hint)
    ensures h.cursor.Some? && h.cursor.value == CursorFor(z)
    ensures h.suppress <==> z != Outside
  {
    Hint(Some(CursorFor(z)), z != Outside)
  }

  /** `updateImage`: the right and bottom edges take the image's size; nothing else changes. */
  function Loaded(s: State, img: Image): (s': State)
    ensures s'.crop.right == img.width && s'.crop.bottom == img.height
    ensures s'.crop.left == s.crop.left && s'.crop.top == s.crop.top
    ensures s'.(crop := s.crop) == s
  {
    s.(crop := s.crop.(right := img.width, bottom := img.height))
  }

  /**
   * `_onDown`: the drag zone becomes the classification of the pressed point,
   * and the anchor becomes the last HOVERED point, not the pressed one.
   */
  function Down(cfg: Config, s: State, p: Coords): (s': State)
    ensures s'.dragging == Classify(s.crop, cfg, p)
    ensures s'.initialDrag == s.lastCoords
    ensures s'.crop == s.crop && s'.lastCoords == s.lastCoords
  {
    s.(dragging := Classify(s.crop, cfg, p), initialDrag := s.lastCoords)
  }

  /** `_onUp`: the drag ends; nothing else changes. */
  function Up(s: State): (s': State)
    ensures s'.dragging == Outside && s'.(dragging := s.dragging) == s
  {
    s.(dragging := Outside)
  }

  /**
   * `_onHover`. The point is always remembered. Idle, the point is classified
   * and the rectangle stays. Dragging an edge resizes that edge; dragging a
   * corner changes nothing; dragging the middle advances the anchor to the
   * point and then moves the whole rectangle by the step, or, if the move is
   * not allowed, leaves it and returns before the cursor is written. While
   * dragging, the cursor comes from the stored zone.
   */
  function Hover(cfg: Config, img: Image, s: State, p: Coords): (res: (State, Hint))
    ensures res.0.lastCoords == p && res.0.dragging == s.dragging
    ensures s.dragging == Outside ==>
      res.0.crop == s.crop && res.0.initialDrag == s.initialDrag && res.1 == Reply(Classify(s.crop, cfg, p))
    ensures s.dragging != Outside && res.1.cursor.Some? ==> res.1 == Reply(s.dragging)
    ensures res.1.cursor.None? <==>
      s.dragging == Middle &&
      !MoveAllowed(s.crop, cfg, img, p.x - s.initialDrag.x, p.y - s.initialDrag.y)
    ensures res.1.cursor.None? ==> !res.1.suppress && res.0.crop == s.crop
    ensures s.dragging == Middle ==> res.0.initialDrag == p
    ensures s.dragging != Middle ==> res.0.initialDrag == s.initialDrag
    ensures s.dragging == Middle && res.1.cursor.Some? ==>
      res.0.crop == Translate(s.crop, p.x - s.initialDrag.x, p.y - s.initialDrag.y)
    ensures s.dragging.IsEdge() ==> res.0.crop == ResizeEdge(s.crop, cfg, img, s.dragging, p)
    ensures s.dragging.IsCorner() ==> res.0.crop == s.crop
    ensures WellFormed(s.crop, cfg, img) ==> WellFormed(res.0.crop, cfg, img)
    ensures LoadReady(s.crop, cfg, img) ==> LoadReady(res.0.crop, cfg, img)
  {
    var seen := s.(lastCoords := p);
    if s.dragging == Outside then
      (seen, Reply(Classify(s.crop, cfg, p)))
    else if s.dragging == Middle then
      var changeX := p.x - s.initialDrag.x;
      var changeY := p.y - s.initialDrag.y;
      var anchored := seen.(initialDrag := p);
      if MoveAllowed(s.crop, cfg, img, changeX, changeY) then
        (anchored.(crop := Translate(s.crop, changeX, changeY)), Reply(Middle))
      else
        (anchored, Hint(None, false))
    else if s.dragging.IsEdge() then
      (seen.(crop := ResizeEdge(s.crop, cfg, img, s.dragging, p)), Reply(s.dragging))
    else
      (seen, Reply(s.dragging))
  }

  /** One event. */
  function Step(cfg: Config, img: Image, s: State, e: Event): (s': State)
    ensures !e.PointerMove? ==> s'.crop == s.crop
    ensures WellFormed(s.crop, cfg, img) ==> WellFormed(s'.crop, cfg, img)
    ensures LoadReady(s.crop, cfg, img) ==> LoadReady(s'.crop, cfg, img)
  {
    match e
    case PointerDown(p) => Down(cfg, s, p)
    case PointerUp => Up(s)
    case PointerMove(p) => Hover(cfg, img, s, p).0
  }

  /** A sequence of events, in delivery order. */
  function Run(cfg: Config, img: Image, s: State, events: seq<Event>): State
    decreases |events|
  {
    if events == [] then s else Run(cfg, img, Step(cfg, img, s, events[0]), events[1..])
  }

  /** Every sequence of events keeps a well-formed rectangle well formed. */
  lemma {:induction false} RunPreservesWellFormed(cfg: Config, img: Image, s: State, events: seq<Event>)
    requires WellFormed(s.crop, cfg, img)
    ensures WellFormed(Run(cfg, img, s, events).crop, cfg, img)
    decreases |events|
  {
    if events != [] {
      RunPreservesWellFormed(cfg, img, Step(cfg, img, s, events[0]), events[1..]);
    }
  }

  /**
   * Once an image at least the minimum size is measured, the rectangle is
   * the whole image and stays well formed whatever events follow.
   */
  lemma {:induction false} LoadedRunWellFormed(cfg: Config, img: Image, events: seq<Event>)
    requires cfg.minWidth <= img.width && cfg.minHeight <= img.height
    ensures WellFormed(Run(cfg, img, Loaded(Initial, img), events).crop, cfg, img)
  {
    RunPreservesWellFormed(cfg, img, Loaded(Initial, img), events);
  }

  /**
   * Measuring the image makes the rectangle well formed whenever its left and
   * top edges leave room for the minimum size.
   */
  lemma LoadedWellFormed(cfg: Config, img: Image, s: State)
    requires 0 <= s.crop.left <= img.width - cfg.minWidth
    requires 0 <= s.crop.top <= img.height - cfg.minHeight
    ensures WellFormed(Loaded(s, img).crop, cfg, img)
  {
  }

  /** Every sequence of events keeps a rectangle ready to be measured. */
  lemma {:induction false} RunPreservesLoadReady(cfg: Config, img: Image, s: State, events: seq<Event>)
    requires LoadReady(s.crop, cfg, img)
    ensures LoadReady(Run(cfg, img, s, events).crop, cfg, img)
    decreases |events|
  {
    if events != [] {
      RunPreservesLoadReady(cfg, img, Step(cfg, img, s, events[0]), events[1..]);
    }
  }

  /**
   * The listeners are live before the image loads. Whatever events arrive
   * before a late measurement, and whatever follow it, the rectangle is well
   * formed from the measurement on, provided the image is at least the
   * minimum size.
   */
  lemma {:induction false} LateLoadWellFormed(cfg: Config, img: Image, before: seq<Event>, after: seq<Event>)
    requires 0 <= img.width && cfg.minWidth <= img.width
    requires 0 <= img.height && cfg.minHeight <= img.height
    ensures var measured := Loaded(Run(cfg, img, Initial, before), img);
      WellFormed(measured.crop, cfg, img) &&
      WellFormed(Run(cfg, img, measured, after).crop, cfg, img)
  {
    RunPreservesLoadReady(cfg, img, Initial, before);
    var measured := Loaded(Run(cfg, img, Initial, before), img);
    RunPreservesWellFormed(cfg, img, measured, after);
  }

  /** Hovering the same point twice while idle gives the same state and hint. */
  lemma IdleHoverIsIdempotent(cfg: Config, img: Image, s: State, p: Coords)
    requires s.dragging == Outside
    ensures Hover(cfg, img, Hover(cfg, img, s, p).0, p) == Hover(cfg, img, s, p)
  {
  }

  /** A press after a hover at `q` anchors the drag at `q`, wherever the press lands. */
  lemma DownAnchorsAtLastHover(cfg: Config, img: Image, s: State, q: Coords, p: Coords)
    ensures Run(cfg, img, s, [PointerMove(q), PointerDown(p)]).initialDrag == q
  {
    var s1 := Step(cfg, img, s, PointerMove(q));
    assert Run(cfg, img, s, [PointerMove(q), PointerDown(p)]) == Run(cfg, img, s1, [PointerDown(p)]);
    assert Run(cfg, img, s1, [PointerDown(p)]) == Run(cfg, img, Step(cfg, img, s1, PointerDown(p)), []);
  }

  /**
   * Middle-drag steps are incremental: two accepted steps move the rectangle
   * by the total distance from the first anchor, and after a rejected step
   * the next one is measured from the rejected point.
   */
  lemma MiddleStepsAreIncremental(cfg: Config, img: Image, s: State, p1: Coords, p2: Coords)
    requires s.dragging == Middle
    ensures var (s1, h1) := Hover(cfg, img, s, p1);
      var (s2, h2) := Hover(cfg, img, s1, p2);
      (h1.cursor.Some? && h2.cursor.Some? ==>
        s2.crop == Translate(s.crop, p2.x - s.initialDrag.x, p2.y - s.initialDrag.y)) &&
      (h1.cursor.None? && h2.cursor.Some? ==>
        s2.crop == Translate(s.crop, p2.x - p1.x, p2.y - p1.y))
  {
  }

  /** Dragging the right edge of a full 400 x 300 crop past the image, or below the minimum width. */
  lemma RightEdgeScenarios()
    ensures var cfg, img := Config(10, 10, 5, 10), Image(400, 300);
      var dragRight := State(Rect(0, 0, 400, 300), Right, Coords(0, 0), Coords(0, 0));
      Hover(cfg, img, dragRight, Coords(450, 10)).0.crop == Rect(0, 0, 400, 300) &&
      Hover(cfg, img, dragRight, Coords(5, 10)).0.crop == Rect(0, 0, 10, 300)
  {
  }

  /** A middle drag that would push the left edge below 0 leaves the rectangle where it was. */
  lemma RejectedMoveScenario()
    ensures var cfg, img := Config(10, 10, 5, 10), Image(400, 300);
      var s := State(Rect(5, 5, 100, 100), Middle, Coords(50, 50), Coords(50, 50));
      var (s', h) := Hover(cfg, img, s, Coords(40, 60));
      s'.crop == s.crop && s'.initialDrag == Coords(40, 60) && h == Hint(None, false)
  {
  }
}
