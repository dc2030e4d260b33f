/**
 * The `VanillaCrop` class of index.ts without its DOM plumbing: the fields
 * its handlers assign, and the handlers themselves, each proved to do what
 * the matching function of `Controller` says.
 */
module Crop {
  import opened Wrappers
  import opened Geometry
  import opened Controller
  import Options

  class VanillaCrop {
    /** The measured image, standing for `image.offsetWidth` and `image.offsetHeight`. */
    const image: Image
    /** The merged options. */
    const options: Config

    var leftCrop: int
    var topCrop: int
    var bottomCrop: int
    var rightCrop: int

    var lastCoords: Coords
    var dragging: Zone
    var initialDrag: Coords

    function Crop(): Rect
      reads this
    {
      Rect(leftCrop, topCrop, rightCrop, bottomCrop)
    }

    /** The controller state held in the fields. */
    function Snapshot(): State
      reads this
    {
      State(Crop(), dragging, lastCoords, initialDrag)
    }

    /** The crop rectangle lies in the image and is at least the minimum size. */
    ghost predicate Valid()
      reads this
    {
      WellFormed(Crop(), options, image)
    }

    /** Measuring the image now would make the object valid (`LoadReady`). */
    ghost predicate Measurable()
      reads this
    {
      LoadReady(Crop(), options, image)
    }

    /**
     * Merges `given` with the defaults (a missing options object counts as
     * empty) and, when the image has already finished loading, measures it.
     * Otherwise the rectangle stays empty until `UpdateImage` runs on load.
     */
    constructor (image: Image, given: Option<map<string, int>>, complete: bool)
      ensures this.image == image
      ensures options == Options.ToConfig(Options.Merged(if given.Some? then given.value else map[]))
      ensures Snapshot() == if complete then Loaded(Initial, image) else Initial
      ensures complete && options.minWidth <= image.width && options.minHeight <= image.height ==> Valid()
      ensures !complete && 0 <= options.minWidth <= image.width && 0 <= options.minHeight <= image.height ==>
        Measurable()
    {
      var supplied := if given.Some? then given.value else map[];
      var merged := Options.MergeDefaults(supplied);
      this.image := image;
      this.options := Options.ToConfig(merged);
      leftCrop, topCrop, bottomCrop, rightCrop := 0, 0, 0, 0;
      lastCoords := Coords(0, 0);
      dragging := Outside;
      initialDrag := Coords(0, 0);
      new;
      if complete {
        UpdateImage();
      }
    }

    /** `updateImage`: the rectangle's right and bottom edges take the image's size. */
    method UpdateImage()
      modifies this
      ensures Snapshot() == Loaded(old(Snapshot()), image)
      ensures old(Valid()) ==> Valid()
      ensures (0 <= old(leftCrop) <= image.width - options.minWidth &&
               0 <= old(topCrop) <= image.height - options.minHeight) ==> Valid()
      ensures old(Measurable()) ==> Valid()
    {
      bottomCrop := image.height;
      rightCrop := image.width;
    }

    /** `_onDown`. */
    method OnDown(p: Coords)
      modifies this
      ensures Snapshot() == Down(options, old(Snapshot()), p)
      ensures old(Valid()) ==> Valid()
      ensures old(Measurable()) ==> Measurable()
    {
      dragging := Classify(Crop(), options, p);
      initialDrag := lastCoords;
    }

    /** `_onUp`, also registered for pointer-leave. */
    method OnUp()
      modifies this
      ensures Snapshot() == Up(old(Snapshot()))
      ensures old(Valid()) ==> Valid()
      ensures old(Measurable()) ==> Measurable()
    {
      dragging := Outside;
    }

    /** `_onHover`, with the early return of a refused move. */
    method OnHover(p: Coords) returns (hint: Hint)
      modifies this
      ensures Snapshot() == Hover(options, image, old(Snapshot()), p).0
      ensures hint == Hover(options, image, old(Snapshot()), p).1
      ensures old(Valid()) ==> Valid()
      ensures old(Measurable()) ==> Measurable()
    {
      ghost var before := Snapshot();
      lastCoords := p;
      var position: Zone;
      if dragging != Outside {
        position := dragging;
        match position {
          case Middle =>
            var changeX := lastCoords.x - initialDrag.x;
            var changeY := lastCoords.y - initialDrag.y;
            initialDrag := lastCoords;
            if !CanResize(Crop(), options, image, Top, topCrop + changeY)
              || !CanResize(Crop(), options, image, Left, leftCrop + changeX)
              || !CanResize(Crop(), options, image, Bottom, bottomCrop + changeY)
              || !CanResize(Crop(), options, image, Right, rightCrop + changeX)
            {
              assert !MoveAllowed(before.crop, options, image, changeX, changeY);
              return Hint(None, false);
            }
            topCrop := topCrop + changeY;
            bottomCrop := bottomCrop + changeY;
            leftCrop := leftCrop + changeX;
            rightCrop := rightCrop + changeX;
            assert Crop() == Translate(before.crop, changeX, changeY);
          case Top =>
            topCrop := Max(Min(lastCoords.y, bottomCrop - options.minHeight), 0);
            assert Crop() == ResizeEdge(before.crop, options, image, Top, p);
          case Bottom =>
            bottomCrop := Min(Max(lastCoords.y, topCrop + options.minHeight), image.height);
            assert Crop() == ResizeEdge(before.crop, options, image, Bottom, p);
          case Left =>
            leftCrop := Max(Min(lastCoords.x, rightCrop - options.minWidth), 0);
            assert Crop() == ResizeEdge(before.crop, options, image, Left, p);
          case Right =>
            rightCrop := Min(Max(lastCoords.x, leftCrop + options.minWidth), image.width);
            assert Crop() == ResizeEdge(before.crop, options, image, Right, p);
          case _ =>
        }
      } else {
        position := Classify(Crop(), options, p);
      }
      hint := Hint(Some(CursorFor(position)), position != Outside);
    }
  }
}
