# VanillaCrop, modelled in Dafny

VanillaCrop is a browser image-cropping widget. One controller, the
`VanillaCrop` class of `index.ts`, keeps a crop rectangle over an image
(`leftCrop`, `topCrop`, `rightCrop`, `bottomCrop`), the zone being dragged
(`dragging`, `OUTSIDE` when idle), the last hovered pointer position
(`lastCoords`) and the anchor of a whole-rectangle move (`initialDrag`). It
reacts to pointer-down, pointer-up/leave and pointer-move events. It sorts
pointer positions into ten zones (four edges, four corners, middle, outside).
It resizes or moves the rectangle while a drag is active, and it answers each
move with a cursor hint and whether to suppress the browser's default action.

The project has five modules:

- `Wrappers` (`wrappers.dfy`): an `Option` type.
- `Geometry` (`geometry.dfy`): zones, the rectangle, the classifier
  `getMousePosition`, the clamped edge updates, the `canResize` guard of a
  move, and the cursor of each zone. These are pure functions, as in the source.
- `Options` (`options.dfy`): the constructor's merge of the caller's options
  with the defaults 10, 10, 5, 10. The merge is a loop over the default
  properties that overwrites each falsy one in a local map; the caller's own
  object is not changed (see "Left out").
- `Controller` (`controller.dfy`): each handler as a function of the
  controller state, plus the lemmas about event sequences.
- `Crop` (`vanilla_crop.dfy`): the class `VanillaCrop` with the source's
  fields. Its handlers assign those fields step by step, including the early
  `return` of a refused move. Each handler is proved to produce exactly the
  state and answer of the matching `Controller` function.

Coordinates come in already relative to the image's top-left corner, and
pixel values are integers.

Points where the code's behaviour is easy to misread; the model follows the code:

- `_onDown` stores the classified zone even when it is `OUTSIDE`, and it
  always moves the anchor to the last hovered point. This is the one-event
  lag: the anchor is not the point that was pressed.
- A refused middle move returns before the cursor switch. So that event
  writes no cursor and does not suppress the default action.
- `canResize` uses strict bounds and compares each shifted edge with the
  opposite edge as it is before the move. A move is therefore allowed only
  when it stays inside the image and each component of the step is strictly
  smaller than the rectangle's size minus the minimum size. In particular, a
  rectangle exactly at its minimum width or height can never be moved.
- `updateImage` sets only the right and bottom edges; the left and top edges
  keep their values. Before the image is measured, the rectangle is 0 x 0, so
  the size invariant holds only once the image is loaded and is at least the
  minimum size. Events that arrive before a late load keep the left and top
  edges where the measurement needs them, so the rectangle is well formed from
  the load on.

## Model

| member | source | states |
|---|---|---|
| `Geometry.Classify` | index.ts:178-232 | For every zone, exactly which points land in it: `Outside` iff the point is not in the closed rectangle (border points are inside); otherwise the first edge, in the order left, top, right, bottom, whose distance is below `closeCrop` picks the branch; inside it, the first neighbouring edge whose distance is below `cornerCrop` gives the corner; with no near edge, `Middle` |
| `Geometry.ResizeEdge` | index.ts:108-119 | Dragging an edge changes only that edge. The new value is the pointer coordinate clamped to the legal interval: [0, bottom - minHeight] for top, [top + minHeight, image height] for bottom, and the same for left and right. When that interval is empty, the image-border clamp wins. The result stays inside the image and at least the minimum size |
| `Geometry.MoveAllowed` | index.ts:96-101 | The four `canResize` checks of a middle drag pass iff the shifted rectangle stays in the image and each of dx and dy is strictly smaller in absolute value than the rectangle's size minus the minimum size; an accepted move leaves the rectangle well formed |
| `Geometry.CanResize` | index.ts:156-168 | Whether an edge may take a given value: top and left at or above 0, bottom and right at or below the image size, and in each case strictly more than the minimum size away from the opposite edge as it is before the move. Only the four edges are accepted, in place of the `throw` |
| `Geometry.Translate` | index.ts:102-105 | A move shifts all four edges by the same (dx, dy), keeping width and height |
| `Geometry.CursorFor` | index.ts:126-149 | `move` exactly for the middle, `row-resize` exactly for top and bottom, `col-resize` exactly for left and right, and the empty cursor exactly for corners and outside |
| `Geometry.MinimumSizeCannotMove` | index.ts:159-165 | A rectangle at exactly its minimum width or height refuses every move |
| `Geometry.LeftBranchWinsTies` | index.ts:190-199 | A point near both the left and the top edge is resolved by the left branch, whichever edge is nearer |
| `Geometry.ThresholdIsExclusive` | index.ts:190-229 | A point exactly `closeCrop` from the left edge, and not near any other edge, is `Middle`; one pixel closer it is `Left` or one of the left corners |
| `Geometry.FullImageZones` | index.ts:184-231 | On a 400 x 300 full-image crop with default options: (2,2) is the top-left corner, (398,2) the top-right, (2,150) the left edge, (200,150) the middle, (401,150) outside and (400,300) the bottom-right corner |
| `Options.Merged` | index.ts:22-27 | The merged options keep every truthy value the caller gave. Every default property that was absent or 0 takes its default. Other properties are kept. Every default property ends up truthy |
| `Options.MergeDefaults` | index.ts:22-27 | The loop over the default properties, overwriting each falsy one in a local copy of the caller's options, yields exactly `Merged` of those options |
| `Options.MergeIsIdempotent` | index.ts:22-27 | Merging already merged options changes nothing |
| `Options.DefaultConfig` | index.ts:1-6 | With no options, or only zeros, the controller uses minWidth 10, minHeight 10, closeCrop 5 and cornerCrop 10 |
| `Controller.Reply` | index.ts:126-153 | A hover that reaches the cursor switch always writes the zone's cursor, and suppresses the default action exactly when the zone is not outside |
| `Controller.Loaded` | index.ts:57-59 | Measuring the image sets the right and bottom edges to the image's width and height; the left and top edges and the rest of the state are unchanged |
| `Controller.Down` | index.ts:72-76 | Pressing sets the drag zone to the classification of the pressed point and the anchor to the last hovered point; the rectangle and the last point are unchanged |
| `Controller.Up` | index.ts:78-80 | Releasing or leaving ends the drag and changes nothing else |
| `Controller.Hover` | index.ts:82-154 | A move always records the point. When idle, the rectangle and anchor stay, and the hint comes from classifying the point. While dragging, the hint comes from the stored zone. An edge drag applies `ResizeEdge`. A corner drag changes nothing. A middle drag always advances the anchor to the point, then either moves the whole rectangle by the step or, when the move is not allowed, leaves it unchanged and gives no cursor and no suppression. A well-formed rectangle stays well formed |
| `Controller.Step` | index.ts:72-154 | Only pointer moves change the rectangle, and every event keeps a well-formed rectangle well formed |
| `Controller.RunPreservesWellFormed` | index.ts:82-120 | After any sequence of events, a rectangle that started inside the image and at least the minimum size still is |
| `Controller.LoadedRunWellFormed` | index.ts:37-41 | Once an image at least the minimum size is measured, the rectangle stays well formed under any sequence of events |
| `Controller.LoadedWellFormed` | index.ts:57-59 | Measuring the image makes the rectangle well formed whenever its left and top edges leave room for the minimum size |
| `Controller.RunPreservesLoadReady` | index.ts:82-120 | Any sequence of events keeps the left and top edges in the range a later measurement needs, and the right and bottom edges inside the image |
| `Controller.LateLoadWellFormed` | index.ts:40-54 | The listeners are live before a late image load. Whatever events arrive first, the rectangle is well formed at the measurement and under every later event, for an image at least the minimum size |
| `Controller.IdleHoverIsIdempotent` | index.ts:122-124 | Hovering the same point twice while idle gives the same state and the same hint |
| `Controller.DownAnchorsAtLastHover` | index.ts:74-83 | A press that follows a hover at q anchors the drag at q, wherever the press lands |
| `Controller.MiddleStepsAreIncremental` | index.ts:91-105 | Two accepted middle steps add up to the distance from the first anchor; after a refused step, the next one is measured from the refused point |
| `Controller.RightEdgeScenarios` | index.ts:117-119 | On a 400-wide image, dragging the right edge to x = 450 stops it at 400. Dragging it to x = 5 with the left edge at 0 stops it at the minimum width, 10 |
| `Controller.RejectedMoveScenario` | index.ts:96-101 | A middle step that would push the left edge below 0 leaves the rectangle unchanged, advances the anchor, and gives no cursor and no suppression |
| `Crop.VanillaCrop.constructor` | index.ts:21-41 | Construction merges the options (a missing object counts as empty). All fields take their initial values. If the image is already complete, it is measured and, for an image at least the minimum size, the object is valid. Otherwise, for an image at least the minimum size and non-negative minimum sizes, the object is ready to be measured |
| `Crop.VanillaCrop.UpdateImage` | index.ts:57-62 | The fields change exactly as `Controller.Loaded` says. Validity is kept, and it is established when the left and top edges leave room for the minimum size, as on a late load |
| `Crop.VanillaCrop.OnDown` | index.ts:72-76 | The fields change exactly as `Controller.Down` says; validity and readiness to be measured are kept |
| `Crop.VanillaCrop.OnUp` | index.ts:78-80 | The fields change exactly as `Controller.Up` says; validity and readiness to be measured are kept |
| `Crop.VanillaCrop.OnHover` | index.ts:82-154 | The fields and the returned hint are exactly those of `Controller.Hover`, including the early return of a refused move; validity and readiness to be measured are kept |

## Left out

- Creating and styling the overlay element: `updateCrop`'s style writes and the `marginTop`, border and `userSelect` settings are presentation only.
- Registering the pointer and touch listeners: this is host wiring. Each handler is a method, and `Controller.Run` applies events in delivery order.
- `getRelativeCoords` and `getBoundingClientRect`: these are a layout query. All coordinates are taken as already relative to the image.
- The `clientX || pageX` fallback: it belongs to the browser event API.
- `event.preventDefault()` and the document-wide cursor write: the model returns them as `Hint` values (`suppress`, `cursor`) and does not apply them.
- `console.log` calls and the module and `window` export shims.
- JavaScript numbers: pixel values and options are unbounded integers. Fractional pixels, NaN, and falsy non-numbers (`null`, `false`, `""`) are not modelled. Only absent and 0 count as falsy in the merge.
- The image size and the options are read once, at construction, and kept in `const` fields. The source reads `image.offsetWidth`, `image.offsetHeight` and `this.options` afresh on every event. So a relayout that changes the image's rendered size, a change the caller makes later to the options object it shares, and an image whose size before loading differs from its loaded size are not modelled. The invariant lemmas hold only for a fixed size and fixed options.
- Options.MergeDefaults: the source writes the defaults into the caller's own options object, which the caller also sees. The model returns a new map, so that aliasing is not captured.
- The `throw` in `canResize` for a non-edge zone: it is a precondition that the zone is an edge, which every call site meets.
- The image-load listener: `UpdateImage` is the method a load event would call.
