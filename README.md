# Carousel filmstrip: a verified model

The carousel draws a list of images on a canvas as a horizontal filmstrip. Each image
is scaled to fit the canvas without being enlarged, centred in a canvas-sized slot, and
slot `i` sits `i` canvas widths to the right. Dragging with a mouse or a finger shifts
the whole strip horizontally. The shift is clamped so that the strip can move from the
first image (translation 0) to the last one (translation `maxTranslateX`).

The repository holds the carousel class twice:

- `src/carousel.ts` clamps the translation inline and redraws at once.
- `src/carousel/carousel.ts` keeps the drag fields private, delegates the clamp to
  `updateTranslateX` and redraws from a `requestAnimationFrame` callback.

This project models both, and the geometry helpers they share.

| file | module | models |
|---|---|---|
| geometry.dfy | `Geometry` | `scaleToFit`, `getImagePositionOnCanvas` and `Math.round` |
| bounds.dfy | `Bounds` | the drag offset, `updateTranslateX`, the inline two-`if` clamp, the `maxTranslateX` getter |
| drag_machine.dfy | `DragMachine` | the drag state `{state, startX, currentTranslateX, previousTranslateX}` as a value, one function per handler, and runs over event sequences |
| render.dfy | `Render` | the canvas and its 2D context as a log of commands; `draw` and `drawImages` |
| inline_carousel.dfy | `InlineCarousel` | the `Carousel` class of `src/carousel.ts` |
| private_carousel.dfy | `PrivateCarousel` | the `Carousel` class of `src/carousel/carousel.ts` |

Both classes are imperative, as in the source. Their handlers update the fields in
place. Each handler's postcondition says that the fields, read together by `Drag()`,
have made the matching `DragMachine` transition. The properties of whole event
sequences are then proved once, in `DragMachine`, about those transitions.

Numbers are exact reals. `Math.round` is `floor(x + 1/2)`, characterised as the nearest
whole number with halves rounded up. Canvas dimensions are positive whole numbers.
Image dimensions are positive reals.

The file defining `updateTranslateX`, `src/carousel/carousel.helpers.ts`, is not part
of this model. Its tests in `src/carousel/carousel.helpers.test.ts` and the inline clamp
at `src/carousel.ts:112-116` fix its behaviour whenever `maxTranslateX <= 0`, that is,
whenever there is at least one image. `Bounds.UpdateTranslateX` is modelled as an
inclusive clamp: an offset above 0 gives 0, else an offset below `maxTranslateX` gives
`maxTranslateX`, else the offset itself. When `maxTranslateX <= 0` it agrees with the
inline clamp (`Bounds.SequentialClampMatchesUpdateTranslateX`).

When `maxTranslateX > 0`, which happens only with no images, neither the tests nor the
inline clamp decide the result. The model assumes the order "`> 0` first, then
`< maxTranslateX`", which gives 0 for an offset above 0. The inline clamp tests in the
other order and gives `maxTranslateX` there instead (`Bounds.ClampsDifferOnEmptyRange`).

Two behaviours of the code worth knowing; the model follows the code:

- With no images the `maxTranslateX` getter gives `+canvasWidth`, so `maxTranslateX`
  is not always `<= 0` (`Bounds.MaxTranslateX`). The inline clamp then pins every
  move at that value (`DragMachine.NoImagesMoves`).
- `handleMouseUp` commits `previousTranslateX := currentTranslateX` on every up, even
  while idle. After any history that starts from the
  constructed state, an `up` while idle changes nothing, because the current and the
  committed translation are then equal, in both carousels
  (`DragMachine.UpWhileIdleChangesNothing`).

## Model

| member | source | states |
|---|---|---|
| `Geometry.Round` | src/carousel.helpers.ts:20-21 | `Math.round` gives a whole number within half a unit below or exactly half a unit above its argument (halves round up) |
| `Geometry.FitScale` | src/carousel.helpers.ts:14-17 | the scale is at most both axis ratios and equal to one of them, so it is their minimum |
| `Geometry.ScaleToFit` | src/carousel.helpers.ts:1-23 | never negative; an image strictly smaller on both axes keeps its size; any other has each axis rounded to the nearest whole number of its length times the minimum ratio |
| `Geometry.ScaleToFitWithinBounds` | src/carousel.helpers.ts:7-22 | with whole-number bounds the result never exceeds the box on either axis |
| `Geometry.ScaleToFitTouchesBound` | src/carousel.helpers.ts:14-22 | with whole-number bounds a scaled image equals the box on at least one axis |
| `Geometry.ScaleToFitExactFit` | src/carousel.helpers.ts:7-22 | an image equal to the box takes the scaling branch, with scale 1, and comes back unchanged |
| `Geometry.ScaleToFitIdempotent` | src/carousel.helpers.ts:7-22 | fitting a fitted image of positive size into the same whole-number box again returns it unchanged |
| `Geometry.ScaleToFitExamples` | src/carousel.test.ts:8-50 | the five tested fits: 300x200, 640x160, 240x400, 533x400 and 640x400 in a 640x400 box |
| `Geometry.ImagePositionOnCanvas` | src/carousel.helpers.ts:25-38 | the image's centre is the centre of its slot: `cw*index + cw/2` horizontally, `ch/2` vertically |
| `Geometry.PositionStep` | src/carousel.helpers.ts:32-35 | the next index is exactly one canvas width further right at the same height |
| `Geometry.PositionHeightIndependentOfIndex` | src/carousel.helpers.ts:35 | the vertical position does not depend on the index |
| `Geometry.PositionStrictlyIncreasing` | src/carousel.helpers.ts:32-34 | on a canvas of positive width a larger index lies strictly further right |
| `Geometry.PositionExamples` | src/carousel.test.ts:60-88 | the three tested positions: (220, 150), (860, 150) and (2750, 275) |
| `Bounds.MaxTranslateX` | src/carousel.ts:99-101 | equals `-(n-1)*width`; for positive width it is `<= 0` exactly when there is an image; 0 for one image; `+width` for none |
| `Bounds.MaxTranslateXShowsLastSlot` | src/carousel.ts:99-101 | fully scrolled, the last image's slot starts at the canvas' left edge |
| `Bounds.UpdateTranslateX` | src/carousel/carousel.helpers.test.ts:95-173 | for a non-empty range the result lies in `[max, 0]`; an offset inside the range is returned as it is; the result is always the offset, 0 or `max` |
| `Bounds.UpdateTranslateXIsNearest` | src/carousel/carousel.helpers.test.ts:95-173 | the result is the legal translation nearest to the offset (a clamp, not a wrap or a reset) |
| `Bounds.UpdateTranslateXMonotonic` | src/carousel/carousel.ts:114-120 | for a non-empty range, dragging further right never yields a translation further left |
| `Bounds.UpdateTranslateXExamples` | src/carousel/carousel.helpers.test.ts:99-169 | the five tested cases: -50, 0, -600, 0 and -600 |
| `Bounds.SingleImageTranslatesToZero` | src/carousel/carousel.ts:103-120 | with one image every translation is 0 |
| `Bounds.SequentialClamp` | src/carousel.ts:112-116 | the inline clamp never goes below `max`, never above 0 when `max <= 0`, and leaves an in-range value alone |
| `Bounds.SequentialClampMatchesUpdateTranslateX` | src/carousel/carousel.ts:114-120 | for `max <= 0` the inline two-`if` clamp applied to the drag offset equals `updateTranslateX` |
| `Bounds.ClampsDifferOnEmptyRange` | src/carousel.ts:114-116 | for `max > 0` the inline clamp always gives `max`, while `UpdateTranslateX`, in this model, gives 0 for an offset above 0 |
| `Bounds.NoImagesInlineClampGivesWidth` | src/carousel.ts:99-116 | with no images the inline clamp yields the canvas width |
| `Bounds.DragOffset` | src/carousel.ts:112 | computes the offset a move proposes: the pointer's travel since the drag started plus the committed translation; it carries no contract of its own, and `UpdateTranslateX` and `SequentialClamp` state what is done with it |
| `DragMachine.OnDown` | src/carousel.ts:78-90 | the down transition on the drag state; no contract of its own, its properties are `DownStartsDrag` and `DownReseeds` |
| `DragMachine.OnUp` | src/carousel.ts:92-97 | the up transition; no contract of its own, its properties are `UpCommits` and `UpIdempotent` |
| `DragMachine.OnMoveInline` | src/carousel.ts:103-117 | the move transition of the inline carousel, through `SequentialClamp`; no contract of its own, its properties are `MoveWhileIdleIgnored`, `StepKeepsRange` and `RunInlineMatchesRun` |
| `DragMachine.OnMove` | src/carousel/carousel.ts:107-120 | the move transition of the delegating carousel, through `UpdateTranslateX`; no contract of its own, its properties are `MoveWhileIdleIgnored` and `MoveWhileDragging` |
| `DragMachine.StepInline` | src/carousel.ts:130-138 | dispatches one down, move or up event to the inline carousel's handler, as the listeners do; no contract of its own |
| `DragMachine.Step` | src/carousel/carousel.ts:134-142 | dispatches one event to the delegating carousel's handler; no contract of its own |
| `DragMachine.RunInline` | src/carousel.ts:130-138 | the inline carousel's state after a sequence of events, handled in order; no contract of its own, its properties are the `Run…` lemmas below |
| `DragMachine.Run` | src/carousel/carousel.ts:134-142 | the delegating carousel's state after a sequence of events; no contract of its own, its properties are the `Run…` lemmas below |
| `DragMachine.StepKeepsCommitted` | src/carousel.ts:92-119 | every event keeps "idle implies current equals committed" |
| `DragMachine.RunKeepsCommitted` | src/carousel.ts:78-119 | any event sequence keeps "idle implies current equals committed" |
| `DragMachine.UpWhileIdleChangesNothing` | src/carousel.ts:92-97 | after any history from the constructed state, an `up` while idle leaves the state as it is, in both carousels |
| `DragMachine.DownStartsDrag` | src/carousel.ts:78-90 | down sets dragging and `startX = clientX - left`, and leaves both translations unchanged |
| `DragMachine.DownReseeds` | src/carousel.ts:78-90 | down is unguarded: a second down replaces the first one's start |
| `DragMachine.UpCommits` | src/carousel.ts:92-97 | up sets idle, commits `previous := current`, and leaves `current` and `startX` unchanged |
| `DragMachine.UpIdempotent` | src/carousel.ts:92-97 | a second up changes nothing more |
| `DragMachine.MoveWhileIdleIgnored` | src/carousel.ts:104 | a move while idle leaves the whole state unchanged, in both carousels |
| `DragMachine.MoveWhileDragging` | src/carousel/carousel.ts:114-120 | a dragging move changes only `current`, and for a non-empty range (`max <= 0`) puts it in `[max, 0]` |
| `DragMachine.PreviousChangesOnlyOnUp` | src/carousel.ts:78-119 | down and move never change the committed translation |
| `DragMachine.StepKeepsRange` | src/carousel.ts:78-119 | every event keeps both translations in `[max, 0]` |
| `DragMachine.RunKeepsRange` | src/carousel.ts:78-119 | any event sequence keeps both translations in `[max, 0]`, in both carousels |
| `DragMachine.InRangeAfterAnyHistory` | src/carousel.ts:17-23 | from the constructed state, with at least one image, both translations stay in `[max, 0]` after any events |
| `DragMachine.RunInlineMatchesRun` | src/carousel/carousel.ts:107-123 | for `max <= 0` both carousels go through the same states for any event sequence |
| `DragMachine.NoJump` | src/carousel.ts:89-116 | after an up, a down and a move at the same point draw exactly the committed translation |
| `DragMachine.NoJumpAfterAnyHistory` | src/carousel.ts:17-116 | the same, after any history from the constructed state with at least one image |
| `DragMachine.SingleImageMovesToZero` | src/carousel.ts:99-116 | with one image every dragging move yields translation 0, in both carousels |
| `DragMachine.NoImagesMoves` | src/carousel.ts:99-116 | with no images the inline carousel's move yields the canvas width; in this model the other yields 0 for a rightward offset |
| `Render.ImageCommand` | src/carousel.ts:50-55 | an image's draw call has the size `scaleToFit` gives it and lies inside its slot: no larger than the canvas, centred, within the slot's left and right edges |
| `Render.ImagesTrace` | src/carousel.ts:50-55 | one draw call per image, in index order, each for that image, at its `scaleToFit` size and inside that image's slot |
| `Render.FrameTrace` | src/carousel.ts:62-75 | a frame clears the whole canvas, fills it black, saves, translates by `(translateX, 0)`, draws the images and restores, in that order; it saves and translates exactly once |
| `Render.DrawImages` | src/carousel.ts:44-56 | appends the images' draw calls to the context; nothing without a canvas or a context |
| `Render.Draw` | src/carousel.ts:58-76 | appends one whole frame to the context; nothing without a canvas or a context |
| `Render.Canvas.constructor` | src/carousel.ts:4-5 | a canvas with the given dimensions and context, on which nothing has been drawn yet |
| `InlineCarousel.Carousel.constructor` | src/carousel.ts:13-24 | starts in `DragMachine.Initial`: idle, both translations and `startX` 0, no images |
| `InlineCarousel.Carousel.SetImages` | src/carousel.ts:37-42 | stores the loaded images and leaves the drag state alone |
| `InlineCarousel.Carousel.MaxTranslateX` | src/carousel.ts:99-101 | `<= 0` exactly when there is an image; 0 for one image |
| `InlineCarousel.Carousel.Draw` | src/carousel.ts:58-76 | appends one frame at the given translation |
| `InlineCarousel.Carousel.HandleMouseDown` | src/carousel.ts:78-90 | performs `OnDown`; keeps the translations in range |
| `InlineCarousel.Carousel.HandleMouseUp` | src/carousel.ts:92-97 | performs `OnUp`; keeps the translations in range |
| `InlineCarousel.Carousel.HandleMouseMove` | src/carousel.ts:103-119 | idle: changes nothing and draws nothing; dragging: performs `OnMoveInline`, lands in `[max, 0]` when there is an image, and draws one frame at the new translation |
| `PrivateCarousel.Carousel.constructor` | src/carousel/carousel.ts:13-28 | starts in `DragMachine.Initial`: idle, both translations and `startX` 0, no images, no pending frame |
| `PrivateCarousel.Carousel.SetImages` | src/carousel/carousel.ts:41-46 | stores the loaded images and leaves the drag state alone |
| `PrivateCarousel.Carousel.MaxTranslateX` | src/carousel/carousel.ts:103-105 | `<= 0` exactly when there is an image; 0 for one image |
| `PrivateCarousel.Carousel.Draw` | src/carousel/carousel.ts:62-80 | appends one frame at the given translation |
| `PrivateCarousel.Carousel.HandleMouseDown` | src/carousel/carousel.ts:82-94 | performs `OnDown`; keeps the translations in range |
| `PrivateCarousel.Carousel.HandleMouseUp` | src/carousel/carousel.ts:96-101 | performs `OnUp`; keeps the translations in range |
| `PrivateCarousel.Carousel.HandleMouseMove` | src/carousel/carousel.ts:107-123 | idle: changes nothing and requests no frame; dragging: sets `current` by `UpdateTranslateX`, lands in `[max, 0]` when there is an image, and requests exactly one frame |
| `PrivateCarousel.Carousel.RunAnimationFrame` | src/carousel/carousel.ts:122 | a frame callback draws one frame at the translation current when it runs, and changes no drag field |

## Left out

- Image loading (`loadImage`, the `Promise.all` in `setImages`) is asynchronous and uses DOM `Image`. `SetImages` takes the loaded images as a parameter; a failed load is not modelled.
- `init`/`initialize` are left out. This covers the listener registration, the "Failed to find canvas element!" error and the first `draw()` with its default translation of 0.
- Cursor style changes are DOM cosmetics.
- Telling mouse from touch events, and `getBoundingClientRect`, are not modelled. The handlers take `clientX` and the canvas' `left` as plain numbers.
- IEEE-754 floating point is not modelled: numbers are exact reals.
- `Bounds.UpdateTranslateX`, `Bounds.ClampsDifferOnEmptyRange` and `DragMachine.NoImagesMoves`: what the delegating carousel does for an empty range (`maxTranslateX > 0`, no images) is an assumption about a helper whose source is not part of this model. For that case the model only fixes the order of the two tests; the result is not promised by the source.
- Canvases of width or height 0, and images with a non-positive side, are excluded by the types `Pixels` and `LoadedImage`. The reason is Dafny's: its real division needs a non-zero divisor. In the source a zero image side gives an infinite ratio that `Math.min` drops, and a zero canvas side gives scale 0, so such inputs still have a result (for example `scaleToFit(0, 500, 640, 400)` gives `{0, 400}`). That result is not modelled.
- Canvas resizing is not modelled: the canvas dimensions are constants.
- `InlineCarousel.Carousel.HandleMouseDown`, `InlineCarousel.Carousel.HandleMouseUp`, `PrivateCarousel.Carousel.HandleMouseDown` and `PrivateCarousel.Carousel.HandleMouseUp` require a canvas. On a missing canvas the source updates `state` and then throws a `TypeError`; that partial update is not modelled.
- `InlineCarousel.Carousel.HandleMouseMove` and `PrivateCarousel.Carousel.HandleMouseMove` require a canvas while dragging, for the same reason.
- `PrivateCarousel.Carousel.RunAnimationFrame`: the timing of `requestAnimationFrame` is up to the host. The model counts pending callbacks, and the caller decides when the host runs one.
- The `context` field is folded into the canvas, as its `hasContext` flag.
