/** The legal horizontal travel of the filmstrip and the clamp that keeps the
    translation inside it. The strip may move from 0 (first image in view) down to
    `MaxTranslateX` (last image in view). */
module Bounds {

  /** Translation a drag proposes before clamping: the pointer's travel since the
      drag started, on top of the translation committed by the previous drag. */
  function DragOffset(clientX: real, startX: real, left: real, previousTranslateX: real): real {
    clientX - startX - left + previousTranslateX
  }

  /** The furthest the strip may be translated to the left: the negated width of all
      images but one, so that fully scrolled the last slot starts at the canvas' left edge. */
  function MaxTranslateX(imageCount: nat, canvasWidth: real): (m: real)
    ensures m == -((imageCount as real) - 1.0) * canvasWidth
    ensures canvasWidth > 0.0 ==> (m <= 0.0 <==> imageCount >= 1)
    ensures imageCount == 1 ==> m == 0.0
    ensures imageCount == 0 ==> m == canvasWidth
  {
    -1.0 * ((imageCount as real * canvasWidth) - canvasWidth)
  }

  /** Fully scrolled, the slot of the last image begins at the canvas' left edge. */
  lemma MaxTranslateXShowsLastSlot(imageCount: nat, canvasWidth: real)
    requires imageCount >= 1
    ensures canvasWidth * (imageCount - 1) as real + MaxTranslateX(imageCount, canvasWidth) == 0.0
  {
  }

  /** The translation after a drag move: the proposed offset, saturated at 0 above
      and at `maxTranslateX` below, both bounds inclusive. The test for `> 0` comes
      first; for a non-empty range the order makes no difference, and for an empty one
      (`maxTranslateX > 0`) it is this model's choice. */
  function UpdateTranslateX(clientX: real, startX: real, left: real, previousTranslateX: real,
                            maxTranslateX: real): (r: real)
    ensures maxTranslateX <= 0.0 ==> maxTranslateX <= r <= 0.0
    ensures var next := DragOffset(clientX, startX, left, previousTranslateX);
            maxTranslateX <= next <= 0.0 ==> r == next
    ensures var next := DragOffset(clientX, startX, left, previousTranslateX);
            r == next || r == 0.0 || r == maxTranslateX
  {
    var next := DragOffset(clientX, startX, left, previousTranslateX);
    if next > 0.0 then 0.0
    else if next < maxTranslateX then maxTranslateX
    else next
  }

  /** Distance between two points of the real line. */
  function Distance(a: real, b: real): real {
    if a <= b then b - a else a - b
  }

  /** Among all legal translations, UpdateTranslateX picks the one nearest to the
      proposed offset. */
  lemma UpdateTranslateXIsNearest(clientX: real, startX: real, left: real, previousTranslateX: real,
                                  maxTranslateX: real, y: real)
    requires maxTranslateX <= y <= 0.0
    ensures var next := DragOffset(clientX, startX, left, previousTranslateX);
            Distance(UpdateTranslateX(clientX, startX, left, previousTranslateX, maxTranslateX), next)
            <= Distance(y, next)
  {
  }

  /** Dragging further right never moves the strip further left. */
  lemma UpdateTranslateXMonotonic(clientX1: real, clientX2: real, startX: real, left: real,
                                  previousTranslateX: real, maxTranslateX: real)
    requires maxTranslateX <= 0.0 && clientX1 <= clientX2
    ensures UpdateTranslateX(clientX1, startX, left, previousTranslateX, maxTranslateX)
            <= UpdateTranslateX(clientX2, startX, left, previousTranslateX, maxTranslateX)
  {
  }

  /** The scenarios the repository's tests check. */
  lemma UpdateTranslateXExamples()
    ensures UpdateTranslateX(300.0, 100.0, 50.0, -200.0, -500.0) == -50.0
    ensures UpdateTranslateX(600.0, 100.0, 50.0, 0.0, -500.0) == 0.0
    ensures UpdateTranslateX(100.0, 500.0, 50.0, -300.0, -600.0) == -600.0
    ensures UpdateTranslateX(150.0, 100.0, 50.0, 0.0, -400.0) == 0.0
    ensures UpdateTranslateX(100.0, 500.0, 50.0, -250.0, -600.0) == -600.0
  {
  }

  /** With a single image there is nowhere to scroll: every translation is 0. */
  lemma SingleImageTranslatesToZero(clientX: real, startX: real, left: real, previousTranslateX: real,
                                    canvasWidth: real)
    ensures UpdateTranslateX(clientX, startX, left, previousTranslateX, MaxTranslateX(1, canvasWidth)) == 0.0
  {
  }

  /** The clamp as it is written inline in the first carousel: first cap the value
      at 0, then raise it to `maxTranslateX`. */
  function SequentialClamp(next: real, maxTranslateX: real): (r: real)
    ensures maxTranslateX <= r
    ensures maxTranslateX <= 0.0 ==> r <= 0.0
    ensures maxTranslateX <= next <= 0.0 ==> r == next
  {
    var capped := if next > 0.0 then 0.0 else next;
    if capped < maxTranslateX then maxTranslateX else capped
  }

  /** Whenever the range is not empty, the inline two-step clamp and UpdateTranslateX
      agree. */
  lemma SequentialClampMatchesUpdateTranslateX(clientX: real, startX: real, left: real,
                                               previousTranslateX: real, maxTranslateX: real)
    requires maxTranslateX <= 0.0
    ensures SequentialClamp(DragOffset(clientX, startX, left, previousTranslateX), maxTranslateX)
            == UpdateTranslateX(clientX, startX, left, previousTranslateX, maxTranslateX)
  {
  }

  /** Above an empty range the two clamps part: the inline one returns the lower bound,
      while this model's UpdateTranslateX returns 0 for an offset above 0. */
  lemma ClampsDifferOnEmptyRange(clientX: real, startX: real, left: real,
                                 previousTranslateX: real, maxTranslateX: real)
    requires maxTranslateX > 0.0
    ensures SequentialClamp(DragOffset(clientX, startX, left, previousTranslateX), maxTranslateX) == maxTranslateX
    ensures DragOffset(clientX, startX, left, previousTranslateX) > 0.0 ==>
              UpdateTranslateX(clientX, startX, left, previousTranslateX, maxTranslateX) == 0.0
  {
  }

  /** Without images the inline clamp pins every move at one canvas width to the right. */
  lemma NoImagesInlineClampGivesWidth(next: real, canvasWidth: real)
    requires canvasWidth > 0.0
    ensures SequentialClamp(next, MaxTranslateX(0, canvasWidth)) == canvasWidth
  {
  }
}
