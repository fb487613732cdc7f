/** The carousel whose pointer-move handler clamps the translation inline and redraws
    straight away. Its four drag fields are updated in place by the event handlers;
    `Drag()` reads them as a DragMachine state, and each handler is proved to perform
    the matching DragMachine transition. */
module InlineCarousel {
  import opened Bounds
  import opened DragMachine
  import opened Render

  class Carousel {
    /** The canvas element, possibly missing; it is never reassigned. */
    const canvas: Canvas?
    const imagesSources: seq<string>
    var images: seq<LoadedImage>
    var startX: real
    var state: Phase
    var currentTranslateX: real
    var previousTranslateX: real

    /** The drag fields, read as one state value. */
    function Drag(): DragState
      reads this
    {
      DragState(state, startX, currentTranslateX, previousTranslateX)
    }

    constructor (elem: Canvas?, imagesSources: seq<string>)
      ensures canvas == elem && this.imagesSources == imagesSources && images == []
      ensures state == Idle && startX == 0.0 && currentTranslateX == 0.0 && previousTranslateX == 0.0
      ensures Drag() == DragMachine.Initial
    {
      canvas := elem;
      state := Idle;
      this.imagesSources := imagesSources;
      images := [];
      startX := 0.0;
      currentTranslateX := 0.0;
      previousTranslateX := 0.0;
    }

    /** Store the images once every source has loaded (the loading itself is not part
        of this model): one image per source, in the same order. */
    method SetImages(loaded: seq<LoadedImage>)
      requires |loaded| == |imagesSources|
      modifies this
      ensures images == loaded && Drag() == old(Drag())
    {
      images := loaded;
    }

    /** The furthest translation to the left, from the image count and canvas width. */
    function MaxTranslateX(): (m: real)
      requires canvas != null
      reads this
      ensures m <= 0.0 <==> |images| >= 1
      ensures |images| == 1 ==> m == 0.0
    {
      Bounds.MaxTranslateX(|images|, canvas.width as real)
    }

    /** Both translations in the legal range. */
    predicate TranslationsInRange()
      requires canvas != null
      reads this
    {
      InRange(Drag(), MaxTranslateX())
    }

    /** Draw one frame of the images, translated by `translateX`. */
    method Draw(translateX: real)
      modifies canvas
      ensures canvas != null ==>
                canvas.log == old(canvas.log)
                              + (if canvas.hasContext then FrameTrace(images, canvas.width, canvas.height, translateX) else [])
    {
      Render.Draw(canvas, images, translateX);
    }

    /** Pointer or touch down at `clientX` on a canvas whose left edge is at `left`. */
    method HandleMouseDown(clientX: real, left: real)
      requires canvas != null
      modifies this
      ensures Drag() == OnDown(old(Drag()), clientX, left)
      ensures images == old(images)
      ensures old(TranslationsInRange()) ==> TranslationsInRange()
    {
      state := Dragging;
      startX := clientX - left;
    }

    /** Pointer or touch up: commit the current translation. */
    method HandleMouseUp()
      requires canvas != null
      modifies this
      ensures Drag() == OnUp(old(Drag()))
      ensures images == old(images)
      ensures old(TranslationsInRange()) ==> TranslationsInRange()
    {
      state := Idle;
      previousTranslateX := currentTranslateX;
    }

    /** Pointer or touch move: ignored while idle; while dragging, recompute the
        translation, clamp it in two steps and redraw. */
    method HandleMouseMove(clientX: real, left: real)
      requires state == Dragging ==> canvas != null
      modifies this, canvas
      ensures images == old(images)
      ensures old(state) == Idle ==> Drag() == old(Drag()) && (canvas != null ==> canvas.log == old(canvas.log))
      ensures old(state) == Dragging ==>
                && Drag() == OnMoveInline(old(Drag()), clientX, left, MaxTranslateX())
                && canvas.log == old(canvas.log)
                                 + (if canvas.hasContext
                                    then FrameTrace(images, canvas.width, canvas.height, currentTranslateX)
                                    else [])
      ensures old(state) == Dragging && |images| >= 1 ==> MaxTranslateX() <= currentTranslateX <= 0.0
      ensures canvas != null && old(TranslationsInRange()) ==> TranslationsInRange()
    {
      if state != Dragging {
        return;
      }
      currentTranslateX := clientX - startX - left + previousTranslateX;
      if currentTranslateX > 0.0 {
        currentTranslateX := 0.0;
      }
      if currentTranslateX < MaxTranslateX() {
        currentTranslateX := MaxTranslateX();
      }
      Draw(currentTranslateX);
    }
  }

  /** Example client, not part of the carousel: two drags against a two-image strip on a 640 x 400 canvas. The second
      drag starts from where the first was released, without a jump. */
  method TwoDrags()
  {
    var canvas := new Canvas(640, 400, true);
    var carousel := new Carousel(canvas, ["a.jpg", "b.jpg"]);
    carousel.SetImages([Image(800.0, 600.0), Image(300.0, 200.0)]);
    assert carousel.MaxTranslateX() == -640.0;
    carousel.HandleMouseDown(500.0, 20.0);
    carousel.HandleMouseMove(200.0, 20.0);
    assert carousel.currentTranslateX == -300.0;
    carousel.HandleMouseMove(-900.0, 20.0);
    assert carousel.currentTranslateX == -640.0;
    carousel.HandleMouseUp();
    assert carousel.previousTranslateX == -640.0;
    carousel.HandleMouseMove(0.0, 20.0);
    assert carousel.currentTranslateX == -640.0;
    carousel.HandleMouseDown(100.0, 20.0);
    carousel.HandleMouseMove(100.0, 20.0);
    assert carousel.currentTranslateX == -640.0;
  }
}
