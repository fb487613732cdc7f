/** The carousel with private drag fields, whose pointer-move handler delegates the
    clamp to UpdateTranslateX and asks the host for an animation frame instead of
    drawing at once. The host's frame queue is modelled by a count of pending frame
    callbacks; each callback, when the host runs it, draws with the translation
    current at that moment. */
module PrivateCarousel {
  import opened Bounds
  import opened DragMachine
  import opened Render

  class Carousel {
    const canvas: Canvas?
    const imagesSources: seq<string>
    var images: seq<LoadedImage>
    var startX: real
    var state: Phase
    var currentTranslateX: real
    var previousTranslateX: real
    /** Frame callbacks requested with requestAnimationFrame and not yet run. */
    var pendingFrames: nat

    /** The drag fields, read as one state value. */
    function Drag(): DragState
      reads this
    {
      DragState(state, startX, currentTranslateX, previousTranslateX)
    }

    constructor (elem: Canvas?, imagesSources: seq<string>)
      ensures canvas == elem && this.imagesSources == imagesSources && images == []
      ensures state == Idle && startX == 0.0 && currentTranslateX == 0.0 && previousTranslateX == 0.0
      ensures Drag() == DragMachine.Initial && pendingFrames == 0
    {
      canvas := elem;
      state := Idle;
      this.imagesSources := imagesSources;
      images := [];
      startX := 0.0;
      currentTranslateX := 0.0;
      previousTranslateX := 0.0;
      pendingFrames := 0;
    }

    /** Store the images once every source has loaded (the loading itself is not part
        of this model): one image per source, in the same order. */
    method SetImages(loaded: seq<LoadedImage>)
      requires |loaded| == |imagesSources|
      modifies this
      ensures images == loaded && Drag() == old(Drag()) && pendingFrames == old(pendingFrames)
    {
      images := loaded;
    }

    /** The furthest translation to the left, from the image count and canvas width. */
    function MaxTranslateX(): (m: real)
      requires canvas != null
      reads this
      ensures m <= 0.0 <==> |images| >= 1
      ensures |images| == 1 ==> m == 0.0
    {
      Bounds.MaxTranslateX(|images|, canvas.width as real)
    }

    /** Both translations in the legal range. */
    predicate TranslationsInRange()
      requires canvas != null
      reads this
    {
      InRange(Drag(), MaxTranslateX())
    }

    /** Draw one frame of the images, translated by `translateX`. */
    method Draw(translateX: real)
      modifies canvas
      ensures canvas != null ==>
                canvas.log == old(canvas.log)
                              + (if canvas.hasContext then FrameTrace(images, canvas.width, canvas.height, translateX) else [])
    {
      Render.Draw(canvas, images, translateX);
    }

    /** Pointer or touch down at `clientX` on a canvas whose left edge is at `left`. */
    method HandleMouseDown(clientX: real, left: real)
      requires canvas != null
      modifies this
      ensures Drag() == OnDown(old(Drag()), clientX, left)
      ensures images == old(images) && pendingFrames == old(pendingFrames)
      ensures old(TranslationsInRange()) ==> TranslationsInRange()
    {
      state := Dragging;
      startX := clientX - left;
    }

    /** Pointer or touch up: commit the current translation. */
    method HandleMouseUp()
      requires canvas != null
      modifies this
      ensures Drag() == OnUp(old(Drag()))
      ensures images == old(images) && pendingFrames == old(pendingFrames)
      ensures old(TranslationsInRange()) ==> TranslationsInRange()
    {
      state := Idle;
      previousTranslateX := currentTranslateX;
    }

    /** Pointer or touch move: ignored while idle; while dragging, set the translation
        by UpdateTranslateX and request one animation frame. Nothing is drawn yet. */
    method HandleMouseMove(clientX: real, left: real)
      requires state == Dragging ==> canvas != null
      modifies this
      ensures images == old(images)
      ensures old(state) == Idle ==> Drag() == old(Drag()) && pendingFrames == old(pendingFrames)
      ensures old(state) == Dragging ==>
                && currentTranslateX == UpdateTranslateX(clientX, old(startX), left, old(previousTranslateX), MaxTranslateX())
                && Drag() == OnMove(old(Drag()), clientX, left, MaxTranslateX())
                && pendingFrames == old(pendingFrames) + 1
      ensures old(state) == Dragging && |images| >= 1 ==> MaxTranslateX() <= currentTranslateX <= 0.0
      ensures canvas != null && old(TranslationsInRange()) ==> TranslationsInRange()
    {
      if state != Dragging {
        return;
      }
      currentTranslateX := UpdateTranslateX(clientX, startX, left, previousTranslateX, MaxTranslateX());
      pendingFrames := pendingFrames + 1;
    }

    /** The host runs one pending frame callback: it draws with the translation
        current now, which is the one computed by the latest move. */
    method RunAnimationFrame()
      requires pendingFrames > 0
      modifies this, canvas
      ensures pendingFrames == old(pendingFrames) - 1
      ensures Drag() == old(Drag()) && images == old(images)
      ensures canvas != null ==>
                canvas.log == old(canvas.log)
                              + (if canvas.hasContext
                                 then FrameTrace(images, canvas.width, canvas.height, currentTranslateX)
                                 else [])
    {
      pendingFrames := pendingFrames - 1;
      Draw(currentTranslateX);
    }
  }

  /** Example client, not part of the carousel: two moves before the next frame. Both frame callbacks draw the
      translation of the latest move. */
  method TwoMovesOneFrame()
  {
    var canvas := new Canvas(640, 400, true);
    var carousel := new Carousel(canvas, ["a.jpg", "b.jpg", "c.jpg"]);
    carousel.SetImages([Image(640.0, 400.0), Image(640.0, 400.0), Image(640.0, 400.0)]);
    carousel.HandleMouseDown(500.0, 0.0);
    carousel.HandleMouseMove(400.0, 0.0);
    carousel.HandleMouseMove(300.0, 0.0);
    assert carousel.pendingFrames == 2 && carousel.currentTranslateX == -200.0;
    ghost var frame := FrameTrace(carousel.images, 640, 400, -200.0);
    carousel.RunAnimationFrame();
    assert canvas.log == frame;
    carousel.RunAnimationFrame();
    assert carousel.pendingFrames == 0 && canvas.log == frame + frame;
  }
}
