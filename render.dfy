/** Drawing one frame of the filmstrip. The 2D rendering context is modelled by the
    list of commands issued on it; images by their natural size. */
module Render {
  import opened Geometry

  /** A canvas dimension in pixels. */
  type Pixels = n: nat | n > 0 witness 1

  /** A decoded image, known by its natural width and height. */
  datatype Image = Image(width: real, height: real)

  /** An image as loading delivers it: both dimensions positive. */
  type LoadedImage = i: Image | i.width > 0.0 && i.height > 0.0 witness Image(1.0, 1.0)

  /** The calls the carousel makes on its rendering context. */
  datatype Command =
    | ClearRect(x: real, y: real, width: real, height: real)
    | SetFillStyle(color: string)
    | FillRect(x: real, y: real, width: real, height: real)
    | Save
    | Translate(dx: real, dy: real)
    | DrawImage(image: Image, x: real, y: real, width: real, height: real)
    | Restore

  /** A canvas element with fixed dimensions, whether asking it for a 2D context
      succeeded, and the commands issued on that context so far. */
  class Canvas {
    const width: Pixels
    const height: Pixels
    const hasContext: bool
    var log: seq<Command>

    constructor (width: Pixels, height: Pixels, hasContext: bool)
      ensures this.width == width && this.height == height && this.hasContext == hasContext
      ensures log == []
    {
      this.width := width;
      this.height := height;
      this.hasContext := hasContext;
      log := [];
    }
  }

  /** A drawn image fits its slot: the canvas-sized cell `index` canvas widths to the
      right of the origin, centred in it and no larger than it. */
  predicate InSlot(c: Command, index: nat, canvasWidth: Pixels, canvasHeight: Pixels) {
    var slotLeft := canvasWidth as real * index as real;
    && c.DrawImage?
    && 0.0 <= c.width <= canvasWidth as real && 0.0 <= c.height <= canvasHeight as real
    && slotLeft <= c.x && c.x + c.width <= slotLeft + canvasWidth as real
    && 0.0 <= c.y && c.y + c.height <= canvasHeight as real
    && c.x + c.width / 2.0 == slotLeft + canvasWidth as real / 2.0
    && c.y + c.height / 2.0 == canvasHeight as real / 2.0
  }

  /** The draw call for image number `index`: scaled to fit the canvas, placed in its slot. */
  function ImageCommand(image: LoadedImage, index: nat, canvasWidth: Pixels, canvasHeight: Pixels): (c: Command)
    ensures c.DrawImage? && c.image == image
    ensures c.width == ScaleToFit(image.width, image.height, canvasWidth as real, canvasHeight as real).width
    ensures c.height == ScaleToFit(image.width, image.height, canvasWidth as real, canvasHeight as real).height
    ensures InSlot(c, index, canvasWidth, canvasHeight)
  {
    var d := ScaleToFit(image.width, image.height, canvasWidth as real, canvasHeight as real);
    ScaleToFitWithinBounds(image.width, image.height, canvasWidth, canvasHeight);
    var p := ImagePositionOnCanvas(d.width, d.height, index, canvasWidth as real, canvasHeight as real);
    DrawImage(image, p.x, p.y, d.width, d.height)
  }

  /** The draw calls for all images, in index order. */
  function ImagesTrace(images: seq<LoadedImage>, canvasWidth: Pixels, canvasHeight: Pixels): (r: seq<Command>)
    ensures |r| == |images|
    ensures forall i :: 0 <= i < |r| ==> r[i].DrawImage? && r[i].image == images[i]
    ensures forall i :: 0 <= i < |r| ==>
              var fitted := ScaleToFit(images[i].width, images[i].height, canvasWidth as real, canvasHeight as real);
              r[i].width == fitted.width && r[i].height == fitted.height
    ensures forall i :: 0 <= i < |r| ==> InSlot(r[i], i, canvasWidth, canvasHeight)
  {
    seq(|images|, i requires 0 <= i < |images| => ImageCommand(images[i], i, canvasWidth, canvasHeight))
  }

  /** One frame: clear and blacken the whole canvas, shift everything by
      `translateX`, draw the images, undo the shift. */
  function FrameTrace(images: seq<LoadedImage>, canvasWidth: Pixels, canvasHeight: Pixels,
                      translateX: real): (r: seq<Command>)
    ensures |r| == |images| + 6
    ensures r[0] == ClearRect(0.0, 0.0, canvasWidth as real, canvasHeight as real)
    ensures r[1..5] == [SetFillStyle("#000"), FillRect(0.0, 0.0, canvasWidth as real, canvasHeight as real),
                        Save, Translate(translateX, 0.0)]
    ensures r[5..|r| - 1] == ImagesTrace(images, canvasWidth, canvasHeight)
    ensures r[|r| - 1] == Restore
    ensures forall k :: 0 <= k < |r| && r[k].Translate? ==> k == 4 && r[k] == Translate(translateX, 0.0)
    ensures forall k :: 0 <= k < |r| && r[k].Save? ==> k == 3
  {
    var w, h := canvasWidth as real, canvasHeight as real;
    [ClearRect(0.0, 0.0, w, h), SetFillStyle("#000"), FillRect(0.0, 0.0, w, h), Save, Translate(translateX, 0.0)]
    + ImagesTrace(images, canvasWidth, canvasHeight)
    + [Restore]
  }

  /** Issue the draw call of every image, in index order; nothing without a canvas or
      a context. */
  method DrawImages(canvas: Canvas?, images: seq<LoadedImage>)
    modifies canvas
    ensures canvas != null ==>
              canvas.log == old(canvas.log) + (if canvas.hasContext then ImagesTrace(images, canvas.width, canvas.height) else [])
  {
    if canvas == null || !canvas.hasContext {
      return;
    }
    ghost var trace := ImagesTrace(images, canvas.width, canvas.height);
    var i := 0;
    while i < |images|
      invariant 0 <= i <= |images|
      invariant canvas.log == old(canvas.log) + trace[..i]
    {
      canvas.log := canvas.log + [ImageCommand(images[i], i, canvas.width, canvas.height)];
      assert trace[..i + 1] == trace[..i] + [trace[i]];
      i := i + 1;
    }
    assert trace[..|images|] == trace;
  }

  /** Draw one frame translated by `translateX`; nothing without a canvas or a context. */
  method Draw(canvas: Canvas?, images: seq<LoadedImage>, translateX: real)
    modifies canvas
    ensures canvas != null ==>
              canvas.log == old(canvas.log)
                            + (if canvas.hasContext then FrameTrace(images, canvas.width, canvas.height, translateX) else [])
  {
    if canvas == null || !canvas.hasContext {
      return;
    }
    var w, h := canvas.width as real, canvas.height as real;
    canvas.log := canvas.log + [ClearRect(0.0, 0.0, w, h)];
    canvas.log := canvas.log + [SetFillStyle("#000"), FillRect(0.0, 0.0, w, h)];
    canvas.log := canvas.log + [Save];
    canvas.log := canvas.log + [Translate(translateX, 0.0)];
    DrawImages(canvas, images);
    canvas.log := canvas.log + [Restore];
  }
}
