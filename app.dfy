/**
 * The state the watermark window keeps between user actions, and the
 * parameters it assembles for drawing the watermark text.  Widgets, file
 * dialogs and PIL calls are outside the model: image dimensions, slider
 * readings and dialog answers arrive as parameters.
 */
module WatermarkApp {
  import opened Outcomes
  import opened Layout
  import opened PyNumbers
  import opened Scaling
  import opened Fonts

  /** An RGB triple as the colour chooser returns it. */
  datatype Rgb = Rgb(r: int, g: int, b: int)

  /** `self.selected_color`: never set, set to None by a cancelled dialog, or a colour. */
  datatype ColorChoice = Unset | Cancelled | Chosen(rgb: Rgb)

  /** The fill passed to the text drawing call: the colour plus the alpha slider reading. */
  datatype Rgba = Rgba(r: int, g: int, b: int, a: int)

  /** Everything the text drawing call receives. */
  datatype TextDraw = TextDraw(
    overlay: Size,     // size of the transparent overlay: the original image's
    x: int, y: int,    // text origin
    text: string,
    fontFile: string,
    fontSize: int,
    fill: Rgba)

  /** The exception `add_watermark_text` raises before anything is drawn. */
  datatype WatermarkError =
    | ResizeRefused    // the preview resize was asked for a zero height or width
    | FontUnavailable  // `font_dict.get` gave None, which the font loader rejects
    | NoResizedSize    // `self.new_h` was never set: no image has needed resizing yet
    | NoColorChosen    // `self.selected_color` was never set
    | ColorCancelled   // the colour dialog was cancelled, so the fill cannot be unpacked

  /**
   * The parameter assembly of `add_watermark_text`, in Python's evaluation
   * order: the font is loaded first, then the origin tuple is built, then the
   * fill.  The origin is `(new_h, new_w)`: the height of the last resize is
   * used as x and its width as y.
   */
  function WatermarkDraw(catalog: map<string, string>, fontName: string, resized: Option<Size>,
                         color: ColorChoice, image: Size, text: string,
                         sizeReading: real, alphaReading: real): (r: Result<TextDraw, WatermarkError>)
    ensures r.Failure? <==> fontName !in catalog || resized.None? || !color.Chosen?
    ensures fontName !in catalog ==> r == Failure(FontUnavailable)
    ensures fontName in catalog && resized.None? ==> r == Failure(NoResizedSize)
    ensures fontName in catalog && resized.Some? && color.Unset? ==> r == Failure(NoColorChosen)
    ensures fontName in catalog && resized.Some? && color.Cancelled? ==> r == Failure(ColorCancelled)
    ensures r.Success? ==>
      && r.value.overlay == image
      && r.value.x == resized.value.h && r.value.y == resized.value.w
      && r.value.text == text
      && r.value.fontFile == catalog[fontName]
      && r.value.fontSize == Trunc(sizeReading)
      && r.value.fill == Rgba(color.rgb.r, color.rgb.g, color.rgb.b, Trunc(alphaReading))
  {
    match FontFile(catalog, fontName)
    case None => Failure(FontUnavailable)
    case Some(file) =>
      match resized
      case None => Failure(NoResizedSize)
      case Some(origin) =>
        match color
        case Unset => Failure(NoColorChosen)
        case Cancelled => Failure(ColorCancelled)
        case Chosen(c) =>
          Success(TextDraw(image, origin.h, origin.w, text, file, Trunc(sizeReading),
                           Rgba(c.r, c.g, c.b, Trunc(alphaReading))))
  }

  /** Any reading of the font-size slider gives a whole size within the slider's range. */
  lemma FontSizeWithinSlider(reading: real)
    requires FontSizeMin <= reading <= FontSizeMax
    ensures 40 <= Trunc(reading) <= 1000
    ensures Trunc(reading) as real <= reading < Trunc(reading) as real + 1.0
  {
  }

  /** The alpha sent with the fill is the slider percentage, so at most 100 of 255. */
  lemma AlphaWithinSlider(reading: real)
    requires AlphaMin <= reading <= AlphaMax
    ensures 0 <= Trunc(reading) <= 100 < 255
  {
  }

  /**
   * When the origin comes from a resize, it lies within the canvas-sized box
   * and within the original image's dimensions read the same way round.
   */
  lemma DrawOriginFromResize(catalog: map<string, string>, fontName: string, last: Size,
                             color: ColorChoice, image: Size, text: string,
                             sizeReading: real, alphaReading: real)
    requires Overflows(last.h, last.w)
    requires fontName in catalog && color.Chosen?
    ensures
      var r := WatermarkDraw(catalog, fontName, Some(ScaledSize(last.h, last.w)), color, image,
                             text, sizeReading, alphaReading);
      && r.Success?
      && 0 <= r.value.x <= CanvasHeight && 0 <= r.value.y <= CanvasWidth
      && r.value.x <= last.h && r.value.y <= last.w
      && (HeightRatio(last.h) >= WidthRatio(last.w) ==> r.value.x == CanvasHeight)
  {
    ScaledNeverUpscales(last.h, last.w);
    ScaledBindingAxis(last.h, last.w);
  }

  /** The sliders' preset readings give font size 90 and alpha 50, both within range. */
  lemma DefaultSliderReadings()
    ensures Trunc(FontSizeDefault) == 90 && FontSizeMin <= FontSizeDefault <= FontSizeMax
    ensures Trunc(AlphaDefault) == 50 && AlphaMin <= AlphaDefault <= AlphaMax
  {
  }

  /** The window's state as far as sizing and watermark parameters go. */
  class App {
    /** Size of the image most recently shown. */
    var origH: nat
    var origW: nat
    /** Size of the most recent resize; only meaningful once `hasNewSize` holds. */
    var newH: nat
    var newW: nat
    /** Whether the attributes `new_h` and `new_w` exist yet. */
    var hasNewSize: bool
    /** The original size that the most recent resize started from. */
    ghost var resizedFrom: Size
    /** Size of the photo image placed on the canvas (0 by 0 before any). */
    var displayH: nat
    var displayW: nat
    var selectedColor: ColorChoice
    var fontDict: map<string, string>
    var fontOptions: seq<string>

    /** The stored resize result is the sizing rule applied to an overflowing image,
        and whatever is on the canvas fits it. */
    ghost predicate Valid()
      reads this
      ensures Valid() && hasNewSize ==> newH <= CanvasHeight && newW <= CanvasWidth
    {
      && (hasNewSize ==>
            Overflows(resizedFrom.h, resizedFrom.w)
            && Size(newH, newW) == ScaledSize(resizedFrom.h, resizedFrom.w))
      && displayH <= CanvasHeight && displayW <= CanvasWidth
    }

    /** `(new_h, new_w)` if it exists. */
    function LastResize(): (r: Option<Size>)
      reads this
      ensures r.Some? <==> hasNewSize
      ensures r.Some? ==> r.value == Size(newH, newW)
    {
      if hasNewSize then Some(Size(newH, newW)) else None
    }

    /** The window before any image, colour or font selection. */
    constructor ()
      ensures Valid()
      ensures !hasNewSize && selectedColor == Unset
      ensures displayH == 0 && displayW == 0
      ensures fontDict == map[] && fontOptions == []
    {
      origH, origW := 0, 0;
      newH, newW := 0, 0;
      hasNewSize := false;
      resizedFrom := Size(0, 0);
      displayH, displayW := 0, 0;
      selectedColor := Unset;
      fontDict := map[];
      fontOptions := [];
    }

    /**
     * `show_scaled_img`: records the image's size; if it overflows the canvas,
     * computes and stores the shrunk size and shows the shrunk copy, otherwise
     * shows the image as it is and leaves the stored resize untouched.  When
     * the shrunk size has a zero dimension the resize raises after the size
     * is stored, nothing new is placed on the canvas and `shown` is false.
     */
    method ShowScaledImg(imgH: nat, imgW: nat) returns (shown: bool)
      requires Valid()
      modifies this`origH, this`origW, this`newH, this`newW, this`hasNewSize,
               this`resizedFrom, this`displayH, this`displayW
      ensures Valid()
      ensures shown <==> !ResizeRejected(imgH, imgW)
      ensures origH == imgH && origW == imgW
      ensures Overflows(imgH, imgW) ==> hasNewSize && Size(newH, newW) == ScaledSize(imgH, imgW)
      ensures !Overflows(imgH, imgW) ==>
        hasNewSize == old(hasNewSize) && newH == old(newH) && newW == old(newW)
      ensures shown && Overflows(imgH, imgW) ==> displayH == newH && displayW == newW
      ensures !Overflows(imgH, imgW) ==> displayH == imgH && displayW == imgW
      ensures !shown ==> displayH == old(displayH) && displayW == old(displayW)
      ensures displayH <= CanvasHeight && displayW <= CanvasWidth
    {
      origH := imgH;
      origW := imgW;
      shown := true;
      if origH > CanvasHeight || origW > CanvasWidth {
        // h_ratio, w_ratio, their max and the two roundings
        var scaled := ScaledSize(origH, origW);
        newH, newW := scaled.h, scaled.w;
        hasNewSize := true;
        resizedFrom := Size(imgH, imgW);
        if newW == 0 || newH == 0 {
          shown := false;
          return;
        }
        displayH, displayW := newH, newW;
      } else {
        displayH, displayW := origH, origW;
      }
    }

    /** `pick_color`: stores the dialog's colour, or None when it was cancelled. */
    method PickColor(answer: Option<Rgb>)
      modifies this`selectedColor
      ensures selectedColor == if answer.Some? then Chosen(answer.value) else Cancelled
    {
      selectedColor := if answer.Some? then Chosen(answer.value) else Cancelled;
    }

    /**
     * The font part of `create_font_selection`: builds the catalogue and the
     * combobox options, then preselects the sixth option (None where the
     * combobox has fewer, which the widget reports as an error).
     */
    method CreateFontSelection(fontNames: seq<string>) returns (preselected: Option<string>)
      modifies this`fontDict, this`fontOptions
      ensures fontDict == FontDict(fontNames) && fontOptions == FontOptions(fontNames)
      ensures preselected == DefaultFont(fontOptions, DefaultFontIndex)
      ensures preselected.Some? ==> preselected.value in fontDict
    {
      fontDict := FontDict(fontNames);
      fontOptions := FontOptions(fontNames);
      preselected := DefaultFont(fontOptions, DefaultFontIndex);
    }

    /**
     * `add_watermark_text`: the original is shown again (once when it is
     * reopened, once directly), the drawing parameters are assembled from the
     * widgets' readings and the stored state, and on success the composite,
     * which has the original's size, is shown a third time.  A refused resize
     * raises on the first showing and ends the call there.
     */
    method AddWatermarkText(imgH: nat, imgW: nat, text: string, fontName: string,
                            sizeReading: real, alphaReading: real)
      returns (r: Result<TextDraw, WatermarkError>)
      requires Valid()
      modifies this`origH, this`origW, this`newH, this`newW, this`hasNewSize,
               this`resizedFrom, this`displayH, this`displayW
      ensures Valid()
      ensures origH == imgH && origW == imgW
      ensures Overflows(imgH, imgW) ==> hasNewSize && Size(newH, newW) == ScaledSize(imgH, imgW)
      ensures !Overflows(imgH, imgW) ==>
        hasNewSize == old(hasNewSize) && newH == old(newH) && newW == old(newW)
      ensures !ResizeRejected(imgH, imgW) && Overflows(imgH, imgW) ==>
        displayH == newH && displayW == newW
      ensures !Overflows(imgH, imgW) ==> displayH == imgH && displayW == imgW
      ensures ResizeRejected(imgH, imgW) ==>
        displayH == old(displayH) && displayW == old(displayW) && r == Failure(ResizeRefused)
      ensures !ResizeRejected(imgH, imgW) ==>
        r == WatermarkDraw(fontDict, fontName, LastResize(), selectedColor,
                           Size(imgH, imgW), text, sizeReading, alphaReading)
    {
      var shown := ShowScaledImg(imgH, imgW);
      if !shown {
        return Failure(ResizeRefused);
      }
      shown := ShowScaledImg(imgH, imgW);
      r := WatermarkDraw(fontDict, fontName, LastResize(), selectedColor,
                         Size(imgH, imgW), text, sizeReading, alphaReading);
      if r.Success? {
        shown := ShowScaledImg(imgH, imgW);
      }
    }
  }
}
