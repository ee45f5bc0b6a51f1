# Watermark application: preview sizing and watermark parameters

A Dafny model of the logic inside the Tkinter watermark application
(`ui.py`). The application loads an image, shows it on a 700 × 750 preview
canvas, and draws a text watermark whose font, size, colour and opacity come
from widgets. The model covers the parts of `ui.py` that compute something:

- the layout constants that fix the canvas size;
- the fit-to-canvas rule of `show_scaled_img`, with exact rational
  arithmetic and Python 3's `round` (ties to even);
- the font catalogue built by the `font_dict` comprehension, and the order in
  which the combobox offers its keys;
- how `add_watermark_text` assembles the drawing parameters: the font file,
  the font size and alpha taken with `int()`, the fill colour, and the text
  origin `(new_h, new_w)`. That origin is the size from the most recent call
  of `show_scaled_img` that resized, with the height used as x.

Module layout: `Layout` holds the constants and `PyNumbers` the Python
conversions. `Scaling` holds the sizing rule and its lemmas. `Fonts` holds
the catalogue. `WatermarkApp` holds the window state as the class `App`,
with `show_scaled_img`, `pick_color`, the font part of
`create_font_selection` and `add_watermark_text` as methods.

Python attributes that may not exist yet are modelled explicitly. `new_h` and
`new_w` exist only after a resize (`App.hasNewSize`), and `selected_color`
exists only after the colour dialog (`ColorChoice.Unset`). A missing
attribute, a cancelled colour dialog and a font name missing from the
catalogue are returned as `Failure` values, checked in the order Python
evaluates them.

Three consequences of the code as written:

- the fill alpha is the transparency slider's value, 0–100;
- the text origin is `(new_h, new_w)`, the shrunk size itself, with the
  height as x;
- a zero image dimension raises no error of its own. A resize happens only
  when a dimension exceeds the canvas, so the ratio is above 1 and never
  zero. A resize that rounds a dimension down to 0 is refused by the image
  library, and the model reports that as a failure.

## Model

| member | source | states |
|---|---|---|
| `Layout.CanvasIs700By750` | ui.py:11-16 | the preview canvas is 800 − 2·50 = 700 high and 1200 − 450 = 750 wide, smaller than the window |
| `PyNumbers.RoundHalfEven` | ui.py:95-96 | `int(round(x, 0))` is an integer within ½ of x, and is even when x lies exactly halfway |
| `PyNumbers.RoundHalfEvenUnique` | ui.py:95-96 | those two properties determine the rounded value uniquely |
| `PyNumbers.RoundHalfEvenBelow` | ui.py:95-96 | rounding a value at most an integer n gives at most n |
| `PyNumbers.Trunc` | ui.py:263-264 | `int()` of a float truncates toward zero: for x ≥ 0 it is the largest integer ≤ x, for x < 0 the smallest ≥ x |
| `Scaling.Overflows` | ui.py:91 | the resize branch runs exactly when one of the two per-axis ratios exceeds 1 |
| `Scaling.HeightRatio` | ui.py:92 | `h_ratio` is the image height in canvas heights: times 700 it gives back the height, and it exceeds 1 exactly when the height exceeds 700 |
| `Scaling.WidthRatio` | ui.py:93 | `w_ratio` is the image width in canvas widths: times 750 it gives back the width, and it exceeds 1 exactly when the width exceeds 750 |
| `Scaling.ScalingRatio` | ui.py:91-94 | the ratio is one of the two per-axis ratios and at least both; it exceeds 1 exactly when the image overflows the canvas, i.e. exactly when the resize branch runs |
| `Scaling.ExactHeight` | ui.py:95 | the exact quotient `orig_h / scaling_ratio` lies within 0..700 and is at most `orig_h` |
| `Scaling.ExactWidth` | ui.py:96 | the exact quotient `orig_w / scaling_ratio` lies within 0..750 and is at most `orig_w` |
| `Scaling.ExactKeepsAspect` | ui.py:92-96 | the exact target keeps the original aspect ratio |
| `Scaling.ScaledSize` | ui.py:95-96 | `(new_h, new_w)` fits the canvas, `new_h ≤ 700` and `new_w ≤ 750`, and each is within ½ pixel of the exact aspect-preserving value |
| `Scaling.ScaledBindingAxis` | ui.py:94-96 | when `h_ratio ≥ w_ratio`, `new_h` is exactly 700; otherwise `new_w` is exactly 750 |
| `Scaling.ScaledNeverUpscales` | ui.py:95-96 | a resize never enlarges: `new_h ≤ orig_h` and `new_w ≤ orig_w` |
| `Scaling.TallNarrowImage` | ui.py:91-96 | a 2000-high, 500-wide image is resized to 700 × 175, so the origin x = `new_h` = 700 lies beyond the 500-pixel width |
| `Scaling.ResizeRejected` | ui.py:95-97 | the resize at line 97 is refused exactly when the image overflows and an exact dimension is at most ½, which rounds to 0 |
| `Scaling.ThinStripRoundsToZero` | ui.py:95-97 | a 1-high, 1501-wide image gets `(new_h, new_w) = (0, 750)` and its resize is refused |
| `Fonts.Stem` | ui.py:154 | `split(".")[0]` is the longest prefix without a `.`, and it is followed by a `.` unless it is the whole name |
| `Fonts.FontDict` | ui.py:154 | the catalogue's keys are exactly the stems of the names, and each key maps to a listed name with that stem |
| `Fonts.FontDictLastWins` | ui.py:154 | a name with no later name sharing its stem is the value stored under that stem: the later name wins |
| `Fonts.FontOptions` | ui.py:155-156 | the combobox options are the distinct stems, each once |
| `Fonts.FontOptionsKeepOrder` | ui.py:155-156 | options keep first-insertion order: adding names only appends, never reorders |
| `Fonts.OptionsResolve` | ui.py:155-156 | every offered option is a key of the catalogue whose file has that stem |
| `Fonts.FontFile` | ui.py:261 | `font_dict.get(name)` is the stored file exactly when the name is a key, and None otherwise |
| `Fonts.DefaultFont` | ui.py:158 | `current(5)` selects `options[5]`, the sixth option, and fails when there are five or fewer |
| `WatermarkApp.WatermarkDraw` | ui.py:259-272 | fails exactly when the font is unknown, no resize size exists, or no colour was chosen, with the first such failure in evaluation order; on success it draws on an overlay of the original's size at `(new_h, new_w)`, with the looked-up file, `int(size)` and fill `(*color, int(alpha))` |
| `WatermarkApp.FontSizeWithinSlider` | ui.py:167-174 | any font-size slider reading gives `int(size)` in 40..1000, within 1 of the reading |
| `WatermarkApp.AlphaWithinSlider` | ui.py:183-190 | any alpha slider reading gives a fill alpha in 0..100, below full opacity 255 |
| `WatermarkApp.DefaultSliderReadings` | ui.py:174-190 | the preset readings `set(90)` and `set(50)` are within the sliders' ranges and give font size 90 and alpha 50 |
| `WatermarkApp.DrawOriginFromResize` | ui.py:267-268 | an origin taken from a resize is inside the 700 × 750 box, no larger than that image's own height and width, and x = 700 when the height ratio binds |
| `WatermarkApp.App.Valid` | ui.py:88-98 | the stored `(new_h, new_w)` is the sizing rule applied to an overflowing image, so it fits the canvas, and whatever is displayed fits the canvas |
| `WatermarkApp.App.LastResize` | ui.py:95-96 | `(new_h, new_w)` as an option: present exactly when those attributes exist |
| `WatermarkApp.App.constructor` | ui.py:20-30 | a new window has no resize size, no colour, no catalogue and nothing displayed |
| `WatermarkApp.App.ShowScaledImg` | ui.py:85-99 | records `orig_h`/`orig_w`; on overflow stores the sizing rule's result in `new_h`/`new_w`; otherwise leaves them, and whether they exist, unchanged and displays the image as it is; when the resize is refused it reports failure and the display is unchanged, otherwise the shrunk image is displayed; the display always fits the canvas and `Valid` is kept |
| `WatermarkApp.App.PickColor` | ui.py:134-137 | stores the chosen colour, or None when the dialog was cancelled |
| `WatermarkApp.App.CreateFontSelection` | ui.py:152-158 | sets the catalogue and options from the font names; the preselected option exists only with more than five options and then resolves in the catalogue |
| `WatermarkApp.App.AddWatermarkText` | ui.py:256-274 | the repeated `show_scaled_img` calls leave the same state as one call, the display included. A refused resize ends the call with a failure. Otherwise the result is the parameter assembly over the state after that call, so the origin comes from the latest resizing call, which may be an earlier image when the current one fits |

## Left out

- Widget construction, grid layout, canvas drawing and the Tk main loop: user interface with no computed result.
- File dialogs, `Image.open`, `save`, their exception handling and the diagnostic `print` calls (ui.py:73, 82, 90, 99): I/O. The image's height and width are parameters, and the error handling is not modelled.
- PIL pixel work (`resize`, `PhotoImage`, `ImageFont.truetype`, `ImageDraw.text`, `Image.alpha_composite`): library code whose internals are not visible. The model returns the parameters of the text drawing call instead of an image.
- `WatermarkApp.App.ShowScaledImg`: a refused resize is modelled as `shown == false` with `new_h`/`new_w` already stored and no new canvas item. The model does not capture that `display_img` already holds the full-size photo from line 87, so the earlier preview photo may lose its last reference.
- IEEE-754 floating point: divisions are exact over `real`, followed by ties-to-even rounding.
- `WatermarkApp.App.AddWatermarkText`: the fields it assigns along the way (`watermark_text`, `selected_font`, `selected_font_size`, `selected_alpha`, `watermark`, `final_img`) are returned together as one `TextDraw` value, not stored.
- `WatermarkApp.App.AddWatermarkText`: the font loader also fails for a file that cannot be read. Only the missing-key case is modelled.
- `WatermarkApp.App.CreateFontSelection`: the module-level `font_names` list is a parameter. The label, slider, colour-button and combobox widgets it creates are not modelled.
- `WatermarkApp.App.constructor`: the Python constructor never sets `orig_h`, `orig_w` or the display image. The model starts them at 0, and they are written before being read.
