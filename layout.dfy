/**
 * Window layout and widget-range constants of the watermark application.
 * The preview canvas is what is left of the window once the header
 * (counted twice, top and bottom) and the sidebar are taken off.
 */
module Layout {

  const WindowWidth: nat := 1200
  const WindowHeight: nat := 800
  const HeaderHeight: nat := 50
  const SidebarWidth: nat := 450

  /** Height of the image preview canvas. */
  const CanvasHeight: nat := WindowHeight - HeaderHeight * 2
  /** Width of the image preview canvas. */
  const CanvasWidth: nat := WindowWidth - SidebarWidth

  /** Range of the font-size slider. */
  const FontSizeMin: real := 40.0
  const FontSizeMax: real := 1000.0
  const FontSizeDefault: real := 90.0

  /** Range of the transparency slider: a percentage-like scale, not 0..255. */
  const AlphaMin: real := 0.0
  const AlphaMax: real := 100.0
  const AlphaDefault: real := 50.0

  /** Index of the font the font combobox preselects. */
  const DefaultFontIndex: nat := 5

  lemma CanvasIs700By750()
    ensures CanvasHeight == 700 && CanvasWidth == 750
    ensures CanvasHeight < WindowHeight && CanvasWidth < WindowWidth
  {
  }
}
