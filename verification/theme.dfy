/**
 * The visual themes of the skeleton overlay: a fixed table of named
 * palettes, and the lookup the overlay renderer does with a fallback to the
 * default theme.
 */
module Theme {

  /** One 8-bit colour channel. */
  type Channel = x: int | 0 <= x <= 255

  /** A colour as the three channels of the frame it is drawn on. */
  datatype Color = Color(c0: Channel, c1: Channel, c2: Channel)

  /** The colours of the keypoint markers and of the connecting lines. */
  datatype Palette = Palette(landmark: Color, connection: Color)

  /** The theme table, keyed by mode name. */
  const THEMES: map<string, Palette> := map[
    "hacker" := Palette(Color(0, 255, 65), Color(0, 255, 65)),
    "cute" := Palette(Color(255, 255, 255), Color(200, 255, 200))
  ]

  /** The mode a fresh camera starts in, and the fallback of the lookup. */
  const DEFAULT_MODE: string := "cute"

  /** The palette for `mode`, or the default theme's when `mode` names no theme. */
  function ThemeFor(mode: string): (p: Palette)
    ensures p in THEMES.Values
    ensures mode in THEMES ==> p == THEMES[mode]
    ensures mode !in THEMES ==> p == THEMES[DEFAULT_MODE]
  {
    if mode in THEMES then THEMES[mode] else THEMES[DEFAULT_MODE]
  }

  /**
   * The two themes look different, and the lookup tells every known mode
   * apart: a mode switch between them always changes the palette.
   */
  lemma ThemesAreDistinct(m1: string, m2: string)
    requires m1 in THEMES && m2 in THEMES && m1 != m2
    ensures ThemeFor(m1) != ThemeFor(m2)
  {
  }
}
