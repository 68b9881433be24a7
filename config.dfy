/** Build-time configuration of the window manager (config.hxx). */
module Config {
  /** Full border width in pixels; every managed window is given it. */
  const BORDERWIDTH: int := 4

  /**
   * The ring thickness the preprocessor sees in `#if OUTER > 0` (swm.cxx:80).
   * config.hxx declares OUTER as a typed constant of value 1, not as a macro,
   * so the test reads it as 0 and the program as built draws the flat
   * border. A ringed build is one whose `Setup.outer` is positive.
   */
  const BUILT_OUTER: nat := 0

  /** Accent colour of the focused window. */
  const FOCUSCOL: nat := 0xD9AA55

  /** Accent colour of every other window. */
  const UNFOCUSCOL: nat := 0x4B384C

  /** Colour of the outer ring. */
  const OUTERCOL: nat := 0x000000
}
