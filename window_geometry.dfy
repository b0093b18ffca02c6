/** Window geometry that OpenDisplay computes for each display before it
    asks for a window: the rotated window size, the horizontal tiling of the
    windows, and the per-display window title. */
module WindowGeometry {

  /** The display rotation of the constructor parameters. */
  datatype DisplayRotation = Zero | Ninety | OneEighty | TwoSeventy

  /** A requested window size in pixels. */
  datatype WindowSize = WindowSize(width: int, height: int)

  /** True for the two rotations that turn the panel on its side. */
  predicate IsQuarterTurn(rotation: DisplayRotation) {
    rotation == Ninety || rotation == TwoSeventy
  }

  /** The window size asked for on the screen, given the display's own size
      and its rotation: a quarter turn swaps the aspect ratio. */
  function RotatedSize(rotation: DisplayRotation, displayWidth: int, displayHeight: int): WindowSize {
    if IsQuarterTurn(rotation) then
      WindowSize(displayHeight, displayWidth)
    else
      WindowSize(displayWidth, displayHeight)
  }

  lemma RotatedSizeSwapsForQuarterTurns(rotation: DisplayRotation, displayWidth: int, displayHeight: int)
    ensures IsQuarterTurn(rotation) ==>
      RotatedSize(rotation, displayWidth, displayHeight) == WindowSize(displayHeight, displayWidth)
    ensures !IsQuarterTurn(rotation) ==>
      RotatedSize(rotation, displayWidth, displayHeight) == WindowSize(displayWidth, displayHeight)
  {
  }

  /** Rotating the rotated size again gives back the display's own size, and
      the pixel count never changes. */
  lemma RotatedSizeIsInvolution(rotation: DisplayRotation, displayWidth: int, displayHeight: int)
    ensures var r := RotatedSize(rotation, displayWidth, displayHeight);
      RotatedSize(rotation, r.width, r.height) == WindowSize(displayWidth, displayHeight)
      && r.width * r.height == displayWidth * displayHeight
  {
  }

  /** The X position of the window for display `display`: the configured X
      position shifted right by one rotated window width per display. */
  function WindowX(windowXPosition: int, widthRotated: int, display: nat): int {
    windowXPosition + widthRotated * display
  }

  /** The first window sits at the configured position and every next window
      starts where the previous one ends. */
  lemma WindowXTilesAdjacent(windowXPosition: int, widthRotated: int, display: nat)
    ensures WindowX(windowXPosition, widthRotated, 0) == windowXPosition
    ensures WindowX(windowXPosition, widthRotated, display + 1)
         == WindowX(windowXPosition, widthRotated, display) + widthRotated
  {
  }

  /** Windows of a non-negative width do not overlap: the window of a later
      display starts at or after the end of the window of an earlier one. */
  lemma {:induction false} WindowsDoNotOverlap(windowXPosition: int, widthRotated: int, d1: nat, d2: nat)
    requires widthRotated >= 0
    requires d1 < d2
    ensures WindowX(windowXPosition, widthRotated, d1) + widthRotated
         <= WindowX(windowXPosition, widthRotated, d2)
  {
    if d1 + 1 < d2 {
      WindowsDoNotOverlap(windowXPosition, widthRotated, d1, d2 - 1);
    }
    WindowXTilesAdjacent(windowXPosition, widthRotated, d2 - 1);
  }

  /** The character appended to the title: `'0' + display` computed in an
      8-bit `char`, so the byte value wraps modulo 256. */
  function DisplayIdChar(display: nat): char {
    (('0' as int + display) % 256) as char
  }

  /** The title of the window for display `display`: the configured title
      followed by the display's identifying character. */
  function WindowTitle(windowTitle: string, display: nat): string {
    windowTitle + [DisplayIdChar(display)]
  }

  /** For the first ten displays the appended character is the decimal digit
      of the display index. */
  lemma WindowTitleEndsInDigit(windowTitle: string, display: nat)
    requires display < 10
    ensures var t := WindowTitle(windowTitle, display);
      |t| == |windowTitle| + 1 && t[..|windowTitle|] == windowTitle
      && '0' <= t[|windowTitle|] <= '9'
      && t[|windowTitle|] as int - '0' as int == display
  {
  }

  /** Up to 256 displays, different displays get different titles. */
  lemma WindowTitlesDistinct(windowTitle: string, d1: nat, d2: nat)
    requires d1 < 256 && d2 < 256 && d1 != d2
    ensures WindowTitle(windowTitle, d1) != WindowTitle(windowTitle, d2)
  {
    var n := |windowTitle|;
    assert WindowTitle(windowTitle, d1)[n] == DisplayIdChar(d1);
    assert WindowTitle(windowTitle, d2)[n] == DisplayIdChar(d2);
  }

  /** The 8-bit wrap-around: display `display + 256` gets the same title as
      display `display`. */
  lemma WindowTitleWrapsAt256(windowTitle: string, display: nat)
    ensures WindowTitle(windowTitle, display + 256) == WindowTitle(windowTitle, display)
  {
  }
}
