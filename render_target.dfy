/** The target values `DynamicHolePunchOverlay` derives from its parameters:
    the shape (idle circle or pill), the width and height the size animation
    heads for, and what each of the pill's two 32-unit slots shows.
    Animation, fading and pixels are not modelled; only targets are. */
module RenderTarget {
  import opened Values
  import opened MediaSessions

  /** Side of each of the two square slots of the pill. */
  const SLOT_SIZE: int := 32
  /** Spacer between a slot and the hole. */
  const SLOT_GAP: int := 12

  /** The five settings-controlled sizes, as `Int`s. */
  datatype Sizing = Sizing(hPad: int32, vPad: int32, holeW: int32, pillH: int32, circleS: int32)

  /** Widths of the pill row's children from left to right: left slot, gap,
      hole, gap, right slot. */
  function PillRow(holeW: int): seq<int> {
    [SLOT_SIZE, SLOT_GAP, holeW, SLOT_GAP, SLOT_SIZE]
  }

  function Sum(xs: seq<int>): int {
    if xs == [] then 0 else xs[0] + Sum(xs[1..])
  }

  /** `totalPillWidth`, evaluated in `Int`: wrap-around is modular, so
      wrapping each partial sum as Kotlin does equals wrapping the exact sum. */
  function TotalPillWidth(holeW: int32, hPad: int32): int32 {
    Wrap32(32 + 12 + holeW as int + 12 + 32 + hPad as int * 2)
  }

  /** When the sum does not overflow, the pill is exactly as wide as its row
      of children plus the horizontal padding on both sides. */
  lemma {:induction false} PillWidthFitsRow(holeW: int32, hPad: int32)
    requires INT32_MIN <= 2 * SLOT_SIZE + 2 * SLOT_GAP + holeW as int + 2 * hPad as int <= INT32_MAX
    ensures TotalPillWidth(holeW, hPad) as int == Sum(PillRow(holeW as int)) + 2 * hPad as int
  {
    var row := PillRow(holeW as int);
    assert Sum(row[4..]) == SLOT_SIZE by { assert row[4..][1..] == []; }
    assert Sum(row[3..]) == SLOT_GAP + SLOT_SIZE by { assert row[3..][1..] == row[4..]; }
    assert Sum(row[2..]) == holeW as int + SLOT_GAP + SLOT_SIZE by { assert row[2..][1..] == row[3..]; }
    assert Sum(row[1..]) == SLOT_GAP + holeW as int + SLOT_GAP + SLOT_SIZE by { assert row[1..][1..] == row[2..]; }
  }

  /** What one slot of the pill shows. */
  datatype Slot = PrevButton | NextButton | Artwork(bitmap: Bitmap) | AppIcon(drawable: Drawable) | EmptySlot

  /** The circle, or the pill with its two slots. */
  datatype Content = CircleDot(diameter: int32) | PillSlots(left: Slot, right: Slot)

  /** Target width and height of the overlay, and its content. */
  datatype Frame = Frame(width: int32, height: int32, content: Content)

  /** The left slot: the previous-track control, else the artwork if any. */
  function LeftSlot(showControls: bool, art: Option<Bitmap>): (s: Slot)
    ensures s == PrevButton <==> showControls
    ensures !showControls ==> (s.Artwork? <==> art.Some?) && (art.Some? ==> s.bitmap == art.value)
    ensures !showControls && art.None? ==> s == EmptySlot
  {
    if showControls then PrevButton
    else if art.Some? then Artwork(art.value)
    else EmptySlot
  }

  /** The right slot: the next-track control, else the app icon if any. */
  function RightSlot(showControls: bool, icon: Option<Drawable>): (s: Slot)
    ensures s == NextButton <==> showControls
    ensures !showControls ==> (s.AppIcon? <==> icon.Some?) && (icon.Some? ==> s.drawable == icon.value)
    ensures !showControls && icon.None? ==> s == EmptySlot
  {
    if showControls then NextButton
    else if icon.Some? then AppIcon(icon.value)
    else EmptySlot
  }

  /** The overlay's render targets. Pill mode holds iff the overlay is
      expanded or music is playing. */
  function Render(expanded: bool, musicPlaying: bool, art: Option<Bitmap>, icon: Option<Drawable>,
                  sz: Sizing, showControls: bool): (f: Frame)
    ensures f.content.PillSlots? <==> expanded || musicPlaying
    ensures f.content.PillSlots? ==> f.width == TotalPillWidth(sz.holeW, sz.hPad) && f.height == sz.pillH
    ensures f.content.CircleDot? ==> f.width == sz.circleS && f.height == sz.circleS && f.content.diameter == sz.circleS
    ensures f.content.PillSlots? ==>
              (f.content.left == PrevButton <==> showControls) && (f.content.right == NextButton <==> showControls)
    ensures f.content.PillSlots? ==>
              f.content.left == LeftSlot(showControls, art) && f.content.right == RightSlot(showControls, icon)
  {
    if expanded || musicPlaying then
      Frame(TotalPillWidth(sz.holeW, sz.hPad), sz.pillH,
            PillSlots(LeftSlot(showControls, art), RightSlot(showControls, icon)))
    else
      Frame(sz.circleS, sz.circleS, CircleDot(sz.circleS))
  }

  /** Showing or hiding the controls, and new artwork or icon, never change
      the shape or the target size: those depend on the mode and the sizes only. */
  lemma ControlsAndMediaNeverResize(expanded: bool, musicPlaying: bool, sz: Sizing,
                                    art1: Option<Bitmap>, icon1: Option<Drawable>, controls1: bool,
                                    art2: Option<Bitmap>, icon2: Option<Drawable>, controls2: bool)
    ensures var f1 := Render(expanded, musicPlaying, art1, icon1, sz, controls1);
            var f2 := Render(expanded, musicPlaying, art2, icon2, sz, controls2);
            f1.width == f2.width && f1.height == f2.height && f1.content.PillSlots? == f2.content.PillSlots?
  {
  }
}
