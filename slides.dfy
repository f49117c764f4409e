/**
 * Slides and the text boxes on them, as the text-box widget reads and
 * writes them: the fallbacks for unset geometry, the update of one box of
 * one slide, the copy of a box, and which resize handles are enabled.
 *
 * Numbers are integers here; a field that is absent is `None`. As in
 * JavaScript, a number is "falsy" when it is absent or zero, and a string
 * when it is absent or empty.
 */
module Slides {
  import opened Options

  datatype TextBoxRecord = TextBoxRecord(
    x: Option<int>,
    y: Option<int>,
    w: Option<int>,
    h: Option<int>,
    value: Option<string>)

  datatype Slide = Slide(textboxes: seq<TextBoxRecord>)

  /** The size and position the widget renders a box at. */
  datatype Frame = Frame(width: int, height: int, x: int, y: int)

  const DefaultWidth := 400
  const DefaultHeight := 200
  const DefaultX := 100
  const DefaultY := 100
  const CopyX := 50
  const CopyY := 50

  predicate Truthy(v: Option<int>) {
    v.Some? && v.value != 0
  }

  /** `v ? v : fallback` on a number. */
  function OrDefault(v: Option<int>, fallback: int): (r: int)
    requires fallback != 0
    ensures r != 0
    ensures Truthy(v) ==> r == v.value
    ensures !Truthy(v) ==> r == fallback
  {
    if Truthy(v) then v.value else fallback
  }

  /** The rendered frame: each stored value, or its default when the stored value is falsy. */
  function FrameOf(b: TextBoxRecord): (f: Frame)
    ensures f.width != 0 && f.height != 0 && f.x != 0 && f.y != 0
  {
    Frame(OrDefault(b.w, DefaultWidth), OrDefault(b.h, DefaultHeight),
          OrDefault(b.x, DefaultX), OrDefault(b.y, DefaultY))
  }

  /** The text shown in the text area: the stored value, or "" when it is falsy. */
  function TextOf(b: TextBoxRecord): (s: string)
    ensures s == "" <==> b.value.None? || b.value == Some("")
    ensures b.value.Some? ==> s == b.value.value
  {
    if b.value.Some? && b.value.value != "" then b.value.value else ""
  }

  /** `curSlide` names a slide of `slides` and `index` a text box on it. */
  predicate InRange(slides: seq<Slide>, curSlide: nat, index: nat) {
    curSlide < |slides| && index < |slides[curSlide].textboxes|
  }

  /** The box at (`curSlide`, `index`). */
  function BoxAt(slides: seq<Slide>, curSlide: nat, index: nat): TextBoxRecord
    requires InRange(slides, curSlide, index)
  {
    slides[curSlide].textboxes[index]
  }

  /**
   * `slides` with the box at (`curSlide`, `index`) replaced by `box`; every
   * other slide and every other box is as it was.
   */
  function WithBox(slides: seq<Slide>, curSlide: nat, index: nat, box: TextBoxRecord): (r: seq<Slide>)
    requires InRange(slides, curSlide, index)
    ensures |r| == |slides| && InRange(r, curSlide, index)
    ensures forall s :: 0 <= s < |slides| && s != curSlide ==> r[s] == slides[s]
    ensures |r[curSlide].textboxes| == |slides[curSlide].textboxes|
    ensures forall j :: 0 <= j < |slides[curSlide].textboxes| && j != index ==>
      r[curSlide].textboxes[j] == slides[curSlide].textboxes[j]
    ensures BoxAt(r, curSlide, index) == box
  {
    var slide := slides[curSlide];
    slides[curSlide := slide.(textboxes := slide.textboxes[index := box])]
  }

  /**
   * A second write to the same box of the same copy (two handlers run
   * before the next render) overrides the first.
   */
  lemma WithBoxTwice(slides: seq<Slide>, curSlide: nat, index: nat, a: TextBoxRecord, b: TextBoxRecord)
    requires InRange(slides, curSlide, index)
    ensures WithBox(WithBox(slides, curSlide, index, a), curSlide, index, b) == WithBox(slides, curSlide, index, b)
  {
    var r1 := WithBox(WithBox(slides, curSlide, index, a), curSlide, index, b);
    var r2 := WithBox(slides, curSlide, index, b);
    assert r1[curSlide].textboxes == r2[curSlide].textboxes;
    assert r1[curSlide] == r2[curSlide];
  }

  function Moved(b: TextBoxRecord, x: int, y: int): TextBoxRecord {
    b.(x := Some(x), y := Some(y))
  }

  function Resized(b: TextBoxRecord, w: int, h: int): TextBoxRecord {
    b.(w := Some(w), h := Some(h))
  }

  function Edited(b: TextBoxRecord, value: string): TextBoxRecord {
    b.(value := Some(value))
  }

  /** The copy put on the clipboard: the box moved to (50, 50). */
  function CopyOf(b: TextBoxRecord): (c: TextBoxRecord)
    ensures c.x == Some(CopyX) && c.y == Some(CopyY)
    ensures c.w == b.w && c.h == b.h && c.value == b.value
  {
    b.(x := Some(CopyX), y := Some(CopyY))
  }

  /** A copy renders at (50, 50) with the size and the text of the original. */
  lemma CopyRendersAtCopyPosition(b: TextBoxRecord)
    ensures FrameOf(CopyOf(b)) == FrameOf(b).(x := CopyX, y := CopyY)
    ensures TextOf(CopyOf(b)) == TextOf(b)
  {
  }

  /** A resize to a non-zero size renders at that size, at the same position. */
  lemma ResizedRendersAtNewSize(b: TextBoxRecord, w: int, h: int)
    requires w != 0 && h != 0
    ensures FrameOf(Resized(b, w, h)) == FrameOf(b).(width := w, height := h)
  {
  }

  /** A move to a position off both axes renders at that position, at the same size. */
  lemma MovedRendersAtNewPosition(b: TextBoxRecord, x: int, y: int)
    requires x != 0 && y != 0
    ensures FrameOf(Moved(b, x, y)) == FrameOf(b).(x := x, y := y)
  {
  }

  /**
   * A drag that stops at the left edge (x = 0) stores x = 0, which is
   * falsy, so the box is drawn at x = 100 afterwards; the same for y.
   */
  lemma MovedToEdgeRendersAtDefault(b: TextBoxRecord, y: int)
    ensures FrameOf(Moved(b, 0, y)).x == DefaultX
    ensures FrameOf(Moved(b, y, 0)).y == DefaultY
  {
  }

  /** `v ?? fallback`: the default only for an absent value. */
  function OrDefaultIfUnset(v: Option<int>, fallback: int): (r: int)
    ensures v.Some? ==> r == v.value
    ensures v.None? ==> r == fallback
  {
    if v.Some? then v.value else fallback
  }

  /** The rendered frame with the defaults used only for absent values. */
  function FrameOfUnset(b: TextBoxRecord): Frame {
    Frame(OrDefaultIfUnset(b.w, DefaultWidth), OrDefaultIfUnset(b.h, DefaultHeight),
          OrDefaultIfUnset(b.x, DefaultX), OrDefaultIfUnset(b.y, DefaultY))
  }

  /** With defaults for absent values only, every stop position is drawn where it was stored. */
  lemma FrameOfUnsetMovedRoundTrip(b: TextBoxRecord, x: int, y: int)
    ensures FrameOfUnset(Moved(b, x, y)) == FrameOfUnset(b).(x := x, y := y)
  {
  }

  /** The resize handles of the widget. */
  datatype Handle = Bottom | BottomLeft | BottomRight | Left | Right | Top | TopLeft | TopRight

  /** Whether the resize handle `h` is enabled. */
  function ResizingEnabled(isPreview: bool, h: Handle): (enabled: bool)
    ensures enabled <==> h == BottomRight && !isPreview
  {
    match h
    case Bottom => false
    case BottomLeft => false
    case BottomRight => !isPreview
    case Left => false
    case Right => false
    case Top => false
    case TopLeft => false
    case TopRight => false
  }
}
