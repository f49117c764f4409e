/**
 * The slide editor's text-box widget as an object. Each render takes a
 * deep copy (`updatedSlides`) of the slides it was given; the drag,
 * resize and edit handlers write one box of that copy and hand the whole
 * copy to the editor. Every handler returns the calls it makes to the
 * editor's callbacks, in order.
 */
module TextBoxWidget {
  import opened Options
  import opened Slides
  import opened KeystrokeCounter

  /** A call of the editor's `updateSlides(slides, undefined, transient)`. */
  datatype SlidesUpdate = UpdateSlides(slides: seq<Slide>, transient: bool)

  /** The clipboard entry a copy stores. */
  datatype CopiedObject = CopiedObject(kind: string, copiedObject: TextBoxRecord)

  class TextBox {
    const curSlide: nat
    const index: nat
    const isPreview: bool
    /** The slides the editor last passed in. */
    var slides: seq<Slide>
    /** The copy of `slides` taken by the last render; the handlers write to it. */
    var updatedSlides: seq<Slide>
    /** Keystrokes since the last durable update. */
    var keyStrokes: nat
    /** The clipboard. */
    var copied: Option<CopiedObject>
    /** Timers started by keystrokes that have not fired yet. */
    ghost var pendingTimers: nat
    /** All keystrokes so far. */
    ghost var keystrokesTyped: nat
    /** Durable updates made by timers so far. */
    ghost var timerCommits: nat

    ghost predicate Valid()
      reads this
    {
      && InRange(updatedSlides, curSlide, index)
      && keyStrokes <= pendingTimers
      && timerCommits + keyStrokes <= keystrokesTyped
    }

    constructor (curSlide: nat, index: nat, isPreview: bool, slides: seq<Slide>)
      requires InRange(slides, curSlide, index)
      ensures Valid()
      ensures this.curSlide == curSlide && this.index == index && this.isPreview == isPreview
      ensures this.slides == slides && updatedSlides == slides
      ensures keyStrokes == 0 && copied == None
      ensures pendingTimers == 0 && keystrokesTyped == 0 && timerCommits == 0
    {
      this.curSlide := curSlide;
      this.index := index;
      this.isPreview := isPreview;
      this.slides := slides;
      updatedSlides := slides;
      keyStrokes := 0;
      copied := None;
      pendingTimers := 0;
      keystrokesTyped := 0;
      timerCommits := 0;
    }

    /** The editor passes new slides and the widget renders again, taking a fresh copy. */
    method Render(slides: seq<Slide>)
      requires Valid() && InRange(slides, curSlide, index)
      modifies this`slides, this`updatedSlides
      ensures Valid()
      ensures this.slides == slides && updatedSlides == slides
    {
      this.slides := slides;
      updatedSlides := slides;
    }

    /** The box as the last render copied it and the handlers since have written it. */
    function Box(): TextBoxRecord
      reads this
      requires Valid()
    {
      BoxAt(updatedSlides, curSlide, index)
    }

    /** The resize handle was dragged: the box takes the new size, saved durably. */
    method OnResize(offsetWidth: int, offsetHeight: int) returns (call: SlidesUpdate)
      requires Valid() && !isPreview
      modifies this`updatedSlides
      ensures Valid()
      ensures updatedSlides ==
        WithBox(old(updatedSlides), curSlide, index, Resized(old(Box()), offsetWidth, offsetHeight))
      ensures call == UpdateSlides(updatedSlides, false)
    {
      var box := BoxAt(updatedSlides, curSlide, index);
      updatedSlides := WithBox(updatedSlides, curSlide, index, box.(w := Some(offsetWidth), h := Some(offsetHeight)));
      call := UpdateSlides(updatedSlides, false);
    }

    /** A drag ended at (`lastX`, `lastY`): the box takes that position, saved durably. */
    method OnDragStop(lastX: int, lastY: int) returns (call: SlidesUpdate)
      requires Valid() && !isPreview
      modifies this`updatedSlides
      ensures Valid()
      ensures updatedSlides == WithBox(old(updatedSlides), curSlide, index, Moved(old(Box()), lastX, lastY))
      ensures call == UpdateSlides(updatedSlides, false)
    {
      var box := BoxAt(updatedSlides, curSlide, index);
      updatedSlides := WithBox(updatedSlides, curSlide, index, box.(x := Some(lastX), y := Some(lastY)));
      call := UpdateSlides(updatedSlides, false);
    }

    /** The text area is dragged: the box takes the text area's rendered size, saved durably. */
    method OnTextAreaDrag(offsetWidth: int, offsetHeight: int) returns (call: SlidesUpdate)
      requires Valid() && !isPreview
      modifies this`updatedSlides
      ensures Valid()
      ensures updatedSlides ==
        WithBox(old(updatedSlides), curSlide, index, Resized(old(Box()), offsetWidth, offsetHeight))
      ensures call == UpdateSlides(updatedSlides, false)
    {
      var box := BoxAt(updatedSlides, curSlide, index);
      updatedSlides := WithBox(updatedSlides, curSlide, index, box.(w := Some(offsetWidth), h := Some(offsetHeight)));
      call := UpdateSlides(updatedSlides, false);
    }

    /**
     * A keystroke changed the text to `value`: the box takes it, the
     * counter goes up by one, a timer starts, and the slides are saved as
     * a transient update. Preview mode does not stop this: the text area
     * is neither read-only nor disabled and can take keyboard focus.
     */
    method OnChange(value: string) returns (call: SlidesUpdate)
      requires Valid()
      modifies this`updatedSlides, this`keyStrokes, this`pendingTimers, this`keystrokesTyped
      ensures Valid()
      ensures updatedSlides == WithBox(old(updatedSlides), curSlide, index, Edited(old(Box()), value))
      ensures (keyStrokes, false) == Step(old(keyStrokes), Keystroke)
      ensures pendingTimers == old(pendingTimers) + 1 && keystrokesTyped == old(keystrokesTyped) + 1
      ensures call == UpdateSlides(updatedSlides, true)
    {
      var box := BoxAt(updatedSlides, curSlide, index);
      updatedSlides := WithBox(updatedSlides, curSlide, index, box.(value := Some(value)));
      keyStrokes := keyStrokes + 1;
      keystrokesTyped := keystrokesTyped + 1;
      pendingTimers := pendingTimers + 1;
      call := UpdateSlides(updatedSlides, true);
    }

    /**
     * A timer started by a keystroke fires: if keystrokes are counted, the
     * slides the editor holds now are saved durably and the counter is
     * reset; otherwise nothing happens.
     */
    method OnTimer() returns (calls: seq<SlidesUpdate>)
      requires Valid() && pendingTimers > 0
      modifies this`keyStrokes, this`pendingTimers, this`timerCommits
      ensures Valid()
      ensures (keyStrokes, calls != []) == Step(old(keyStrokes), TimerFired)
      ensures calls == if old(keyStrokes) > 0 then [UpdateSlides(slides, false)] else []
      ensures pendingTimers == old(pendingTimers) - 1
      ensures timerCommits == old(timerCommits) + |calls|
    {
      calls := [];
      pendingTimers := pendingTimers - 1;
      if keyStrokes > 0 {
        calls := [UpdateSlides(slides, false)];
        keyStrokes := 0;
        timerCommits := timerCommits + 1;
      }
    }

    /** The delete control, after the confirmation dialog answered `confirmed`. */
    method OnDeleteClick(confirmed: bool) returns (deleted: seq<nat>)
      requires !isPreview
      ensures deleted == if confirmed then [index] else []
    {
      deleted := [];
      if !confirmed {
        return;
      }
      deleted := deleted + [index];
    }

    /**
     * Copies the box at (`curSlide`, `index`) of `slides` to the clipboard
     * at position (50, 50) and tells the editor a copy is available.
     */
    method HandleCopy(slides: seq<Slide>, curSlide: nat, index: nat) returns (copiedStates: seq<bool>)
      requires InRange(slides, curSlide, index)
      modifies this`copied
      ensures copied == Some(CopiedObject("text", CopyOf(BoxAt(slides, curSlide, index))))
      ensures copiedStates == [true]
    {
      var copiedText := BoxAt(slides, curSlide, index);
      copiedText := copiedText.(x := Some(CopyX), y := Some(CopyY));
      copiedStates := [true];
      copied := Some(CopiedObject("text", copiedText));
    }

    /** The copy control: copies this widget's box; the box itself stays as it was. */
    method OnCopyClick() returns (copiedStates: seq<bool>)
      requires Valid() && !isPreview
      modifies this`copied
      ensures Valid()
      ensures copied == Some(CopiedObject("text", CopyOf(Box())))
      ensures copiedStates == [true]
    {
      copiedStates := HandleCopy(updatedSlides, curSlide, index);
    }
  }
}
