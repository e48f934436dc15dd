// The touch handling of src/ui/components/advanced/ControllBar.tsx: a drag
// handle that remembers where and when a touch started and was last seen,
// and on release reports either a tap or the end of a drag with its speed.
module ControlBar {
  import opened JsText

  /** The touch record: vertical positions in pixels, times in milliseconds. */
  datatype TouchRecord = TouchRecord(startY: real, startTime: int, lastY: real, lastTime: int)

  /** What a released touch reports: nothing (no drag was active), a tap,
      or the end of a drag with its velocity and its total upward travel. */
  datatype Gesture = NoGesture | Tap | DragEnd(velocity: real, deltaY: real)

  function Abs(x: real): real
  {
    if x < 0.0 then -x else x
  }

  /** The verdict on a touch released at `endTime`: a tap when it travelled
      less than 10 pixels in less than 300 ms, otherwise a drag whose
      velocity is its travel over the time since it was last seen (0 when no
      time has passed). */
  function Classify(touch: TouchRecord, endTime: int): (g: Gesture)
    ensures g.Tap? || g.DragEnd?
    ensures g.Tap? <==> Abs(touch.startY - touch.lastY) < 10.0 && endTime - touch.startTime < 300
    ensures g.DragEnd? ==> g.deltaY == touch.startY - touch.lastY
    ensures g.DragEnd? && endTime > touch.lastTime ==>
      g.velocity * (endTime - touch.lastTime) as real == touch.startY - touch.lastY
    ensures g.DragEnd? && endTime <= touch.lastTime ==> g.velocity == 0.0
  {
    var timeDiff := endTime - touch.lastTime;
    var deltaY := touch.startY - touch.lastY;
    var velocity := if timeDiff > 0 then deltaY / timeDiff as real else 0.0;
    if Abs(deltaY) < 10.0 && endTime - touch.startTime < 300 then Tap
    else DragEnd(velocity, deltaY)
  }

  /** A touch released where it started, within 300 ms of its start, is a
      tap; one released 300 ms or more after it started is a drag even if
      it did not move. */
  lemma StillTouch(y: real, start: int, endTime: int)
    ensures Classify(TouchRecord(y, start, y, start), endTime) == if endTime - start < 300 then Tap else DragEnd(0.0, 0.0)
  {
  }

  /** A drag reports the direction of travel: positive upwards. */
  lemma DragDirection(touch: TouchRecord, endTime: int)
    requires Classify(touch, endTime).DragEnd?
    ensures touch.lastY < touch.startY ==> Classify(touch, endTime).deltaY > 0.0 && Classify(touch, endTime).velocity >= 0.0
    ensures touch.lastY > touch.startY ==> Classify(touch, endTime).deltaY < 0.0 && Classify(touch, endTime).velocity <= 0.0
  {
    var g := Classify(touch, endTime);
    if endTime > touch.lastTime {
      var dt := (endTime - touch.lastTime) as real;
      assert g.velocity * dt == touch.startY - touch.lastY;
    }
  }

  class ControlBar {
    var isDragging: bool
    var touch: Option<TouchRecord>

    constructor ()
      ensures !isDragging && touch == None
    {
      isDragging := false;
      touch := None;
    }

    /** `handleTouchStart`: starts a record at the touch's position and time. */
    method TouchStart(clientY: real, now: int)
      modifies this
      ensures touch == Some(TouchRecord(clientY, now, clientY, now)) && isDragging
    {
      touch := Some(TouchRecord(clientY, now, clientY, now));
      isDragging := true;
    }

    /** `handleTouchMove`: ignored unless a drag is active; otherwise the
        record's last position and time move and the travel since the start
        is reported. */
    method TouchMove(clientY: real, now: int) returns (drag: Option<real>)
      modifies this`touch
      ensures old(touch).None? || !isDragging ==> drag == None && touch == old(touch)
      ensures old(touch).Some? && isDragging ==>
        drag == Some(old(touch).value.startY - clientY) &&
        touch == Some(old(touch).value.(lastY := clientY, lastTime := now))
    {
      if touch.None? || !isDragging {
        return None;
      }
      var deltaY := touch.value.startY - clientY;
      touch := Some(touch.value.(lastY := clientY, lastTime := now));
      drag := Some(deltaY);
    }

    /** `handleTouchEnd`: with no active drag nothing happens; otherwise the
        touch is classified and the drag state is cleared. */
    method TouchEnd(now: int) returns (g: Gesture)
      modifies this
      ensures old(touch).None? || !old(isDragging) ==>
        g == NoGesture && touch == old(touch) && isDragging == old(isDragging)
      ensures old(touch).Some? && old(isDragging) ==>
        g == Classify(old(touch).value, now) && touch == None && !isDragging
    {
      if touch.None? || !isDragging {
        return NoGesture;
      }
      g := Classify(touch.value, now);
      isDragging := false;
      touch := None;
    }

    /** `handleTouchCancel`: the drag state is cleared and nothing is reported. */
    method TouchCancel()
      modifies this
      ensures !isDragging && touch == None
    {
      isDragging := false;
      touch := None;
    }
  }

  /** A touch that starts and is released without moving: a tap exactly when
      it was held less than 300 ms, and a drag otherwise. */
  method PressAndRelease(y: real, start: int, endTime: int) returns (g: Gesture)
    ensures g.Tap? <==> endTime - start < 300
    ensures g.DragEnd? <==> endTime - start >= 300
  {
    var bar := new ControlBar();
    bar.TouchStart(y, start);
    g := bar.TouchEnd(endTime);
    StillTouch(y, start, endTime);
  }
}
