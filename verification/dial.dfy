/**
 * The view and dial state that the event handlers share: the committed view
 * index, the wheel cooldown flag and the rotary dial's drag state. Pointer
 * angles arrive already computed (the `atan2` of the pointer position is not
 * modelled); the cooldown's timer is the separate `CooldownElapsed` event.
 */
module Dial {
  import opened Views

  class ViewController {
    var currentIndex: int
    var wheelCooldown: bool
    var isDragging: bool
    var startAngle: real
    var currentRotation: real

    /** The committed view is a valid index, and whenever no drag is in progress
        the dial shows exactly that view's sector. */
    ghost predicate Valid()
      reads this
    {
      && 0 <= currentIndex < N
      && (!isDragging ==> currentRotation == currentIndex as real * STEP)
    }

    /** Start-up: the module-level defaults, then `setViewByIndex(0)` and
        `syncRotationToIndex()`. */
    constructor ()
      ensures Valid()
      ensures currentIndex == 0 && currentRotation == 0.0
      ensures !isDragging && !wheelCooldown
    {
      currentIndex, wheelCooldown := 0, false;
      isDragging, startAngle, currentRotation := false, 0.0, 0.0;
      new;
      SetViewByIndex(0);
      SyncRotationToIndex();
    }

    /** The original `setViewByIndex`, before it is wrapped: wrap and commit the index. */
    method SetViewIndex(idx: int)
      modifies this`currentIndex
      ensures currentIndex == WrapIndex(idx)
      ensures -N <= idx ==> 0 <= currentIndex < N && currentIndex == idx % N
    {
      currentIndex := JsMod(idx + N);
    }

    method SetRotation(deg: real)
      modifies this`currentRotation
      ensures currentRotation == deg
    {
      currentRotation := deg;
    }

    method SyncRotationToIndex()
      modifies this`currentRotation
      ensures currentRotation == currentIndex as real * STEP
    {
      SetRotation(currentIndex as real * STEP);
    }

    /** `setViewByIndex` as wrapped to keep the dial in sync; every later caller
        (buttons, wheel, name lookup) uses this one. */
    method SetViewByIndex(idx: int)
      modifies this`currentIndex, this`currentRotation
      ensures currentIndex == WrapIndex(idx)
      ensures currentRotation == currentIndex as real * STEP
      ensures -N <= idx ==> Valid() && currentIndex == idx % N
    {
      SetViewIndex(idx);
      SyncRotationToIndex();
    }

    /** Select a view by name; an unknown name changes nothing. */
    method SetViewByName(view: string)
      requires Valid()
      modifies this`currentIndex, this`currentRotation
      ensures Valid()
      ensures view !in VIEWS ==> currentIndex == old(currentIndex) && currentRotation == old(currentRotation)
      ensures view in VIEWS ==> VIEWS[currentIndex] == view && currentRotation == currentIndex as real * STEP
    {
      var idx := IndexOf(VIEWS, view);
      if idx != -1 {
        SetViewByIndex(idx);
      }
    }

    /** A wheel event: ignored during the cooldown, otherwise it starts the
        cooldown and steps one view forward (deltaY > 0) or back, wrapping. */
    method Wheel(deltaY: real)
      requires Valid()
      modifies this`wheelCooldown, this`currentIndex, this`currentRotation
      ensures Valid()
      ensures old(wheelCooldown) ==> wheelCooldown && currentIndex == old(currentIndex)
                                     && currentRotation == old(currentRotation)
      ensures !old(wheelCooldown) ==>
        && wheelCooldown
        && currentIndex == (old(currentIndex) + (if deltaY > 0.0 then 1 else -1)) % N
        && currentRotation == currentIndex as real * STEP
    {
      if wheelCooldown { return; }
      wheelCooldown := true;
      var dir := if deltaY > 0.0 then 1 else -1;
      SetViewByIndex(currentIndex + dir);
    }

    /** The cooldown timer firing. */
    method CooldownElapsed()
      requires Valid()
      modifies this`wheelCooldown
      ensures Valid() && !wheelCooldown
    {
      wheelCooldown := false;
    }

    /** Pointer pressed on the dial at `pointerAngle`: remember the offset that keeps
        the dial where it is. */
    method PointerDown(pointerAngle: real)
      requires Valid()
      modifies this`isDragging, this`startAngle
      ensures Valid() && isDragging
      ensures startAngle == pointerAngle - currentRotation
    {
      isDragging := true;
      startAngle := pointerAngle - currentRotation;
    }

    /** Pointer moved: while dragging, the dial turns by as much as the pointer has
        turned since it was pressed. Without a drag nothing changes. */
    method PointerMove(pointerAngle: real)
      requires Valid()
      modifies this`currentRotation
      ensures Valid()
      ensures old(isDragging) ==> currentRotation == pointerAngle - startAngle
      ensures !old(isDragging) ==> currentRotation == old(currentRotation)
    {
      if !isDragging { return; }
      SetRotation(pointerAngle - startAngle);
    }

    /** Pointer released (or cancelled): commit the sector nearest to the rotation and
        snap the dial exactly onto it. Without a drag nothing changes. */
    method PointerUp()
      requires Valid()
      modifies this`isDragging, this`currentIndex, this`currentRotation
      ensures Valid() && !isDragging
      ensures old(isDragging) ==>
        && currentIndex == FinalIndex(old(currentRotation))
        && currentRotation == currentIndex as real * STEP
      ensures !old(isDragging) ==> currentIndex == old(currentIndex) && currentRotation == old(currentRotation)
    {
      if !isDragging { return; }
      isDragging := false;
      var snapped := Round(currentRotation / STEP);
      var finalIndex := JsMod(JsMod(snapped) + N);
      SetViewIndex(finalIndex);
      SyncRotationToIndex();
    }
  }

  /** A drag from the start-up position: pressing at 10 degrees and releasing at
      137 degrees turns the dial by 127 degrees, which commits the "todo" view. */
  method DragScenario() {
    var c := new ViewController();
    c.PointerDown(10.0);
    c.PointerMove(137.0);
    assert c.currentRotation == 127.0;
    c.PointerUp();
    FinalIndexExamples();
    assert c.currentIndex == 2 && VIEWS[c.currentIndex] == "todo";
    assert c.currentRotation == 144.0;
    c.Wheel(1.0);
    assert c.currentIndex == 3;
    c.Wheel(1.0);
    assert c.currentIndex == 3;
  }
}
