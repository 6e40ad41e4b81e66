/**
 * Keyboard edge detection and mouse-lock bookkeeping of the Input namespace
 * (CLC/CORE/Input.cpp). The namespace's globals become the fields of one
 * object; the GLFW callbacks become methods the caller invokes with the
 * event's arguments.
 */
module InputState {
  import opened Glm

  /** GLFW_KEY_LAST: the size of each key-state array. */
  const KeyLast: int := 348
  const Release: int := 0
  const Press: int := 1

  const KeySpace: int := 32
  const KeyA: int := 65
  const KeyD: int := 68
  const KeyS: int := 83
  const KeyW: int := 87
  const KeyLeftShift: int := 340
  const KeyLeftControl: int := 341

  /** C++ float-to-int conversion: truncation toward zero. */
  function TruncToInt(x: real): (n: int)
    ensures x >= 0.0 ==> n as real <= x < n as real + 1.0
    ensures x < 0.0 ==> n as real - 1.0 < x <= n as real
  {
    if x >= 0.0 then x.Floor else -((-x).Floor)
  }

  class Input {
    const keysPressed: array<bool>
    const keysJustPressed: array<bool>
    const keysJustReleased: array<bool>
    var mousePosition: Vec2
    var prevMousePosition: Vec2
    var mouseDelta: Vec2
    var mouseLocked: bool
    var firstMouse: bool
    var scrollDelta: real

    ghost predicate Valid()
      reads this
    {
      keysPressed.Length == KeyLast && keysJustPressed.Length == KeyLast && keysJustReleased.Length == KeyLast
      && keysPressed != keysJustPressed && keysPressed != keysJustReleased && keysJustPressed != keysJustReleased
    }

    /** The initial state: every key up, mouse at the origin and unlocked, first event pending. */
    constructor ()
      ensures Valid() && fresh(keysPressed) && fresh(keysJustPressed) && fresh(keysJustReleased)
      ensures forall k :: 0 <= k < KeyLast ==> !keysPressed[k] && !keysJustPressed[k] && !keysJustReleased[k]
      ensures mousePosition == Zero2 && prevMousePosition == Zero2 && mouseDelta == Zero2
      ensures !mouseLocked && firstMouse && scrollDelta == 0.0
    {
      keysPressed := new bool[KeyLast](_ => false);
      keysJustPressed := new bool[KeyLast](_ => false);
      keysJustReleased := new bool[KeyLast](_ => false);
      mousePosition := Zero2;
      prevMousePosition := Zero2;
      mouseDelta := Zero2;
      mouseLocked := false;
      firstMouse := true;
      scrollDelta := 0.0;
    }

    /**
     * The per-frame update given the framebuffer size: clears the one-frame
     * key flags and the deltas, then either recentres a locked cursor
     * (computing the delta from the old position unless this is the first
     * locked frame) or, when unlocked, remembers the position as previous.
     */
    method Update(frameBufferWidth: real, frameBufferHeight: real)
      requires Valid()
      modifies this, keysJustPressed, keysJustReleased
      ensures Valid()
      ensures forall k :: 0 <= k < KeyLast ==> !keysJustPressed[k] && !keysJustReleased[k]
      ensures scrollDelta == 0.0 && mouseLocked == old(mouseLocked)
      ensures mouseLocked ==>
        var center := Vec2(TruncToInt(frameBufferWidth) as real / 2.0, TruncToInt(frameBufferHeight) as real / 2.0);
        && mousePosition == center
        && prevMousePosition == old(prevMousePosition)
        && !firstMouse
        && (old(firstMouse) ==> mouseDelta == Zero2)
        && (!old(firstMouse) ==> mouseDelta == Vec2(center.x - old(mousePosition).x, center.y - old(mousePosition).y))
      ensures !mouseLocked ==>
        mouseDelta == Zero2 && prevMousePosition == old(mousePosition)
        && mousePosition == old(mousePosition) && firstMouse == old(firstMouse)
    {
      scrollDelta := 0.0;
      mouseDelta := Zero2;
      var i := 0;
      while i < KeyLast
        invariant 0 <= i <= KeyLast
        invariant forall k :: 0 <= k < i ==> !keysJustPressed[k] && !keysJustReleased[k]
        modifies keysJustPressed, keysJustReleased
      {
        keysJustPressed[i] := false;
        keysJustReleased[i] := false;
        i := i + 1;
      }
      if mouseLocked {
        var width := TruncToInt(frameBufferWidth);
        var height := TruncToInt(frameBufferHeight);
        var centerX := width as real / 2.0;
        var centerY := height as real / 2.0;
        if !firstMouse {
          mouseDelta := Vec2(-mousePosition.x + centerX, centerY - mousePosition.y);
        } else {
          firstMouse := false;
          mouseDelta := Zero2;
        }
        mousePosition := Vec2(centerX, centerY);
      } else {
        prevMousePosition := mousePosition;
      }
    }

    /** The key's held state; the key code is used as an unchecked index. */
    function IsKeyPressed(key: int): (pressed: bool)
      requires Valid() && 0 <= key < KeyLast
      reads this, keysPressed
      ensures pressed <==> keysPressed[key]
    {
      keysPressed[key]
    }

    function IsKeyJustPressed(key: int): (pressed: bool)
      requires Valid() && 0 <= key < KeyLast
      reads this, keysJustPressed
      ensures pressed <==> keysJustPressed[key]
    {
      keysJustPressed[key]
    }

    function IsKeyJustReleased(key: int): (released: bool)
      requires Valid() && 0 <= key < KeyLast
      reads this, keysJustReleased
      ensures released <==> keysJustReleased[key]
    {
      keysJustReleased[key]
    }

    /** A no-op when the state is unchanged; otherwise stores it and re-arms the first-event flag. */
    method SetMouseLocked(locked: bool)
      modifies this
      ensures mouseLocked == locked
      ensures firstMouse == (if old(mouseLocked) == locked then old(firstMouse) else true)
      ensures mousePosition == old(mousePosition) && prevMousePosition == old(prevMousePosition)
      ensures mouseDelta == old(mouseDelta) && scrollDelta == old(scrollDelta)
    {
      if mouseLocked == locked {
        return;
      }
      mouseLocked := locked;
      firstMouse := true;
    }

    /**
     * Cursor moved to (x, y): the position is always stored; only an unlocked
     * cursor computes a delta, zero for the first event and otherwise
     * (x - prevX, prevY - y).
     */
    method MouseCallback(x: real, y: real)
      modifies this
      ensures mousePosition == Vec2(x, y)
      ensures mouseLocked == old(mouseLocked) && scrollDelta == old(scrollDelta)
      ensures mouseLocked ==> mouseDelta == old(mouseDelta) && prevMousePosition == old(prevMousePosition) && firstMouse == old(firstMouse)
      ensures !mouseLocked ==> prevMousePosition == Vec2(x, y) && !firstMouse
      ensures !mouseLocked && old(firstMouse) ==> mouseDelta == Zero2
      ensures !mouseLocked && !old(firstMouse) ==> mouseDelta == Vec2(x - old(prevMousePosition).x, old(prevMousePosition).y - y)
    {
      mousePosition := Vec2(x, y);
      if !mouseLocked {
        if firstMouse {
          prevMousePosition := mousePosition;
          firstMouse := false;
          mouseDelta := Zero2;
        } else {
          mouseDelta := Vec2(mousePosition.x - prevMousePosition.x, prevMousePosition.y - mousePosition.y);
          prevMousePosition := mousePosition;
        }
      }
    }

    method ScrollCallback(yOffset: real)
      modifies this
      ensures scrollDelta == yOffset
      ensures mousePosition == old(mousePosition) && prevMousePosition == old(prevMousePosition)
      ensures mouseDelta == old(mouseDelta) && mouseLocked == old(mouseLocked) && firstMouse == old(firstMouse)
    {
      scrollDelta := yOffset;
    }

    /**
     * Key event: keys outside [0, KeyLast) are ignored; PRESS sets held and
     * just-pressed, RELEASE clears held and sets just-released, any other
     * action (repeat) changes nothing.
     */
    method KeyCallback(key: int, action: int)
      requires Valid()
      modifies keysPressed, keysJustPressed, keysJustReleased
      ensures 0 <= key < KeyLast && action == Press ==>
        keysPressed[..] == old(keysPressed[..])[key := true]
        && keysJustPressed[..] == old(keysJustPressed[..])[key := true]
        && keysJustReleased[..] == old(keysJustReleased[..])
      ensures 0 <= key < KeyLast && action == Release ==>
        keysPressed[..] == old(keysPressed[..])[key := false]
        && keysJustPressed[..] == old(keysJustPressed[..])
        && keysJustReleased[..] == old(keysJustReleased[..])[key := true]
      ensures !(0 <= key < KeyLast) || (action != Press && action != Release) ==>
        keysPressed[..] == old(keysPressed[..])
        && keysJustPressed[..] == old(keysJustPressed[..])
        && keysJustReleased[..] == old(keysJustReleased[..])
    {
      if 0 <= key < KeyLast {
        if action == Press {
          keysPressed[key] := true;
          keysJustPressed[key] := true;
        } else if action == Release {
          keysPressed[key] := false;
          keysJustReleased[key] := true;
        }
      }
    }

    /** Regaining focus while locked re-arms the first-event flag; nothing else changes. */
    method WindowFocusCallback(focused: int)
      modifies this
      ensures firstMouse == (if focused != 0 && mouseLocked then true else old(firstMouse))
      ensures mouseLocked == old(mouseLocked) && mousePosition == old(mousePosition)
      ensures prevMousePosition == old(prevMousePosition) && mouseDelta == old(mouseDelta) && scrollDelta == old(scrollDelta)
    {
      if focused != 0 {
        if mouseLocked {
          firstMouse := true;
        }
      }
    }
  }
}
