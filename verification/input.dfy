/** Per-frame input state: which keys and mouse buttons are held, and which of them went down
    or up during the current frame, found by comparing the held set with a snapshot taken when
    the frame started. */
module Input {
  /** A physical key, identified by its code. */
  datatype KeyCode = KeyCode(code: nat)

  /** The mouse buttons the windowing layer reports. */
  datatype MouseButton = Left | Right | Middle | Back | Forward | Other(id: nat)

  /** The four sets kept per device: held now, went down this frame, went up this frame, and
      held when the frame started. */
  datatype Buttons<T> = Buttons(pressed: set<T>, justPressed: set<T>, justReleased: set<T>, previous: set<T>)

  /** `start_frame` for one device: remember what is held, forget the last frame's edges. */
  function StartFrameOf<T>(b: Buttons<T>): Buttons<T> {
    b.(justPressed := {}, justReleased := {}, previous := b.pressed)
  }

  /** `end_frame` for one device: add what is held now but was not at the start, and what was
      held at the start but is not now. */
  function EndFrameOf<T>(b: Buttons<T>): Buttons<T> {
    b.(justPressed := b.justPressed + (b.pressed - b.previous),
       justReleased := b.justReleased + (b.previous - b.pressed))
  }

  /** What a frame can rely on: nothing that went down was held at the start, and everything
      that went up was. */
  predicate EdgesConsistent<T>(b: Buttons<T>) {
    b.justPressed !! b.previous && b.justReleased <= b.previous
  }

  /** Starting a frame establishes the invariant, whatever the state before. */
  lemma StartFrameConsistent<T>(b: Buttons<T>)
    ensures EdgesConsistent(StartFrameOf(b))
    ensures StartFrameOf(b).justPressed == {} && StartFrameOf(b).justReleased == {}
    ensures StartFrameOf(b).previous == StartFrameOf(b).pressed == b.pressed
  {
  }

  /** Events change only the held set, and every held set keeps the invariant. */
  lemma PressedEditsConsistent<T>(b: Buttons<T>, held: set<T>)
    requires EdgesConsistent(b)
    ensures EdgesConsistent(b.(pressed := held))
  {
  }

  /** Ending a frame keeps the invariant. */
  lemma EndFrameConsistent<T>(b: Buttons<T>)
    requires EdgesConsistent(b)
    ensures EdgesConsistent(EndFrameOf(b))
  {
  }

  /** Under the invariant nothing has both gone down and up in one frame. */
  lemma ConsistentEdgesDisjoint<T>(b: Buttons<T>)
    requires EdgesConsistent(b)
    ensures b.justPressed !! b.justReleased
  {
  }

  /** Ending a frame twice is ending it once. */
  lemma EndFrameIdempotent<T>(b: Buttons<T>)
    ensures EndFrameOf(EndFrameOf(b)) == EndFrameOf(b)
  {
  }

  /** A whole frame: start, the events leave `held` held, end. Exactly the newly held went
      down and exactly the no longer held went up, never both; an unchanged held set gives no
      edges at all. */
  lemma FrameEdges<T>(b: Buttons<T>, held: set<T>)
    ensures var e := EndFrameOf(StartFrameOf(b).(pressed := held));
      && e.justPressed == held - b.pressed && e.justReleased == b.pressed - held
      && e.justPressed !! e.justReleased
      && e.pressed == held && e.previous == b.pressed
      && (held == b.pressed ==> e.justPressed == {} && e.justReleased == {})
  {
  }

  /** One `for` loop of `end_frame`: every member of `from` not in `absent` is inserted into
      `into`. */
  method InsertMissing<T(==)>(from: set<T>, absent: set<T>, into: set<T>) returns (r: set<T>)
    ensures r == into + (from - absent)
  {
    r := into;
    var rest := from;
    while rest != {}
      invariant rest <= from
      invariant r == into + ((from - rest) - absent)
      decreases |rest|
    {
      var x :| x in rest;
      if x !in absent {
        r := r + {x};
      }
      rest := rest - {x};
    }
  }

  class WreInput {
    var pressedKeys: set<KeyCode>
    var justPressedKeys: set<KeyCode>
    var justReleasedKeys: set<KeyCode>
    var pressedMouseButtons: set<MouseButton>
    var justPressedMouseButtons: set<MouseButton>
    var justReleasedMouseButtons: set<MouseButton>
    var mousePosition: (real, real)
    var mouseDelta: (real, real)
    var mouseScrollDelta: (real, real)
    var previousPressedKeys: set<KeyCode>
    var previousPressedMouseButtons: set<MouseButton>

    function Keys(): Buttons<KeyCode>
      reads this
    {
      Buttons(pressedKeys, justPressedKeys, justReleasedKeys, previousPressedKeys)
    }

    function MouseButtons(): Buttons<MouseButton>
      reads this
    {
      Buttons(pressedMouseButtons, justPressedMouseButtons, justReleasedMouseButtons, previousPressedMouseButtons)
    }

    /** The edge invariant for both devices. */
    predicate Valid()
      reads this
    {
      EdgesConsistent(Keys()) && EdgesConsistent(MouseButtons())
    }

    /** `new`, the derived default: every set empty, every pair (0, 0). */
    constructor ()
      ensures Keys() == Buttons({}, {}, {}, {}) && MouseButtons() == Buttons({}, {}, {}, {})
      ensures mousePosition == (0.0, 0.0) && mouseDelta == (0.0, 0.0) && mouseScrollDelta == (0.0, 0.0)
      ensures Valid()
    {
      pressedKeys, justPressedKeys, justReleasedKeys, previousPressedKeys := {}, {}, {}, {};
      pressedMouseButtons, justPressedMouseButtons, justReleasedMouseButtons := {}, {}, {};
      previousPressedMouseButtons := {};
      mousePosition, mouseDelta, mouseScrollDelta := (0.0, 0.0), (0.0, 0.0), (0.0, 0.0);
    }

    function IsKeyPressed(key: KeyCode): (b: bool)
      reads this
      ensures b <==> key in Keys().pressed
    {
      key in pressedKeys
    }

    function WasKeyJustPressed(key: KeyCode): (b: bool)
      reads this
      ensures b <==> key in Keys().justPressed
    {
      key in justPressedKeys
    }

    function WasKeyJustReleased(key: KeyCode): (b: bool)
      reads this
      ensures b <==> key in Keys().justReleased
    {
      key in justReleasedKeys
    }

    function IsMouseButtonPressed(button: MouseButton): (b: bool)
      reads this
      ensures b <==> button in MouseButtons().pressed
    {
      button in pressedMouseButtons
    }

    function WasMouseButtonJustPressed(button: MouseButton): (b: bool)
      reads this
      ensures b <==> button in MouseButtons().justPressed
    {
      button in justPressedMouseButtons
    }

    function WasMouseButtonJustReleased(button: MouseButton): (b: bool)
      reads this
      ensures b <==> button in MouseButtons().justReleased
    {
      button in justReleasedMouseButtons
    }

    function GetMousePosition(): (real, real)
      reads this
    {
      mousePosition
    }

    function GetMouseDelta(): (real, real)
      reads this
    {
      mouseDelta
    }

    function GetMouseScrollDelta(): (real, real)
      reads this
    {
      mouseScrollDelta
    }

    /** Called once per frame before the frame's events. */
    method StartFrame()
      modifies this
      ensures Keys() == StartFrameOf(old(Keys())) && MouseButtons() == StartFrameOf(old(MouseButtons()))
      ensures mousePosition == old(mousePosition)
      ensures mouseDelta == (0.0, 0.0) && mouseScrollDelta == (0.0, 0.0)
      ensures Valid()
    {
      previousPressedKeys := pressedKeys;
      previousPressedMouseButtons := pressedMouseButtons;
      justPressedKeys := {};
      justReleasedKeys := {};
      justPressedMouseButtons := {};
      justReleasedMouseButtons := {};
      mouseDelta := (0.0, 0.0);
      mouseScrollDelta := (0.0, 0.0);
      StartFrameConsistent(Keys());
      StartFrameConsistent(MouseButtons());
    }

    /** Called once per frame after the frame's events. */
    method EndFrame()
      modifies this
      ensures Keys() == EndFrameOf(old(Keys())) && MouseButtons() == EndFrameOf(old(MouseButtons()))
      ensures mousePosition == old(mousePosition) && mouseDelta == old(mouseDelta)
      ensures mouseScrollDelta == old(mouseScrollDelta)
      ensures old(Valid()) ==> Valid()
    {
      justPressedKeys := InsertMissing(pressedKeys, previousPressedKeys, justPressedKeys);
      justReleasedKeys := InsertMissing(previousPressedKeys, pressedKeys, justReleasedKeys);
      justPressedMouseButtons := InsertMissing(pressedMouseButtons, previousPressedMouseButtons, justPressedMouseButtons);
      justReleasedMouseButtons := InsertMissing(previousPressedMouseButtons, pressedMouseButtons, justReleasedMouseButtons);
      if old(Valid()) {
        EndFrameConsistent(old(Keys()));
        EndFrameConsistent(old(MouseButtons()));
      }
    }
  }
}
