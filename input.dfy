/**
 * The client's per-frame input state: a table of 256 button slots, each
 * cycling Up -> Pressed -> Down -> Released -> Up, plus mouse bookkeeping.
 * Key and mouse events write slots; `FlagNewFrame` settles the one-frame
 * edge states at the end of every frame.
 */
module Input {
  import opened Math

  /** Number of button slots. */
  const ButtonCount := 256

  newtype UInt16 = x: int | 0 <= x < 0x1_0000

  datatype ButtonState = Up | Pressed | Down | Released

  datatype Button = Ascii(ch: char) | Backspace | Escape | Shift | Enter | Tab | LeftMouse

  /** A button held this frame, whether it went down this frame or earlier. */
  predicate IsDown(s: ButtonState) {
    s == Pressed || s == Down
  }

  /** A button that went down this frame. */
  predicate IsPressed(s: ButtonState) {
    s == Pressed
  }

  /** A state that lasts across frames (not a one-frame edge). */
  predicate Settled(s: ButtonState) {
    s == Up || s == Down
  }

  /**
   * A button owns a slot unless it is a character past the table:
   * indexing the table with such a character panics.
   */
  predicate HasSlot(b: Button) {
    b.Ascii? ==> b.ch as int < ButtonCount
  }

  /** The slot a button's state lives in. */
  function SlotOf(b: Button): (i: nat)
    requires HasSlot(b)
    ensures i < ButtonCount
    ensures b.Ascii? ==> i == b.ch as int
  {
    match b
    case Ascii(ch) => ch as int
    case Backspace => 1
    case Escape => 2
    case Shift => 3
    case Enter => 4
    case Tab => 5
    case LeftMouse => 0
  }

  /**
   * Character `a` shares its slot with the named button `b`: the characters
   * with codes 0 to 5 land on LeftMouse, Backspace, Escape, Shift, Enter and Tab.
   */
  predicate Aliases(a: Button, b: Button) {
    a.Ascii? &&
    match b
    case LeftMouse => a.ch as int == 0
    case Backspace => a.ch as int == 1
    case Escape => a.ch as int == 2
    case Shift => a.ch as int == 3
    case Enter => a.ch as int == 4
    case Tab => a.ch as int == 5
    case Ascii(_) => false
  }

  /**
   * Two buttons share a slot exactly when they are the same button or a
   * low character aliases a named button.
   */
  lemma SlotsDistinct(a: Button, b: Button)
    requires HasSlot(a) && HasSlot(b)
    ensures SlotOf(a) == SlotOf(b) <==> a == b || Aliases(a, b) || Aliases(b, a)
  {
  }

  /** The step one slot takes at the end of a frame. */
  function Advance(s: ButtonState): (r: ButtonState)
    ensures Settled(r)
    ensures IsDown(r) == IsDown(s)
  {
    match s
    case Up => Up
    case Released => Up
    case Down => Down
    case Pressed => Down
  }

  /** The whole table after the end of a frame. */
  function NewFrame(bs: seq<ButtonState>): (r: seq<ButtonState>)
    ensures |r| == |bs|
  {
    if bs == [] then [] else [Advance(bs[0])] + NewFrame(bs[1..])
  }

  lemma {:induction false} NewFrameAt(bs: seq<ButtonState>, i: nat)
    requires i < |bs|
    ensures NewFrame(bs)[i] == Advance(bs[i])
  {
    if i > 0 {
      NewFrameAt(bs[1..], i - 1);
    }
  }

  /**
   * After a frame no slot is Pressed or Released, and every slot is held
   * exactly when it was held before.
   */
  lemma NewFrameSettles(bs: seq<ButtonState>)
    ensures forall i :: 0 <= i < |bs| ==> Settled(NewFrame(bs)[i])
    ensures forall i :: 0 <= i < |bs| ==> IsDown(NewFrame(bs)[i]) == IsDown(bs[i])
  {
    forall i | 0 <= i < |bs|
      ensures Settled(NewFrame(bs)[i]) && IsDown(NewFrame(bs)[i]) == IsDown(bs[i])
    {
      NewFrameAt(bs, i);
    }
  }

  /** Ending a frame twice leaves the table as ending it once. */
  lemma {:induction false} NewFrameIdempotent(bs: seq<ButtonState>)
    ensures NewFrame(NewFrame(bs)) == NewFrame(bs)
  {
    if bs != [] {
      NewFrameIdempotent(bs[1..]);
      assert NewFrame(bs)[1..] == NewFrame(bs[1..]);
    }
  }

  /**
   * A press or a release is seen for exactly one frame: at the next frame
   * the slot is Down or Up.
   */
  lemma EdgeLastsOneFrame(bs: seq<ButtonState>, i: nat, s: ButtonState)
    requires i < |bs|
    requires s == Pressed || s == Released
    ensures NewFrame(bs[i := s])[i] == (if s == Pressed then Down else Up)
    ensures IsDown(NewFrame(bs[i := s])[i]) == (s == Pressed)
    ensures !IsPressed(NewFrame(bs[i := s])[i])
  {
    NewFrameAt(bs[i := s], i);
  }

  class InputState {
    var clickStartPos: Vec2i
    var isDragging: bool

    var prevMousePos: Vec2i
    var mousePos: Vec2i
    var mouseCaptured: bool

    var buttons: array<ButtonState>
    var mouseDelta: Vec2i

    var touchEnabled: bool

    ghost predicate Valid()
      reads this`buttons
    {
      buttons.Length == ButtonCount
    }

    constructor ()
      ensures Valid() && fresh(buttons)
      ensures forall i :: 0 <= i < ButtonCount ==> buttons[i] == Up
      ensures clickStartPos == Zero && !isDragging
      ensures prevMousePos == Zero && mousePos == Zero && !mouseCaptured
      ensures mouseDelta == Zero && !touchEnabled
    {
      clickStartPos := Zero;
      isDragging := false;
      prevMousePos := Zero;
      mousePos := Zero;
      mouseCaptured := false;
      buttons := new ButtonState[ButtonCount](_ => Up);
      mouseDelta := Zero;
      touchEnabled := false;
    }

    /**
     * Ends a frame: every slot takes its `Advance` step, the previous mouse
     * position catches up and the accumulated delta is cleared.
     */
    method FlagNewFrame()
      requires Valid()
      modifies buttons, this`prevMousePos, this`mouseDelta
      ensures buttons[..] == NewFrame(old(buttons[..]))
      ensures prevMousePos == mousePos && mouseDelta == Zero
    {
      for i := 0 to buttons.Length
        invariant forall k :: 0 <= k < i ==> buttons[k] == Advance(old(buttons[k]))
        invariant forall k :: i <= k < buttons.Length ==> buttons[k] == old(buttons[k])
      {
        buttons[i] := Advance(buttons[i]);
      }
      forall k | 0 <= k < buttons.Length
        ensures buttons[..][k] == NewFrame(old(buttons[..]))[k]
      {
        NewFrameAt(old(buttons[..]), k);
      }

      prevMousePos := mousePos;
      mouseDelta := Zero;
    }

    function IsMouseCaptured(): bool
      reads this`mouseCaptured
    {
      mouseCaptured
    }

    function GetButtonState(b: Button): ButtonState
      reads this`buttons, buttons
      requires Valid() && HasSlot(b)
    {
      buttons[SlotOf(b)]
    }

    /** A button is down unless its slot is Up or Released. */
    function IsButtonDown(b: Button): (r: bool)
      reads this`buttons, buttons
      requires Valid() && HasSlot(b)
      ensures r <==> GetButtonState(b) != Up && GetButtonState(b) != Released
    {
      IsDown(GetButtonState(b))
    }

    /** A button that went down this frame is also reported as down. */
    function IsButtonPressed(b: Button): (r: bool)
      reads this`buttons, buttons
      requires Valid() && HasSlot(b)
      ensures r ==> IsButtonDown(b)
    {
      IsPressed(GetButtonState(b))
    }

    method OnCaptureStateChange(active: bool)
      modifies this`mouseCaptured
      ensures IsMouseCaptured() == active
    {
      mouseCaptured := active;
    }

    /** Only the left button (0) is tracked; it goes down and the drag origin is recorded. */
    method OnMouseDown(x: int, y: int, button: UInt16)
      requires Valid()
      modifies buttons, this`clickStartPos
      ensures button != 0 ==> buttons[..] == old(buttons[..]) && clickStartPos == old(clickStartPos)
      ensures button == 0 ==> buttons[..] == old(buttons[..])[SlotOf(LeftMouse) := Pressed]
      ensures button == 0 ==> clickStartPos == Vec2i(x, y) && IsButtonPressed(LeftMouse)
    {
      if button != 0 { return; }

      buttons[SlotOf(LeftMouse)] := Pressed;

      clickStartPos := Vec2i(x, y);
    }

    /** Only the left button (0) is tracked; it is released and dragging ends. */
    method OnMouseUp(x: int, y: int, button: UInt16)
      requires Valid()
      modifies buttons, this`isDragging
      ensures button != 0 ==> buttons[..] == old(buttons[..]) && isDragging == old(isDragging)
      ensures button == 0 ==> buttons[..] == old(buttons[..])[SlotOf(LeftMouse) := Released]
      ensures button == 0 ==> !isDragging && !IsButtonDown(LeftMouse)
    {
      if button != 0 { return; }

      buttons[SlotOf(LeftMouse)] := Released;

      isDragging := false;
    }

    /**
     * While the pointer is captured only the relative motion accumulates;
     * otherwise the absolute position is taken and the delta is measured
     * from the previous frame's position.
     */
    method OnMouseMove(x: int, y: int, dx: int, dy: int)
      modifies this`mousePos, this`mouseDelta
      ensures mouseCaptured ==> mousePos == old(mousePos)
      ensures mouseCaptured ==> mouseDelta == Add(old(mouseDelta), Vec2i(dx, dy))
      ensures !mouseCaptured ==> mousePos == Vec2i(x, y)
      ensures !mouseCaptured ==> mouseDelta == Sub(Vec2i(x, y), prevMousePos)
    {
      var pos := Vec2i(x, y);
      var delta := Vec2i(dx, dy);

      if mouseCaptured {
        mouseDelta := Add(mouseDelta, delta);
      } else {
        mousePos := pos;
        mouseDelta := Sub(pos, prevMousePos);
      }
    }

    method OnKeyDown(b: Button)
      requires Valid() && HasSlot(b)
      modifies buttons
      ensures buttons[..] == old(buttons[..])[SlotOf(b) := Pressed]
      ensures IsButtonPressed(b) && IsButtonDown(b)
    {
      buttons[SlotOf(b)] := Pressed;
    }

    method OnKeyUp(b: Button)
      requires Valid() && HasSlot(b)
      modifies buttons
      ensures buttons[..] == old(buttons[..])[SlotOf(b) := Released]
      ensures !IsButtonPressed(b) && !IsButtonDown(b)
    {
      buttons[SlotOf(b)] := Released;
    }
  }
}
