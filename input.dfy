/** The input bookkeeping of the `GUI` window: for the keyboard and for the mouse buttons,
    a set of held ids plus the ids pressed and released during the current frame, and the
    scroll offset accumulated during the frame. The window system's callbacks are modelled
    as a sequence of events; the `GUI` methods are proved to apply one event each. */
module Input {
  import opened Geometry

  /** The action codes of the window system's key and mouse-button callbacks. */
  const GLFW_RELEASE: int := 0
  const GLFW_PRESS: int := 1

  datatype Device = Keyboard | Mouse

  /** A callback invocation, or the end of a frame. */
  datatype Event =
    | Button(device: Device, id: int, action: int)
    | Scroll(dx: real, dy: real)
    | FrameEnd

  datatype Buttons = Buttons(held: set<int>, justPressed: set<int>, justReleased: set<int>)

  datatype State = State(keys: Buttons, mouse: Buttons, scrollX: real, scrollY: real)

  /** The state of a new window: nothing held or pressed, no scroll. */
  const INITIAL: State := State(Buttons({}, {}, {}), Buttons({}, {}, {}), 0.0, 0.0)

  function Of(s: State, d: Device): Buttons {
    if d == Keyboard then s.keys else s.mouse
  }

  /** A press or release callback on one device's sets; other actions change nothing. */
  function Press(b: Buttons, id: int, action: int): Buttons {
    if action == GLFW_PRESS then Buttons(b.held + {id}, b.justPressed + {id}, b.justReleased)
    else if action == GLFW_RELEASE then Buttons(b.held - {id}, b.justPressed, b.justReleased + {id})
    else b
  }

  function Step(s: State, e: Event): State {
    match e
    case Button(d, id, action) =>
      if d == Keyboard then s.(keys := Press(s.keys, id, action)) else s.(mouse := Press(s.mouse, id, action))
    case Scroll(dx, dy) => s.(scrollX := s.scrollX + dx, scrollY := s.scrollY + dy)
    case FrameEnd =>
      State(Buttons(s.keys.held, {}, {}), Buttons(s.mouse.held, {}, {}), 0.0, 0.0)
  }

  /** The events, in order. */
  function Replay(s: State, es: seq<Event>): State {
    if es == [] then s else Step(Replay(s, es[..|es| - 1]), es[|es| - 1])
  }

  /** The last press or release of `id` on `d`, if any. */
  function LastAction(es: seq<Event>, d: Device, id: int): Option<int> {
    if es == [] then None
    else
      var e := es[|es| - 1];
      if e == Button(d, id, GLFW_PRESS) || e == Button(d, id, GLFW_RELEASE) then Some(e.action)
      else LastAction(es[..|es| - 1], d, id)
  }

  /** Some frame ended during `es`. */
  predicate Ended(es: seq<Event>) {
    es != [] && (es[|es| - 1] == FrameEnd || Ended(es[..|es| - 1]))
  }

  /** The events after the last frame end. */
  function SinceFrame(es: seq<Event>): seq<Event> {
    if es == [] then []
    else if es[|es| - 1] == FrameEnd then []
    else SinceFrame(es[..|es| - 1]) + [es[|es| - 1]]
  }

  /** `e` occurs in `es`. */
  predicate Happened(es: seq<Event>, e: Event) {
    es != [] && (es[|es| - 1] == e || Happened(es[..|es| - 1], e))
  }

  function SumX(es: seq<Event>): real {
    if es == [] then 0.0 else SumX(es[..|es| - 1]) + (if es[|es| - 1].Scroll? then es[|es| - 1].dx else 0.0)
  }

  function SumY(es: seq<Event>): real {
    if es == [] then 0.0 else SumY(es[..|es| - 1]) + (if es[|es| - 1].Scroll? then es[|es| - 1].dy else 0.0)
  }

  /** One callback: a press adds `id` to the held and just-pressed sets, a release removes
      it from the held set and adds it to the just-released set, any other action leaves
      the sets as they are; no other id and no other device is affected. */
  lemma ButtonEvent(s: State, d: Device, id: int, action: int, other: int)
    ensures var r := Of(Step(s, Button(d, id, action)), d); var b := Of(s, d);
      && (action == GLFW_PRESS ==> id in r.held && id in r.justPressed && r.justReleased == b.justReleased)
      && (action == GLFW_RELEASE ==> id !in r.held && id in r.justReleased && r.justPressed == b.justPressed)
      && (action != GLFW_PRESS && action != GLFW_RELEASE ==> r == b)
      && (other != id ==> (other in r.held <==> other in b.held) && (other in r.justPressed <==> other in b.justPressed)
                          && (other in r.justReleased <==> other in b.justReleased))
    ensures var kb := d == Keyboard; var t := Step(s, Button(d, id, action));
      && (if kb then t.mouse == s.mouse else t.keys == s.keys)
      && t.scrollX == s.scrollX && t.scrollY == s.scrollY
  {
  }

  /** Ending a frame empties the four per-frame sets and the scroll offset, and keeps the
      held keys and buttons. */
  lemma FrameEndClears(s: State)
    ensures var r := Step(s, FrameEnd);
      && r.keys.held == s.keys.held && r.mouse.held == s.mouse.held
      && r.keys.justPressed == {} && r.keys.justReleased == {}
      && r.mouse.justPressed == {} && r.mouse.justReleased == {}
      && r.scrollX == 0.0 && r.scrollY == 0.0
  {
  }

  /** An id is held exactly when its last press or release was a press (or, with none,
      when it was held before). */
  lemma {:induction false} HeldAfter(s: State, es: seq<Event>, d: Device, id: int)
    ensures id in Of(Replay(s, es), d).held <==>
      match LastAction(es, d, id)
      case None => id in Of(s, d).held
      case Some(a) => a == GLFW_PRESS
  {
    if es != [] {
      HeldAfter(s, es[..|es| - 1], d, id);
    }
  }

  /** An id is just pressed exactly when it was pressed since the last frame end (or, with
      no frame end, was just pressed before); just released likewise. */
  lemma {:induction false} JustAfter(s: State, es: seq<Event>, d: Device, id: int)
    ensures id in Of(Replay(s, es), d).justPressed <==>
      Happened(SinceFrame(es), Button(d, id, GLFW_PRESS)) || (!Ended(es) && id in Of(s, d).justPressed)
    ensures id in Of(Replay(s, es), d).justReleased <==>
      Happened(SinceFrame(es), Button(d, id, GLFW_RELEASE)) || (!Ended(es) && id in Of(s, d).justReleased)
  {
    if es != [] {
      var pre := es[..|es| - 1];
      var e := es[|es| - 1];
      JustAfter(s, pre, d, id);
      if e != FrameEnd {
        assert SinceFrame(es) == SinceFrame(pre) + [e];
        assert SinceFrame(es)[..|SinceFrame(es)| - 1] == SinceFrame(pre);
      }
    }
  }

  /** The scroll offset is the sum of the offsets since the last frame end (plus the offset
      before, when no frame ended). */
  lemma {:induction false} ScrollAfter(s: State, es: seq<Event>)
    ensures Replay(s, es).scrollX == (if Ended(es) then 0.0 else s.scrollX) + SumX(SinceFrame(es))
    ensures Replay(s, es).scrollY == (if Ended(es) then 0.0 else s.scrollY) + SumY(SinceFrame(es))
  {
    if es != [] {
      var pre := es[..|es| - 1];
      var e := es[|es| - 1];
      ScrollAfter(s, pre);
      if e != FrameEnd {
        assert SinceFrame(es) == SinceFrame(pre) + [e];
        assert SinceFrame(es)[..|SinceFrame(es)| - 1] == SinceFrame(pre);
      }
    }
  }

  /** Whatever history of events from a new window led to `s`, an id is held in `s`
      exactly when its last press or release was a press. */
  lemma HeldReport(s: State, d: Device, id: int)
    ensures forall es :: Replay(INITIAL, es) == s ==> (id in Of(s, d).held <==> LastAction(es, d, id) == Some(GLFW_PRESS))
  {
    forall es | Replay(INITIAL, es) == s
      ensures id in Of(s, d).held <==> LastAction(es, d, id) == Some(GLFW_PRESS)
    {
      HeldAfter(INITIAL, es, d, id);
    }
  }

  /** Whatever history of events from a new window led to `s`, an id is just pressed
      (just released) in `s` exactly when it was pressed (released) since the last frame end. */
  lemma JustReport(s: State, d: Device, id: int)
    ensures forall es :: Replay(INITIAL, es) == s ==>
      (id in Of(s, d).justPressed <==> Happened(SinceFrame(es), Button(d, id, GLFW_PRESS)))
    ensures forall es :: Replay(INITIAL, es) == s ==>
      (id in Of(s, d).justReleased <==> Happened(SinceFrame(es), Button(d, id, GLFW_RELEASE)))
  {
    forall es | Replay(INITIAL, es) == s
      ensures id in Of(s, d).justPressed <==> Happened(SinceFrame(es), Button(d, id, GLFW_PRESS))
      ensures id in Of(s, d).justReleased <==> Happened(SinceFrame(es), Button(d, id, GLFW_RELEASE))
    {
      JustAfter(INITIAL, es, d, id);
    }
  }

  /** Whatever history of events from a new window led to `s`, its scroll offset is the sum
      of the offsets since the last frame end. */
  lemma ScrollReport(s: State)
    ensures forall es :: Replay(INITIAL, es) == s ==> s.scrollX == SumX(SinceFrame(es)) && s.scrollY == SumY(SinceFrame(es))
  {
    forall es | Replay(INITIAL, es) == s
      ensures s.scrollX == SumX(SinceFrame(es)) && s.scrollY == SumY(SinceFrame(es))
    {
      ScrollAfter(INITIAL, es);
    }
  }

  /** The window's input state. */
  class GUI {
    var keysPressed: set<int>
    var keysJustPressed: set<int>
    var keysJustReleased: set<int>
    var mouseButtonsPressed: set<int>
    var mouseButtonsJustPressed: set<int>
    var mouseButtonsJustReleased: set<int>
    var scrollX: real
    var scrollY: real

    /** The input fields as a value. */
    function Snapshot(): State
      reads this
    {
      State(Buttons(keysPressed, keysJustPressed, keysJustReleased),
            Buttons(mouseButtonsPressed, mouseButtonsJustPressed, mouseButtonsJustReleased), scrollX, scrollY)
    }

    /** The input fields' initial values: empty sets and a zero scroll delta. */
    constructor ()
      ensures Snapshot() == INITIAL
    {
      keysPressed, keysJustPressed, keysJustReleased := {}, {}, {};
      mouseButtonsPressed, mouseButtonsJustPressed, mouseButtonsJustReleased := {}, {}, {};
      scrollX, scrollY := 0.0, 0.0;
    }

    /** `keyCallback` (scan code and modifiers are ignored). */
    method KeyCallback(key: int, action: int)
      modifies this
      ensures Snapshot() == Step(old(Snapshot()), Button(Keyboard, key, action))
    {
      if action == GLFW_PRESS {
        keysPressed := keysPressed + {key};
        keysJustPressed := keysJustPressed + {key};
      } else if action == GLFW_RELEASE {
        keysPressed := keysPressed - {key};
        keysJustReleased := keysJustReleased + {key};
      }
    }

    /** `mouseButtonCallback` (modifiers are ignored). */
    method MouseButtonCallback(button: int, action: int)
      modifies this
      ensures Snapshot() == Step(old(Snapshot()), Button(Mouse, button, action))
    {
      if action == GLFW_PRESS {
        mouseButtonsPressed := mouseButtonsPressed + {button};
        mouseButtonsJustPressed := mouseButtonsJustPressed + {button};
      } else if action == GLFW_RELEASE {
        mouseButtonsPressed := mouseButtonsPressed - {button};
        mouseButtonsJustReleased := mouseButtonsJustReleased + {button};
      }
    }

    /** `scrollCallback`: adds the offsets to the frame's scroll delta. */
    method ScrollCallback(xoffset: real, yoffset: real)
      modifies this
      ensures Snapshot() == Step(old(Snapshot()), Scroll(xoffset, yoffset))
    {
      scrollX := scrollX + xoffset;
      scrollY := scrollY + yoffset;
    }

    /** The input part of `endFrame`, before new events are polled. */
    method EndFrame()
      modifies this
      ensures Snapshot() == Step(old(Snapshot()), FrameEnd)
    {
      keysJustPressed := {};
      keysJustReleased := {};
      mouseButtonsJustPressed := {};
      mouseButtonsJustReleased := {};
      scrollX, scrollY := 0.0, 0.0;
    }

    /** `isKeyPressed`: whether the key is held: its last press or release was a press. */
    function IsKeyPressed(key: int): (r: bool)
      reads this
      ensures forall es :: Replay(INITIAL, es) == Snapshot() ==> (r <==> LastAction(es, Keyboard, key) == Some(GLFW_PRESS))
    {
      HeldReport(Snapshot(), Keyboard, key);
      key in keysPressed
    }

    /** `isKeyJustPressed`: whether the key was pressed since the last frame end. */
    function IsKeyJustPressed(key: int): (r: bool)
      reads this
      ensures forall es :: Replay(INITIAL, es) == Snapshot() ==> (r <==> Happened(SinceFrame(es), Button(Keyboard, key, GLFW_PRESS)))
    {
      JustReport(Snapshot(), Keyboard, key);
      key in keysJustPressed
    }

    /** `isKeyJustReleased`: whether the key was released since the last frame end. */
    function IsKeyJustReleased(key: int): (r: bool)
      reads this
      ensures forall es :: Replay(INITIAL, es) == Snapshot() ==> (r <==> Happened(SinceFrame(es), Button(Keyboard, key, GLFW_RELEASE)))
    {
      JustReport(Snapshot(), Keyboard, key);
      key in keysJustReleased
    }

    /** `isMouseButtonPressed`: whether the button is held: its last press or release was a press. */
    function IsMouseButtonPressed(button: int): (r: bool)
      reads this
      ensures forall es :: Replay(INITIAL, es) == Snapshot() ==> (r <==> LastAction(es, Mouse, button) == Some(GLFW_PRESS))
    {
      HeldReport(Snapshot(), Mouse, button);
      button in mouseButtonsPressed
    }

    /** `isMouseButtonJustPressed`: whether the button was pressed since the last frame end. */
    function IsMouseButtonJustPressed(button: int): (r: bool)
      reads this
      ensures forall es :: Replay(INITIAL, es) == Snapshot() ==> (r <==> Happened(SinceFrame(es), Button(Mouse, button, GLFW_PRESS)))
    {
      JustReport(Snapshot(), Mouse, button);
      button in mouseButtonsJustPressed
    }

    /** `isMouseButtonJustReleased`: whether the button was released since the last frame end. */
    function IsMouseButtonJustReleased(button: int): (r: bool)
      reads this
      ensures forall es :: Replay(INITIAL, es) == Snapshot() ==> (r <==> Happened(SinceFrame(es), Button(Mouse, button, GLFW_RELEASE)))
    {
      JustReport(Snapshot(), Mouse, button);
      button in mouseButtonsJustReleased
    }

    /** `getScrollDelta`: the sum of the scroll offsets since the last frame end. */
    function GetScrollDelta(): (r: Vec2)
      reads this
      ensures forall es :: Replay(INITIAL, es) == Snapshot() ==> r == Vec2(SumX(SinceFrame(es)), SumY(SinceFrame(es)))
    {
      ScrollReport(Snapshot());
      Vec2(scrollX, scrollY)
    }
  }

  /** What the queries of a window report after any history of callbacks and frame ends
      since it was created: a key or button is pressed exactly when its last press or
      release was a press; it is just pressed (just released) exactly when it was pressed
      (released) since the last frame end; the scroll delta is the sum of the offsets since
      the last frame end. */
  lemma QueriesReport(g: GUI, es: seq<Event>, id: int)
    requires g.Snapshot() == Replay(INITIAL, es)
    ensures g.IsKeyPressed(id) <==> LastAction(es, Keyboard, id) == Some(GLFW_PRESS)
    ensures g.IsMouseButtonPressed(id) <==> LastAction(es, Mouse, id) == Some(GLFW_PRESS)
    ensures g.IsKeyJustPressed(id) <==> Happened(SinceFrame(es), Button(Keyboard, id, GLFW_PRESS))
    ensures g.IsKeyJustReleased(id) <==> Happened(SinceFrame(es), Button(Keyboard, id, GLFW_RELEASE))
    ensures g.IsMouseButtonJustPressed(id) <==> Happened(SinceFrame(es), Button(Mouse, id, GLFW_PRESS))
    ensures g.IsMouseButtonJustReleased(id) <==> Happened(SinceFrame(es), Button(Mouse, id, GLFW_RELEASE))
    ensures g.GetScrollDelta() == Vec2(SumX(SinceFrame(es)), SumY(SinceFrame(es)))
  {
    HeldAfter(INITIAL, es, Keyboard, id);
    HeldAfter(INITIAL, es, Mouse, id);
    JustAfter(INITIAL, es, Keyboard, id);
    JustAfter(INITIAL, es, Mouse, id);
    ScrollAfter(INITIAL, es);
  }
}
