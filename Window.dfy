/**
  The application window (Window.cpp): its settings and defaults, the GLFW
  calls that create it in each display mode, the per-frame update of the
  time, scroll and mouse deltas, and the three callbacks through which GLFW
  reports a framebuffer resize, a scroll and a maximize.

  GLFW is not part of this model. The calls made to it are recorded in
  `log`; what it reports (monitors, cursor position, clock, framebuffer size,
  window position) is passed in; the events it dispatches while polling or
  waiting are a sequence of `Event`s applied in order.
 */
module Window {
  import opened Vk

  datatype Mode = Windowed | WindowedFullScreen | FullScreen

  /** What `glfwGetVideoMode` reports for a monitor. */
  datatype VideoMode = VideoMode(width: int, height: int, redBits: int, greenBits: int, blueBits: int, refreshRate: int)

  datatype WindowAttribute = Maximized | Resizable | Decorated

  datatype HintKind = RedBits | GreenBits | BlueBits | RefreshRate

  /** The GLFW calls the model records. `monitor` is the index of the monitor
      a full-screen window is created on. */
  datatype GlfwCall =
    | Init
    | HintNoClientApi
    | Hint(kind: HintKind, hintValue: int)
    | CreateWindow(width: int, height: int, monitor: Option<nat>)
    | SetWindowPos(x: int, y: int)
    | MaximizeWindow
    | SetWindowAttrib(attribute: WindowAttribute, enabled: bool)
    | SetCallbacks
    | DestroyWindow
    | Terminate

  /** What GLFW reports to the window's callbacks. */
  datatype Event =
    | FramebufferResize(width: int, height: int)
    | Scroll(x: real, y: real)
    | Maximize(maximized: bool)

  /** The GLFW calls `Create` makes between `glfwInit` and the callback
      registration, by display mode. */
  function CreateCalls(mode: Mode, width: int, height: int, posX: int, posY: int, maximized: bool, resizable: bool,
                       decorated: bool, monitorIndex: nat, videoMode: VideoMode): seq<GlfwCall>
  {
    match mode
    case Windowed =>
      [CreateWindow(width, height, None), SetWindowPos(posX, posY)] +
      (if maximized then [MaximizeWindow] else []) +
      [SetWindowAttrib(Maximized, maximized), SetWindowAttrib(Resizable, resizable), SetWindowAttrib(Decorated, decorated)]
    case WindowedFullScreen =>
      [Hint(RedBits, videoMode.redBits), Hint(GreenBits, videoMode.greenBits), Hint(BlueBits, videoMode.blueBits),
       Hint(RefreshRate, videoMode.refreshRate), CreateWindow(videoMode.width, videoMode.height, Some(monitorIndex))]
    case FullScreen =>
      [CreateWindow(width, height, Some(monitorIndex))]
  }

  /** Every display mode creates exactly one window: a windowed one at the
      stored size, a borderless full-screen one at the monitor's current
      video mode, or a full-screen one at the stored size, the last two on
      the selected monitor. The window attributes are set only for a
      windowed window, and it is maximized exactly when `maximized` is set. */
  lemma CreateCallsMakeOneWindow(mode: Mode, width: int, height: int, posX: int, posY: int, maximized: bool,
                                 resizable: bool, decorated: bool, monitorIndex: nat, videoMode: VideoMode)
    ensures var calls := CreateCalls(mode, width, height, posX, posY, maximized, resizable, decorated, monitorIndex, videoMode);
      var k := if mode == WindowedFullScreen then 4 else 0;
      && k < |calls| && calls[k].CreateWindow?
      && (forall i :: 0 <= i < |calls| && i != k ==> !calls[i].CreateWindow?)
      && calls[k] == (match mode
           case Windowed => CreateWindow(width, height, None)
           case WindowedFullScreen => CreateWindow(videoMode.width, videoMode.height, Some(monitorIndex))
           case FullScreen => CreateWindow(width, height, Some(monitorIndex)))
      && ((exists i :: 0 <= i < |calls| && calls[i].SetWindowAttrib?) <==> mode == Windowed)
      && (MaximizeWindow in calls <==> mode == Windowed && maximized)
  {
    var calls := CreateCalls(mode, width, height, posX, posY, maximized, resizable, decorated, monitorIndex, videoMode);
    if mode == Windowed {
      assert calls[|calls| - 1] == SetWindowAttrib(Decorated, decorated);
      if maximized {
        assert calls[2] == MaximizeWindow;
      }
    }
  }

  /** The sum of the vertical scroll offsets among `events`. */
  function ScrollTotal(events: seq<Event>): real {
    if events == [] then 0.0
    else
      var e := events[|events| - 1];
      ScrollTotal(events[..|events| - 1]) + if e.Scroll? then e.y else 0.0
  }

  /** The size the last framebuffer resize among `events` reports, if any. */
  function LastResize(events: seq<Event>): Option<(int, int)> {
    if events == [] then None
    else
      var e := events[|events| - 1];
      if e.FramebufferResize? then Some((e.width, e.height)) else LastResize(events[..|events| - 1])
  }

  /** The maximized state the last maximize event among `events` reports, if any. */
  function LastMaximize(events: seq<Event>): Option<bool> {
    if events == [] then None
    else
      var e := events[|events| - 1];
      if e.Maximize? then Some(e.maximized) else LastMaximize(events[..|events| - 1])
  }

  /** `LastResize` reports nothing exactly when no event is a resize, and
      otherwise the size of the resize no other resize follows. */
  lemma {:induction false} LastResizeIsLast(events: seq<Event>)
    ensures LastResize(events).None? <==> forall i :: 0 <= i < |events| ==> !events[i].FramebufferResize?
    ensures forall i :: 0 <= i < |events| && events[i].FramebufferResize? &&
                        (forall j :: i < j < |events| ==> !events[j].FramebufferResize?) ==>
      LastResize(events) == Some((events[i].width, events[i].height))
  {
    if events != [] {
      var front := events[..|events| - 1];
      LastResizeIsLast(front);
      assert forall i :: 0 <= i < |front| ==> front[i] == events[i];
    }
  }

  /** `LastMaximize` reports nothing exactly when no event is a maximize, and
      otherwise the state of the maximize no other maximize follows. */
  lemma {:induction false} LastMaximizeIsLast(events: seq<Event>)
    ensures LastMaximize(events).None? <==> forall i :: 0 <= i < |events| ==> !events[i].Maximize?
    ensures forall i :: 0 <= i < |events| && events[i].Maximize? &&
                        (forall j :: i < j < |events| ==> !events[j].Maximize?) ==>
      LastMaximize(events) == Some(events[i].maximized)
  {
    if events != [] {
      var front := events[..|events| - 1];
      LastMaximizeIsLast(front);
      assert forall i :: 0 <= i < |front| ==> front[i] == events[i];
    }
  }

  /** Scroll offsets add up across event batches. */
  lemma {:induction false} ScrollTotalAppend(a: seq<Event>, b: seq<Event>)
    ensures ScrollTotal(a + b) == ScrollTotal(a) + ScrollTotal(b)
  {
    if b != [] {
      var n := |b| - 1;
      ScrollTotalAppend(a, b[..n]);
      assert (a + b)[..|a + b| - 1] == a + b[..n];
    } else {
      assert a + b == a;
    }
  }

  /** Across two batches, the later batch's resize wins. */
  lemma {:induction false} LastResizeAppend(a: seq<Event>, b: seq<Event>)
    ensures LastResize(a + b) == if LastResize(b).Some? then LastResize(b) else LastResize(a)
  {
    if b != [] {
      var n := |b| - 1;
      LastResizeAppend(a, b[..n]);
      assert (a + b)[..|a + b| - 1] == a + b[..n];
    } else {
      assert a + b == a;
    }
  }

  /** Across two batches, the later batch's maximize wins. */
  lemma {:induction false} LastMaximizeAppend(a: seq<Event>, b: seq<Event>)
    ensures LastMaximize(a + b) == if LastMaximize(b).Some? then LastMaximize(b) else LastMaximize(a)
  {
    if b != [] {
      var n := |b| - 1;
      LastMaximizeAppend(a, b[..n]);
      assert (a + b)[..|a + b| - 1] == a + b[..n];
    } else {
      assert a + b == a;
    }
  }

  /** The part of the window's state the event callbacks write. */
  datatype InputState = InputState(width: int, height: int, framebufferResized: bool, scroll: real,
                                   deltaScroll: real, maximized: bool)

  /** The input state after the callbacks for `events` have run. */
  function AfterEvents(s: InputState, events: seq<Event>): InputState {
    InputState(
      (match LastResize(events) case Some(size) => size.0 case None => s.width),
      (match LastResize(events) case Some(size) => size.1 case None => s.height),
      s.framebufferResized || LastResize(events).Some?,
      s.scroll + ScrollTotal(events),
      s.deltaScroll + ScrollTotal(events),
      (match LastMaximize(events) case Some(m) => m case None => s.maximized))
  }

  /** Handling two batches one after the other is handling them joined. */
  lemma AfterEventsAppend(s: InputState, a: seq<Event>, b: seq<Event>)
    ensures AfterEvents(AfterEvents(s, a), b) == AfterEvents(s, a + b)
  {
    LastResizeAppend(a, b);
    LastMaximizeAppend(a, b);
    ScrollTotalAppend(a, b);
  }

  /** The window counts as minimized while either side reads as 0 through
      the `uint32_t` getters. */
  predicate Minimized(s: InputState) {
    U32(s.width) == 0 || U32(s.height) == 0
  }

  /** The static members of the source class `Window`, with the values its
      constructor in Window.cpp gives them. */
  class Window {
    var window: Handle
    var name: string
    var width: int
    var height: int
    var posX: int
    var posY: int
    var monitorIndex: nat
    var framebufferResized: bool
    /** The clock reading of the last update, in microseconds. */
    var lastTime: int
    /** Milliseconds between the last two updates. */
    var deltaTime: real
    var scroll: real
    var deltaScroll: real
    var mousePos: (real, real)
    var deltaMousePos: (real, real)
    var mode: Mode
    var dirty: bool
    var resizable: bool
    var decorated: bool
    var maximized: bool
    var log: seq<GlfwCall>

    constructor ()
      ensures window == NULL_HANDLE && name == "Window"
      ensures width == 800 && height == 600 && posX == 100 && posY == 100 && monitorIndex == 0
      ensures !framebufferResized && deltaTime == 0.0 && scroll == 0.0 && deltaScroll == 0.0
      ensures mousePos == (0.0, 0.0) && deltaMousePos == (0.0, 0.0)
      ensures mode == Windowed && dirty && resizable && decorated && !maximized
      ensures log == []
    {
      window := NULL_HANDLE;
      name := "Window";
      width, height := 800, 600;
      posX, posY := 100, 100;
      monitorIndex := 0;
      framebufferResized := false;
      lastTime := 0;
      deltaTime := 0.0;
      scroll, deltaScroll := 0.0, 0.0;
      mousePos, deltaMousePos := (0.0, 0.0), (0.0, 0.0);
      mode := Windowed;
      dirty, resizable, decorated, maximized := true, true, true, false;
      log := [];
    }

    /** `Create`: the window for the current mode on the selected monitor,
        the callbacks, and both flags cleared. `monitors` are the video modes
        of the connected monitors; `created` is the handle GLFW returns. */
    method Create(monitors: seq<VideoMode>, created: Handle)
      requires monitorIndex < |monitors|
      modifies this`log, this`window, this`framebufferResized, this`dirty
      ensures log == old(log) + [Init, HintNoClientApi] +
        CreateCalls(mode, width, height, posX, posY, maximized, resizable, decorated, monitorIndex, monitors[monitorIndex]) +
        [SetCallbacks]
      ensures window == created && !framebufferResized && !dirty
    {
      log := log + [Init, HintNoClientApi];
      var calls := ModeCalls(monitors[monitorIndex]);
      log := log + calls;
      window := created;
      log := log + [SetCallbacks];
      framebufferResized := false;
      dirty := false;
      AppendAssoc(old(log), [Init, HintNoClientApi], calls);
    }

    /** The display-mode switch of `Create`. */
    method ModeCalls(videoMode: VideoMode) returns (calls: seq<GlfwCall>)
      ensures calls == CreateCalls(mode, width, height, posX, posY, maximized, resizable, decorated, monitorIndex, videoMode)
    {
      match mode {
        case Windowed =>
          calls := [CreateWindow(width, height, None), SetWindowPos(posX, posY)];
          if maximized {
            calls := calls + [MaximizeWindow];
          }
          calls := calls + [SetWindowAttrib(Maximized, maximized), SetWindowAttrib(Resizable, resizable),
                            SetWindowAttrib(Decorated, decorated)];
        case WindowedFullScreen =>
          calls := [Hint(RedBits, videoMode.redBits), Hint(GreenBits, videoMode.greenBits),
                    Hint(BlueBits, videoMode.blueBits), Hint(RefreshRate, videoMode.refreshRate)];
          calls := calls + [CreateWindow(videoMode.width, videoMode.height, Some(monitorIndex))];
        case FullScreen =>
          calls := [CreateWindow(width, height, Some(monitorIndex))];
      }
    }

    /** `framebufferResizeCallback`. */
    method OnFramebufferResize(newWidth: int, newHeight: int)
      modifies this`width, this`height, this`framebufferResized
      ensures width == newWidth && height == newHeight && framebufferResized
    {
      width := newWidth;
      height := newHeight;
      framebufferResized := true;
    }

    /** `scrollCallback`: only the vertical offset counts. */
    method OnScroll(x: real, y: real)
      modifies this`scroll, this`deltaScroll
      ensures scroll == old(scroll) + y && deltaScroll == old(deltaScroll) + y
    {
      scroll := scroll + y;
      deltaScroll := deltaScroll + y;
    }

    /** `windowMaximizeCallback`. */
    method OnMaximize(isMaximized: bool)
      modifies this`maximized
      ensures maximized == isMaximized
    {
      maximized := isMaximized;
    }

    /** GLFW dispatching `events` to the callbacks, in order: the scroll
        offsets accumulate, the last resize and the last maximize win, and a
        resize raises `framebufferResized`. */
    method Dispatch(events: seq<Event>)
      modifies this`width, this`height, this`framebufferResized, this`scroll, this`deltaScroll, this`maximized
      ensures scroll == old(scroll) + ScrollTotal(events) && deltaScroll == old(deltaScroll) + ScrollTotal(events)
      ensures (width, height) == match LastResize(events) case Some(size) => size case None => old((width, height))
      ensures framebufferResized == (old(framebufferResized) || LastResize(events).Some?)
      ensures maximized == match LastMaximize(events) case Some(m) => m case None => old(maximized)
    {
      for i := 0 to |events|
        invariant scroll == old(scroll) + ScrollTotal(events[..i]) && deltaScroll == old(deltaScroll) + ScrollTotal(events[..i])
        invariant (width, height) == match LastResize(events[..i]) case Some(size) => size case None => old((width, height))
        invariant framebufferResized == (old(framebufferResized) || LastResize(events[..i]).Some?)
        invariant maximized == match LastMaximize(events[..i]) case Some(m) => m case None => old(maximized)
      {
        assert events[..i + 1][..i] == events[..i];
        match events[i] {
          case FramebufferResize(w, h) => OnFramebufferResize(w, h);
          case Scroll(x, y) => OnScroll(x, y);
          case Maximize(m) => OnMaximize(m);
        }
      }
      assert events[..|events|] == events;
    }

    /** `Update`: the scroll delta is reset, the frame time and mouse delta
        are taken from the clock (`now`, in microseconds) and the cursor,
        and then the pending events are processed. */
    method Update(now: int, cursor: (real, real), events: seq<Event>)
      modifies this`deltaScroll, this`deltaTime, this`lastTime, this`deltaMousePos, this`mousePos
      modifies this`width, this`height, this`framebufferResized, this`scroll, this`maximized
      ensures deltaScroll == ScrollTotal(events) && scroll == old(scroll) + ScrollTotal(events)
      ensures deltaTime == (now - old(lastTime)) as real / 1000.0 && lastTime == now
      ensures deltaMousePos == (old(mousePos).0 - cursor.0, old(mousePos).1 - cursor.1) && mousePos == cursor
      ensures (width, height) == match LastResize(events) case Some(size) => size case None => old((width, height))
      ensures framebufferResized == (old(framebufferResized) || LastResize(events).Some?)
      ensures maximized == match LastMaximize(events) case Some(m) => m case None => old(maximized)
      ensures Input() == AfterEvents(old(Input()).(deltaScroll := 0.0), events)
    {
      deltaScroll := 0.0;
      deltaTime := (now - lastTime) as real;
      deltaTime := deltaTime / 1000.0;
      lastTime := now;
      deltaMousePos := (mousePos.0 - cursor.0, mousePos.1 - cursor.1);
      mousePos := cursor;
      Dispatch(events);
    }

    /** `WaitEvents`: blocks until events arrive, then processes them. */
    method WaitEvents(events: seq<Event>)
      modifies this`width, this`height, this`framebufferResized, this`scroll, this`deltaScroll, this`maximized
      ensures scroll == old(scroll) + ScrollTotal(events) && deltaScroll == old(deltaScroll) + ScrollTotal(events)
      ensures (width, height) == match LastResize(events) case Some(size) => size case None => old((width, height))
      ensures framebufferResized == (old(framebufferResized) || LastResize(events).Some?)
      ensures maximized == match LastMaximize(events) case Some(m) => m case None => old(maximized)
      ensures Input() == AfterEvents(old(Input()), events)
    {
      Dispatch(events);
    }

    /** `UpdateFramebufferSize`: the resize is acknowledged and the size read
        back from GLFW. */
    method UpdateFramebufferSize(framebufferWidth: int, framebufferHeight: int)
      modifies this`framebufferResized, this`width, this`height
      ensures !framebufferResized && width == framebufferWidth && height == framebufferHeight
      ensures Input() == old(Input()).(width := framebufferWidth, height := framebufferHeight, framebufferResized := false)
    {
      framebufferResized := false;
      width, height := framebufferWidth, framebufferHeight;
    }

    /** `Destroy`: the window position is saved for the next `Create`. */
    method Destroy(position: (int, int))
      modifies this`posX, this`posY, this`log
      ensures posX == position.0 && posY == position.1
      ensures log == old(log) + [DestroyWindow, Terminate]
    {
      posX, posY := position.0, position.1;
      log := log + [DestroyWindow, Terminate];
    }

    function Input(): InputState
      reads this`width, this`height, this`framebufferResized, this`scroll, this`deltaScroll, this`maximized
    {
      InputState(width, height, framebufferResized, scroll, deltaScroll, maximized)
    }

    /** `GetWidth`: the signed width as `uint32_t`. */
    function GetWidth(): (w: nat)
      reads this`width
      ensures w < U32_MODULUS && (0 <= width ==> w == width % U32_MODULUS)
    {
      U32(width)
    }

    /** `GetHeight`: the signed height as `uint32_t`. */
    function GetHeight(): (h: nat)
      reads this`height
      ensures h < U32_MODULUS && (0 <= height ==> h == height % U32_MODULUS)
    {
      U32(height)
    }
  }
}
