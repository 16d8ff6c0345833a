/** The main process's `state` record and the functions that update it: the
    window's visibility, click-through and saved geometry, the keyboard moves,
    the current view (kept in step with the screenshot store), the extracted
    problem and the debug flag. The Electron window is modelled by the few of
    its properties these functions read or set; messages sent to the renderer
    are recorded in order. */
module Session {
  import opened Common
  import opened Screenshots
  import opened Config
  import opened ResponseParsing

  datatype Point = Point(x: real, y: real)
  datatype Size = Size(width: real, height: real)
  datatype Bounds = Bounds(x: real, y: real, width: real, height: real)

  /** What the model keeps of the `BrowserWindow`: its bounds, whether it lets
      mouse events through, and its opacity. */
  datatype Window = Window(bounds: Bounds, ignoresMouse: bool, opacity: real)

  /** The extracted problem: a parsed, truthy JSON value, kept as its text. */
  datatype ProblemInfo = ProblemInfo(json: string)

  datatype Payload =
    | NoPayload
    | Info(text: string)
    | ProblemPayload(problem: Option<ProblemInfo>)
    | SolutionPayload(solution: Solution)
    | DebugPayload(result: DebugResult)

  /** A message sent to the renderer on `channel`. */
  datatype Message = Message(channel: string, payload: Payload)

  // `state.PROCESSING_EVENTS`
  const NoScreenshotsEvent: string := "processing-no-screenshots"
  const ApiKeyInvalidEvent: string := "api-key-invalid"
  const InitialStartEvent: string := "initial-start"
  const ProblemExtractedEvent: string := "problem-extracted"
  const SolutionSuccessEvent: string := "solution-success"
  const InitialSolutionErrorEvent: string := "solution-error"
  const DebugStartEvent: string := "debug-start"
  const DebugSuccessEvent: string := "debug-success"
  const DebugErrorEvent: string := "debug-error"

  /** The window hidden: click-through and fully transparent. */
  function Hidden(w: Window): (h: Window)
    ensures h.bounds == w.bounds && h.ignoresMouse && h.opacity == 0.0
  {
    w.(ignoresMouse := true, opacity := 0.0)
  }

  /** The bounds restored on show: the saved position and size when both are
      saved, the current bounds otherwise. */
  function RestoredBounds(current: Bounds, position: Option<Point>, size: Option<Size>): (b: Bounds)
    ensures position.Some? && size.Some? ==>
      b == Bounds(position.value.x, position.value.y, size.value.width, size.value.height)
    ensures position.None? || size.None? ==> b == current
  {
    if position.Some? && size.Some? then
      Bounds(position.value.x, position.value.y, size.value.width, size.value.height)
    else current
  }

  /** The window shown: restored bounds, mouse events taken iff clickable,
      fully opaque. */
  function Shown(w: Window, position: Option<Point>, size: Option<Size>, clickable: bool): (s: Window)
    ensures s.bounds == RestoredBounds(w.bounds, position, size)
    ensures s.ignoresMouse <==> !clickable
    ensures s.opacity == 1.0
  {
    Window(RestoredBounds(w.bounds, position, size), !clickable, 1.0)
  }

  /** Hiding saves the geometry that showing restores: hide then show gives
      the window back its bounds. */
  lemma {:induction false} HideThenShowRestoresBounds(w: Window, clickable: bool)
    ensures var b := w.bounds;
            Shown(Hidden(w), Some(Point(b.x, b.y)), Some(Size(b.width, b.height)), clickable).bounds == b
  {
  }

  /** `Math.max(-(width / 2), x - step)` with the saved width, or 0 when none
      is saved: the window may go off screen by at most half its width. */
  function LeftOf(x: real, step: real, size: Option<Size>): (r: real)
    ensures var w := if size.Some? then size.value.width else 0.0;
            r >= -(w / 2.0) && r >= x - step && (r == -(w / 2.0) || r == x - step)
  {
    var w := if size.Some? then size.value.width else 0.0;
    if -(w / 2.0) > x - step then -(w / 2.0) else x - step
  }

  /** `Math.min(screenWidth - width / 2, x + step)`. */
  function RightOf(x: real, step: real, screenWidth: real, size: Option<Size>): (r: real)
    ensures var w := if size.Some? then size.value.width else 0.0;
            r <= screenWidth - w / 2.0 && r <= x + step && (r == screenWidth - w / 2.0 || r == x + step)
  {
    var w := if size.Some? then size.value.width else 0.0;
    if screenWidth - w / 2.0 < x + step then screenWidth - w / 2.0 else x + step
  }

  /** `setPosition(x, y)`: the window keeps its size and moves to the point. */
  function MovedTo(w: Window, x: real, y: real): (m: Window)
    ensures m.bounds == Bounds(x, y, w.bounds.width, w.bounds.height)
    ensures m.ignoresMouse == w.ignoresMouse && m.opacity == w.opacity
  {
    w.(bounds := Bounds(x, y, w.bounds.width, w.bounds.height))
  }

  /** A moved window that is hidden and shown again comes back where it was
      moved to. */
  lemma {:induction false} MoveThenHideShowKeepsMove(w: Window, x: real, y: real, clickable: bool)
    ensures var m := MovedTo(w, x, y);
            var b := m.bounds;
            var shown := Shown(Hidden(m), Some(Point(b.x, b.y)), Some(Size(b.width, b.height)), clickable);
            shown.bounds.x == x && shown.bounds.y == y
  {
    HideThenShowRestoresBounds(MovedTo(w, x, y), clickable);
  }

  /** Once against the left edge, further left moves stay there. */
  lemma {:induction false} LeftMoveSettles(x: real, step: real, size: Option<Size>)
    requires step >= 0.0
    ensures LeftOf(LeftOf(x, step, size), step, size) <= LeftOf(x, step, size)
    ensures var w := if size.Some? then size.value.width else 0.0;
            x - step <= -(w / 2.0) ==> LeftOf(LeftOf(x, step, size), step, size) == -(w / 2.0)
  {
  }

  class Session {
    var window: Option<Window>
    var isWindowVisible: bool
    var isWindowClickable: bool
    var windowPosition: Option<Point>
    var windowSize: Option<Size>
    var screenWidth: real
    var screenHeight: real
    var step: real
    var currentX: real
    var currentY: real
    var view: View
    var problemInfo: Option<ProblemInfo>
    var hasDebugged: bool
    var sent: seq<Message>
    const screenshots: ScreenshotManager

    /** The store is consistent and shows the same view as the session. */
    ghost predicate Valid()
      reads this`view, screenshots
    {
      screenshots.Valid() && screenshots.view == view
    }

    /** The initial `state`, once the screenshot store has been created from
        its view. */
    constructor (screenshots: ScreenshotManager)
      requires screenshots.Valid() && screenshots.view == Queue
      ensures Valid()
      ensures this.screenshots == screenshots
      ensures window.None? && !isWindowVisible && isWindowClickable
      ensures windowPosition.None? && windowSize.None?
      ensures screenWidth == 0.0 && screenHeight == 0.0 && step == 0.0 && currentX == 0.0 && currentY == 0.0
      ensures view == Queue && problemInfo.None? && !hasDebugged && sent == []
    {
      window := None;
      isWindowVisible, isWindowClickable := false, true;
      windowPosition, windowSize := None, None;
      screenWidth, screenHeight, step, currentX, currentY := 0.0, 0.0, 0.0, 0.0, 0.0;
      view, problemInfo, hasDebugged := Queue, None, false;
      sent := [];
      this.screenshots := screenshots;
    }

    /** `mainWindow.webContents.send(channel, payload)`. */
    method Send(channel: string, payload: Payload)
      modifies this`sent
      ensures sent == old(sent) + [Message(channel, payload)]
    {
      sent := sent + [Message(channel, payload)];
    }

    /** `createWindow`: an existing window is only focused. Otherwise the
        screen size and step are recorded, a window placed by the window
        manager at `bounds` is created, its geometry saved, and it is shown
        at the saved opacity; an opacity of 0.1 or less hides it. */
    method CreateWindow(workArea: Size, bounds: Bounds, config: ConfigManager)
      requires config.Valid()
      modifies this`window, this`screenWidth, this`screenHeight, this`step, this`currentX, this`currentY,
               this`windowPosition, this`windowSize, this`isWindowVisible, this`isWindowClickable, config
      ensures config.Valid() && config.file == old(config.file)
      ensures old(window).Some? ==> (window == old(window) && isWindowVisible == old(isWindowVisible)
        && isWindowClickable == old(isWindowClickable)
        && windowPosition == old(windowPosition) && windowSize == old(windowSize)
        && screenWidth == old(screenWidth) && screenHeight == old(screenHeight)
        && currentX == old(currentX) && currentY == old(currentY) && step == old(step))
      ensures old(window).None? ==>
        var opacity := Load(old(config.file)).opacity;
        && screenWidth == workArea.width && screenHeight == workArea.height && step == 60.0
        && windowPosition == Some(Point(bounds.x, bounds.y))
        && windowSize == Some(Size(bounds.width, bounds.height))
        && currentX == bounds.x && currentY == bounds.y
        && isWindowClickable
        && (isWindowVisible <==> opacity > 0.1)
        && window == Some(Window(bounds, false, if opacity <= 0.1 then 0.0 else opacity))
    {
      if window.Some? {
        return;
      }
      screenWidth, screenHeight := workArea.width, workArea.height;
      step := 60.0;
      currentY := 50.0;
      window := Some(Window(bounds, false, 1.0));
      windowPosition := Some(Point(bounds.x, bounds.y));
      windowSize := Some(Size(bounds.width, bounds.height));
      currentX, currentY := bounds.x, bounds.y;
      isWindowVisible, isWindowClickable := true, true;
      var savedOpacity := config.GetOpacity();
      if savedOpacity <= 0.1 {
        window := Some(window.value.(opacity := 0.0));
        isWindowVisible := false;
      } else {
        window := Some(window.value.(opacity := savedOpacity));
        isWindowVisible := true;
      }
    }

    /** `hideMainWindow`: with a window, save its position and size, make it
        click-through and transparent, and mark it hidden; without one,
        nothing happens. */
    method HideMainWindow()
      modifies this`window, this`windowPosition, this`windowSize, this`isWindowVisible
      ensures old(window).None? ==> (window.None? && windowPosition == old(windowPosition)
        && windowSize == old(windowSize) && isWindowVisible == old(isWindowVisible))
      ensures old(window).Some? ==>
        var b := old(window).value.bounds;
        && window == Some(Hidden(old(window).value))
        && windowPosition == Some(Point(b.x, b.y)) && windowSize == Some(Size(b.width, b.height))
        && !isWindowVisible
    {
      if window.Some? {
        var b := window.value.bounds;
        windowPosition := Some(Point(b.x, b.y));
        windowSize := Some(Size(b.width, b.height));
        window := Some(Hidden(window.value));
        isWindowVisible := false;
      }
    }

    /** `showMainWindow`: restore the saved bounds when both are saved, take
        mouse events iff clickable, make the window opaque; the session is
        marked visible even when there is no window. */
    method ShowMainWindow()
      modifies this`window, this`isWindowVisible
      ensures isWindowVisible
      ensures window == if old(window).Some? then
                          Some(Shown(old(window).value, windowPosition, windowSize, isWindowClickable))
                        else None
    {
      if window.Some? {
        window := Some(Shown(window.value, windowPosition, windowSize, isWindowClickable));
      }
      isWindowVisible := true;
    }

    /** `toggleMainWindow`: hide when marked visible, show otherwise. */
    method ToggleMainWindow()
      modifies this`window, this`windowPosition, this`windowSize, this`isWindowVisible
      ensures old(isWindowVisible) && old(window).Some? ==>
        var b := old(window).value.bounds;
        && window == Some(Hidden(old(window).value)) && !isWindowVisible
        && windowPosition == Some(Point(b.x, b.y)) && windowSize == Some(Size(b.width, b.height))
      ensures old(isWindowVisible) && old(window).None? ==>
        && isWindowVisible && window.None?
        && windowPosition == old(windowPosition) && windowSize == old(windowSize)
      ensures !old(isWindowVisible) ==>
        && isWindowVisible && windowPosition == old(windowPosition) && windowSize == old(windowSize)
        && window == if old(window).Some? then
                       Some(Shown(old(window).value, windowPosition, windowSize, isWindowClickable))
                     else None
    {
      if isWindowVisible {
        HideMainWindow();
      } else {
        ShowMainWindow();
      }
    }

    /** `toggleMouseClick`: flip clickability and make the window let mouse
        events through exactly when it is no longer clickable. */
    method ToggleMouseClick()
      modifies this`window, this`isWindowClickable
      ensures isWindowClickable == !old(isWindowClickable)
      ensures window == if old(window).Some? then Some(old(window).value.(ignoresMouse := !isWindowClickable))
                        else None
    {
      if isWindowClickable {
        if window.Some? {
          window := Some(window.value.(ignoresMouse := true));
        }
        isWindowClickable := false;
      } else {
        if window.Some? {
          window := Some(window.value.(ignoresMouse := false));
        }
        isWindowClickable := true;
      }
    }

    /** `setView`: the session and the store both show `v`. */
    method SetView(v: View)
      requires screenshots.Valid()
      modifies this`view, screenshots`view
      ensures Valid()
      ensures view == v && screenshots.view == v
    {
      view := v;
      screenshots.SetView(v);
    }

    /** `setProblemInfo`. */
    method SetProblemInfo(info: Option<ProblemInfo>)
      modifies this`problemInfo
      ensures problemInfo == info
    {
      problemInfo := info;
    }

    /** `setHasDebugged`. */
    method SetHasDebugged(b: bool)
      modifies this`hasDebugged
      ensures hasDebugged == b
    {
      hasDebugged := b;
    }

    /** `clearQueues`: both queues emptied, the problem forgotten, back to the
        "queue" view. */
    method ClearQueues(failing: set<Path>)
      requires Valid()
      modifies this`view, this`problemInfo, screenshots`view, screenshots`primary, screenshots`extra,
               screenshots`disk
      ensures Valid()
      ensures screenshots.primary == [] && screenshots.extra == []
      ensures screenshots.disk == old(screenshots.disk) - Unlinked(old(screenshots.primary), failing)
                                  - Unlinked(old(screenshots.extra), failing)
      ensures problemInfo.None? && view == Queue
    {
      screenshots.ClearQueues(failing);
      problemInfo := None;
      SetView(Queue);
    }

    /** `handleWindowMove`: the window now at `moved` has its position saved
        and becomes the current position. */
    method HandleWindowMove(moved: Bounds)
      modifies this`window, this`windowPosition, this`currentX, this`currentY
      ensures old(window).None? ==> (window.None? && windowPosition == old(windowPosition)
        && currentX == old(currentX) && currentY == old(currentY))
      ensures old(window).Some? ==> (window == Some(old(window).value.(bounds := moved))
        && windowPosition == Some(Point(moved.x, moved.y)) && currentX == moved.x && currentY == moved.y)
    {
      if window.Some? {
        window := Some(window.value.(bounds := moved));
        windowPosition := Some(Point(moved.x, moved.y));
        currentX, currentY := moved.x, moved.y;
      }
    }

    /** `handleWindowResize`: the window now at `resized` has its size saved. */
    method HandleWindowResize(resized: Bounds)
      modifies this`window, this`windowSize
      ensures old(window).None? ==> window.None? && windowSize == old(windowSize)
      ensures old(window).Some? ==> (window == Some(old(window).value.(bounds := resized))
        && windowSize == Some(Size(resized.width, resized.height)))
    {
      if window.Some? {
        window := Some(window.value.(bounds := resized));
        windowSize := Some(Size(resized.width, resized.height));
      }
    }

    /** `handleWindowClosed`: no window, nothing saved, not visible. */
    method HandleWindowClosed()
      modifies this`window, this`isWindowVisible, this`windowPosition, this`windowSize
      ensures window.None? && !isWindowVisible && windowPosition.None? && windowSize.None?
    {
      window := None;
      isWindowVisible := false;
      windowPosition := None;
      windowSize := None;
    }

    /** The `moveWindowLeft` shortcut: one step left, but never more than half
        the window past the left edge. */
    method MoveWindowLeft()
      modifies this`currentX, this`window
      ensures old(window).None? ==> currentX == old(currentX) && window.None?
      ensures old(window).Some? ==>
        && currentX == LeftOf(old(currentX), step, windowSize)
        && window == Some(MovedTo(old(window).value, currentX, currentY))
    {
      if window.Some? {
        currentX := LeftOf(currentX, step, windowSize);
        window := Some(MovedTo(window.value, currentX, currentY));
      }
    }

    /** The `moveWindowRight` shortcut: one step right, but never more than
        half the window past the right edge of the screen. */
    method MoveWindowRight()
      modifies this`currentX, this`window
      ensures old(window).None? ==> currentX == old(currentX) && window.None?
      ensures old(window).Some? ==>
        && currentX == RightOf(old(currentX), step, screenWidth, windowSize)
        && window == Some(MovedTo(old(window).value, currentX, currentY))
    {
      if window.Some? {
        currentX := RightOf(currentX, step, screenWidth, windowSize);
        window := Some(MovedTo(window.value, currentX, currentY));
      }
    }

    /** The `moveWindowUp` shortcut: one step up, without bound. */
    method MoveWindowUp()
      modifies this`currentY, this`window
      ensures currentY == if old(window).Some? then old(currentY) - step else old(currentY)
      ensures window == if old(window).Some? then Some(MovedTo(old(window).value, currentX, currentY)) else None
    {
      if window.Some? {
        currentY := currentY - step;
        window := Some(MovedTo(window.value, currentX, currentY));
      }
    }

    /** The `moveWindowDown` shortcut: one step down, without bound. */
    method MoveWindowDown()
      modifies this`currentY, this`window
      ensures currentY == if old(window).Some? then old(currentY) + step else old(currentY)
      ensures window == if old(window).Some? then Some(MovedTo(old(window).value, currentX, currentY)) else None
    {
      if window.Some? {
        currentY := currentY + step;
        window := Some(MovedTo(window.value, currentX, currentY));
      }
    }

    /** `takeScreenshot`: without a window this fails; otherwise the window is
        hidden, the store takes the screenshot, and the window is shown again
        whatever the outcome. */
    method TakeScreenshot(capture: Capture, writeOk: bool, uuid: string, failing: set<Path>)
      returns (r: Result<Path>)
      requires Valid() && '/' !in uuid
      modifies this`window, this`windowPosition, this`windowSize, this`isWindowVisible,
               screenshots`primary, screenshots`extra, screenshots`disk
      ensures Valid()
      ensures old(window).None? ==> (r == Err("Main window not found")
        && screenshots.primary == old(screenshots.primary) && screenshots.extra == old(screenshots.extra)
        && window.None? && isWindowVisible == old(isWindowVisible)
        && windowPosition == old(windowPosition) && windowSize == old(windowSize))
      ensures old(window).Some? ==>
        var b := old(window).value.bounds;
        && (r.Ok? <==> capture.Captured? && |capture.bytes| > 0 && writeOk)
        && windowPosition == Some(Point(b.x, b.y)) && windowSize == Some(Size(b.width, b.height))
        && window == Some(Shown(Hidden(old(window).value), windowPosition, windowSize, isWindowClickable))
        && window.value.bounds == b
        && isWindowVisible
      ensures r.Err? ==> (screenshots.primary == old(screenshots.primary)
        && screenshots.extra == old(screenshots.extra) && screenshots.disk == old(screenshots.disk))
      ensures r.Ok? && view == Queue ==>
        && r.value == CapturePath(screenshots.screenshotDir, uuid)
        && screenshots.primary == Push(old(screenshots.primary), r.value) && screenshots.extra == old(screenshots.extra)
        && screenshots.disk == old(screenshots.disk)[r.value := capture.bytes]
             - (match Evicted(old(screenshots.primary)) case Some(e) => Unlinked([e], failing) case None => {})
      ensures r.Ok? && view != Queue ==>
        && r.value == CapturePath(screenshots.extraDir, uuid)
        && screenshots.extra == Push(old(screenshots.extra), r.value) && screenshots.primary == old(screenshots.primary)
        && screenshots.disk == old(screenshots.disk)[r.value := capture.bytes]
             - (match Evicted(old(screenshots.extra)) case Some(e) => Unlinked([e], failing) case None => {})
    {
      if window.None? {
        return Err("Main window not found");
      }
      HideMainWindow();
      r := screenshots.TakeScreenshot(capture, writeOk, uuid, failing);
      ShowMainWindow();
    }
  }
}
