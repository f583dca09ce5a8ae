/**
 * One `Window` of the window manager (components/WindowManager.tsx): its
 * rendering conditions, the titlebar drag gesture and the corner resize
 * gesture. Pointer events are explicit method calls; the callbacks
 * `onFocus`, `onUpdatePosition` and `onUpdateSize` are the registry
 * handlers of `Registry.Desktop`.
 */
module WindowManager {
  import opened Wrappers
  import opened Catalog
  import Registry

  datatype Point = Point(x: int, y: int)
  datatype Size = Size(width: int, height: int)

  /** The resize floor: `Math.max(400, ...)` and `Math.max(300, ...)`. */
  const MIN_WIDTH := 400
  const MIN_HEIGHT := 300

  /** A minimized window renders nothing, so none of its parts can be hit. */
  predicate Renders(win: WindowState): (r: bool)
    ensures r <==> !win.isMinimized
  {
    !win.isMinimized
  }

  /** The resize handle is rendered only for a visible window that is not maximized. */
  predicate HasResizeHandle(win: WindowState): (r: bool)
    ensures r ==> Renders(win)
    ensures r <==> !win.isMinimized && !win.isMaximized
  {
    Renders(win) && !win.isMaximized
  }

  /** Minimizing a window stops it rendering, and focusing it again (a taskbar click) draws it again. */
  lemma MinimizeThenFocusShows(s: Registry.Session, id: string)
    ensures var m := Registry.Minimize(s, id);
            var f := Registry.Focus(m, id);
            forall i :: 0 <= i < |s.windows| && s.windows[i].id == id ==> !Renders(m.windows[i]) && Renders(f.windows[i])
  {
  }

  /**
   * The window is drawn as active when its id is the registry's active id;
   * with unique ids, at most one window of the list is.
   */
  predicate IsActive(activeWindowId: Option<string>, win: WindowState): (r: bool)
    ensures r <==> activeWindowId.Some? && activeWindowId.value == win.id
  {
    activeWindowId == Some(win.id)
  }

  /** Window ids are unique, so no two windows of the list are drawn as active at once. */
  lemma AtMostOneActive(ws: seq<WindowState>, activeWindowId: Option<string>, i: int, j: int)
    requires Registry.UniqueIds(ws)
    requires 0 <= i < |ws| && 0 <= j < |ws|
    requires IsActive(activeWindowId, ws[i]) && IsActive(activeWindowId, ws[j])
    ensures i == j
  {
  }

  /** The grab offset captured on a titlebar mousedown: pointer minus the window's corner. */
  function GrabOffset(win: WindowState, pointer: Point): (r: Point)
    ensures Point(win.x + r.x, win.y + r.y) == pointer
  {
    Point(pointer.x - win.x, pointer.y - win.y)
  }

  /** The position a drag move requests: pointer minus the grab offset, never clamped. */
  function DragTarget(offset: Point, pointer: Point): (r: Point)
    ensures Point(r.x + offset.x, r.y + offset.y) == pointer
  {
    Point(pointer.x - offset.x, pointer.y - offset.y)
  }

  /**
   * A drag keeps the grab offset: the window moves by exactly the pointer's
   * displacement, so a pointer back at its start leaves the window in place.
   */
  lemma DragFollowsPointer(win: WindowState, start: Point, pointer: Point)
    ensures DragTarget(GrabOffset(win, start), pointer)
            == Point(win.x + (pointer.x - start.x), win.y + (pointer.y - start.y))
    ensures DragTarget(GrabOffset(win, start), start) == Point(win.x, win.y)
  {
  }

  /** What the resize closure captures on mousedown on the handle. */
  datatype ResizeSession = ResizeSession(id: string, start: Point, startWidth: int, startHeight: int)

  /** The snapshot taken on mousedown on the handle: the window, the press point and the size then. */
  function BeginResize(win: WindowState, pointer: Point): (r: ResizeSession)
    ensures r.id == win.id && r.start == pointer
    ensures r.startWidth == win.width && r.startHeight == win.height
  {
    ResizeSession(win.id, pointer, win.width, win.height)
  }

  /**
   * The size a resize move requests, from the start snapshot: the start size
   * plus the pointer displacement, raised to the 400 x 300 floor.
   */
  function ResizeTo(session: ResizeSession, pointer: Point): (r: Size)
    ensures r.width >= MIN_WIDTH && r.height >= MIN_HEIGHT
    ensures r.width >= session.startWidth + (pointer.x - session.start.x)
    ensures r.height >= session.startHeight + (pointer.y - session.start.y)
    ensures r.width == MIN_WIDTH || r.width == session.startWidth + (pointer.x - session.start.x)
    ensures r.height == MIN_HEIGHT || r.height == session.startHeight + (pointer.y - session.start.y)
  {
    var w := session.startWidth + (pointer.x - session.start.x);
    var h := session.startHeight + (pointer.y - session.start.y);
    Size(if w > MIN_WIDTH then w else MIN_WIDTH, if h > MIN_HEIGHT then h else MIN_HEIGHT)
  }

  // ---------------------------------------------------------------------
  // Where the resize listener is attached
  // ---------------------------------------------------------------------

  /** The objects the resize handler can call `addEventListener` on. */
  datatype ListenerHost = BrowserWindow | WindowRecord(record: WindowState)

  /**
   * `host.addEventListener('mousemove', ...)`: the browser window accepts the
   * listener; a WindowState record has no such member, so the call throws a
   * TypeError and nothing is attached.
   */
  function AddMoveListener(host: ListenerHost, session: ResizeSession): (r: Option<ResizeSession>)
    ensures r.Some? <==> host.BrowserWindow?
    ensures r.Some? ==> r.value == session
  {
    match host
    case BrowserWindow => Some(session)
    case WindowRecord(_) => None
  }

  /**
   * As written: inside `Window` the destructured prop `window` shadows the
   * global, so the handler registers its listener on the window's record.
   */
  function ResizeListenerAsWritten(win: WindowState, pointer: Point): (r: Option<ResizeSession>)
    ensures r.None?
  {
    AddMoveListener(WindowRecord(win), BeginResize(win, pointer))
  }

  /**
   * As intended: the listener goes on the browser window, so it is attached,
   * and a move that has not left the press point keeps the window's size,
   * raised to the floor.
   */
  function ResizeListener(win: WindowState, pointer: Point): (r: Option<ResizeSession>)
    ensures r.Some? && r.value.id == win.id
    ensures var size := ResizeTo(r.value, pointer);
            && size.width == (if win.width > MIN_WIDTH then win.width else MIN_WIDTH)
            && size.height == (if win.height > MIN_HEIGHT then win.height else MIN_HEIGHT)
  {
    AddMoveListener(BrowserWindow, BeginResize(win, pointer))
  }

  /** As written, pressing the resize handle never attaches a listener, so no resize ever happens. */
  lemma ResizeAsWrittenNeverAttaches(win: WindowState, pointer: Point)
    ensures ResizeListenerAsWritten(win, pointer) == None
    ensures ResizeListener(win, pointer) == Some(BeginResize(win, pointer))
  {
  }

  /** Dragging a window at (100,100) grabbed at (150,150) to (200,180) puts it at (150,130). */
  lemma DragScenario(win: WindowState)
    requires win.x == 100 && win.y == 100
    ensures DragTarget(GrabOffset(win, Point(150, 150)), Point(200, 180)) == Point(150, 130)
  {
  }

  /** Resizing 800 x 600 by (+50, -700) gives 850 x 300: the height stops at the floor. */
  lemma ResizeScenario(win: WindowState)
    requires win.width == 800 && win.height == 600
    ensures ResizeTo(BeginResize(win, Point(0, 0)), Point(50, -700)) == Size(850, 300)
  {
  }

  /**
   * The per-window gesture state: the component state `isDragging` and
   * `dragOffset`, and the resize listener currently attached, if any.
   */
  class WindowView {
    var isDragging: bool
    var dragOffset: Point
    var resizeListener: Option<ResizeSession>

    constructor ()
      ensures !isDragging && dragOffset == Point(0, 0) && resizeListener == None
    {
      isDragging := false;
      dragOffset := Point(0, 0);
      resizeListener := None;
    }

    /**
     * `handleMouseDown`: any press on the window focuses it first; a press in
     * the titlebar (its buttons included) also starts a drag and captures the
     * grab offset.
     */
    method MouseDown(desk: Registry.Desktop, win: WindowState, pointer: Point, inTitlebar: bool)
      requires desk.Valid() && Renders(win)
      modifies this, desk
      ensures desk.Valid()
      ensures desk.State() == Registry.Focus(old(desk.State()), win.id)
      ensures IsActive(desk.activeWindowId, win)
      ensures desk.notifications == old(desk.notifications)
      ensures isDragging == (inTitlebar || old(isDragging))
      ensures dragOffset == if inTitlebar then GrabOffset(win, pointer) else old(dragOffset)
      ensures resizeListener == old(resizeListener)
    {
      desk.FocusWindow(win.id);
      if inTitlebar {
        isDragging := true;
        dragOffset := GrabOffset(win, pointer);
      }
    }

    /**
     * A press on the resize handle: the handle's own handler captures the
     * start snapshot and attaches the move listener, then the press bubbles
     * to the window, which focuses it (the handle is outside the titlebar).
     */
    method ResizeHandleDown(desk: Registry.Desktop, win: WindowState, pointer: Point)
      requires desk.Valid() && HasResizeHandle(win)
      modifies this, desk
      ensures desk.Valid()
      ensures desk.State() == Registry.Focus(old(desk.State()), win.id)
      ensures IsActive(desk.activeWindowId, win)
      ensures desk.notifications == old(desk.notifications)
      ensures resizeListener == ResizeListener(win, pointer)
      ensures isDragging == old(isDragging) && dragOffset == old(dragOffset)
    {
      resizeListener := ResizeListener(win, pointer);
      MouseDown(desk, win, pointer, false);
    }

    /**
     * A pointer move: while dragging and not maximized the window is moved to
     * pointer minus offset; an attached resize listener resizes from its
     * snapshot. Nothing else reaches the registry.
     */
    method MouseMove(desk: Registry.Desktop, win: WindowState, pointer: Point)
      requires desk.Valid()
      modifies desk
      ensures desk.Valid()
      ensures desk.notifications == old(desk.notifications)
      ensures var moved := if isDragging && !win.isMaximized
                           then var p := DragTarget(dragOffset, pointer); Registry.Move(old(desk.State()), win.id, p.x, p.y)
                           else old(desk.State());
              desk.State() == match resizeListener
                              case None => moved
                              case Some(session) =>
                                var size := ResizeTo(session, pointer);
                                Registry.Resize(moved, session.id, size.width, size.height)
    {
      if isDragging && !win.isMaximized {
        var p := DragTarget(dragOffset, pointer);
        desk.UpdatePosition(win.id, p.x, p.y);
      }
      if resizeListener.Some? {
        var size := ResizeTo(resizeListener.value, pointer);
        desk.UpdateSize(resizeListener.value.id, size.width, size.height);
      }
    }

    /** A pointer release anywhere ends both gestures; the offset is kept. */
    method MouseUp()
      modifies this
      ensures !isDragging && resizeListener == None && dragOffset == old(dragOffset)
    {
      isDragging := false;
      resizeListener := None;
    }
  }

  /**
   * Moving the pointer to the same place twice during one resize gives the
   * same size: each move is computed from the start snapshot, not from the
   * previous move.
   */
  method ResizeIsFromSnapshot(desk: Registry.Desktop, view: WindowView, win: WindowState, pointer: Point)
    requires desk.Valid() && !view.isDragging && view.resizeListener.Some?
    requires exists i :: 0 <= i < |desk.windows| && desk.windows[i].id == view.resizeListener.value.id
    modifies desk
    ensures var size := ResizeTo(view.resizeListener.value, pointer);
            forall i :: 0 <= i < |desk.windows| && desk.windows[i].id == view.resizeListener.value.id ==>
              desk.windows[i].width == size.width && desk.windows[i].height == size.height
  {
    view.MouseMove(desk, win, pointer);
    ghost var once := desk.windows;
    view.MouseMove(desk, win, pointer);
    assert |desk.windows| == |once|;
  }
}
