/**
 * The window registry of the desktop shell (App.tsx): the list of window
 * records, the active window id, the start-menu flag and the notification
 * list, and the handlers that replace them.
 *
 * Each handler is first stated as a pure transition on a `Session` value;
 * the class `Desktop` holds the same state in fields and its methods
 * perform the handlers step by step, proved equal to those transitions.
 */
module Registry {
  import opened Wrappers
  import opened Seqs
  import opened Catalog

  /** The zIndex floor of a fresh desktop (`zIndex: windows.length + 10`, `Math.max(..., 10)`). */
  const BASE_Z := 10
  /** Cascade of new windows: the n-th window opens at (100 + 40n, 100 + 40n). */
  const CASCADE_ORIGIN := 100
  const CASCADE_STEP := 40
  const DEFAULT_WIDTH := 800
  const DEFAULT_HEIGHT := 600
  /** The notification list keeps the ten most recent entries. */
  const MAX_NOTIFICATIONS := 10

  datatype Session = Session(
    windows: seq<WindowState>,
    activeWindowId: Option<string>,
    isStartMenuOpen: bool)

  ghost predicate UniqueIds(ws: seq<WindowState>) {
    forall i, j :: 0 <= i < j < |ws| ==> ws[i].id != ws[j].id
  }

  /** No application has two windows: `openApp` only creates a window for an app that has none. */
  ghost predicate OnePerApp(ws: seq<WindowState>) {
    forall i, j :: 0 <= i < j < |ws| ==> ws[i].appId != ws[j].appId
  }

  ghost predicate WellFormed(ws: seq<WindowState>) {
    UniqueIds(ws) && OnePerApp(ws)
  }

  predicate IdUnused(ws: seq<WindowState>, id: string) {
    forall i :: 0 <= i < |ws| ==> ws[i].id != id
  }

  /** `windows.find(w => w.appId === appId)`, as the index of the window found. */
  function FindByApp(ws: seq<WindowState>, appId: AppId): (r: Option<nat>)
    ensures r.Some? ==> r.value < |ws| && ws[r.value].appId == appId
                        && forall j :: 0 <= j < r.value ==> ws[j].appId != appId
    ensures r.None? <==> forall j :: 0 <= j < |ws| ==> ws[j].appId != appId
  {
    if ws == [] then None
    else if ws[0].appId == appId then Some(0)
    else match FindByApp(ws[1..], appId)
      case None => None
      case Some(k) => Some(k + 1)
  }

  /** The first record for an app that had none before is the one just appended. */
  lemma {:induction false} FindByAppAppended(ws: seq<WindowState>, w: WindowState)
    requires FindByApp(ws, w.appId).None?
    ensures FindByApp(ws + [w], w.appId) == Some(|ws|)
  {
    if ws == [] {
      assert ws + [w] == [w];
    } else {
      assert ws[0].appId != w.appId;
      assert (ws + [w])[1..] == ws[1..] + [w];
      FindByAppAppended(ws[1..], w);
    }
  }

  /** `ws.map(w => w.id === id ? f(w) : w)`. */
  function UpdateWhere(ws: seq<WindowState>, id: string, f: WindowState -> WindowState): (r: seq<WindowState>)
    ensures |r| == |ws|
    ensures forall i :: 0 <= i < |ws| ==> r[i] == if ws[i].id == id then f(ws[i]) else ws[i]
  {
    if ws == [] then []
    else [if ws[0].id == id then f(ws[0]) else ws[0]] + UpdateWhere(ws[1..], id, f)
  }

  /** The record updates the handlers apply through `UpdateWhere`. */
  function Restored(w: WindowState): WindowState { w.(isMinimized := false) }
  function Minimized(w: WindowState): WindowState { w.(isMinimized := true) }
  function MaximizeFlipped(w: WindowState): WindowState { w.(isMaximized := !w.isMaximized) }
  function RaisedTo(top: int): WindowState -> WindowState { (w: WindowState) => w.(zIndex := top, isMinimized := false) }
  function MovedTo(x: int, y: int): WindowState -> WindowState { (w: WindowState) => w.(x := x, y := y) }
  function SizedTo(width: int, height: int): WindowState -> WindowState { (w: WindowState) => w.(width := width, height := height) }

  /** The filters of `closeWindow` and of the notification timer. */
  function WindowIdIsNot(id: string): WindowState -> bool { (w: WindowState) => w.id != id }
  function NotificationIdIsNot(id: string): Notification -> bool { (n: Notification) => n.id != id }

  /** `Math.max(...ws.map(w => w.zIndex), 10)`: the largest zIndex, and never below 10. */
  function MaxZ(ws: seq<WindowState>): (m: int)
    ensures m >= BASE_Z
    ensures forall i :: 0 <= i < |ws| ==> ws[i].zIndex <= m
    ensures m == BASE_Z || exists i :: 0 <= i < |ws| && ws[i].zIndex == m
  {
    if ws == [] then BASE_Z
    else
      var rest := MaxZ(ws[1..]);
      assert forall i :: 1 <= i < |ws| ==> ws[i] == ws[1..][i - 1];
      if ws[0].zIndex > rest then ws[0].zIndex else rest
  }

  /**
   * The record `openApp` creates when `n` windows exist: open and neither
   * minimized nor maximized, titled with the app's name, 800 x 600, cascaded
   * 40 px down the diagonal per existing window from (100,100), at zIndex n + 10.
   */
  function NewWindow(id: string, app: AppMetadata, n: nat): (r: WindowState)
    ensures r.id == id && r.appId == app.id && r.title == app.name
    ensures r.isOpen && !r.isMinimized && !r.isMaximized
    ensures r.x == 100 + 40 * n && r.y == r.x
    ensures r.width == 800 && r.height == 600
    ensures r.zIndex == n + 10
  {
    WindowState(
      id := id, appId := app.id, title := app.name,
      isOpen := true, isMinimized := false, isMaximized := false,
      zIndex := n + BASE_Z,
      x := CASCADE_ORIGIN + n * CASCADE_STEP, y := CASCADE_ORIGIN + n * CASCADE_STEP,
      width := DEFAULT_WIDTH, height := DEFAULT_HEIGHT)
  }

  /**
   * `openApp(appId)`: an unknown app changes nothing; an app that already has
   * a window gets that window un-minimized (zIndex and geometry untouched) and
   * active; otherwise one new record is appended and made active.
   */
  function Open(s: Session, appId: AppId, freshId: string): (r: Session)
    ensures FindApp(appId).None? ==> r == s
    ensures FindApp(appId).Some? && FindByApp(s.windows, appId).Some? ==>
      var k := FindByApp(s.windows, appId).value;
      var w := s.windows[k];
      && |r.windows| == |s.windows|
      && r.windows[k] == w.(isMinimized := false)
      && (forall i :: 0 <= i < |s.windows| && s.windows[i].id != w.id ==> r.windows[i] == s.windows[i])
      && (forall i :: 0 <= i < |s.windows| && s.windows[i].id == w.id ==>
            r.windows[i] == if w.isMinimized then s.windows[i].(isMinimized := false) else s.windows[i])
      && r.activeWindowId == Some(w.id)
      && !r.isStartMenuOpen
    ensures FindApp(appId).Some? && FindByApp(s.windows, appId).None? ==>
      var n := |s.windows|;
      && |r.windows| == n + 1
      && r.windows[..n] == s.windows
      && r.windows[n] == WindowState(freshId, appId, FindApp(appId).value.name, true, false, false,
                                     n + 10, 100 + 40 * n, 100 + 40 * n, 800, 600)
      && r.activeWindowId == Some(freshId)
      && !r.isStartMenuOpen
  {
    match FindApp(appId)
    case None => s
    case Some(app) =>
      match FindByApp(s.windows, appId)
      case Some(k) =>
        var w := s.windows[k];
        var ws := if w.isMinimized then UpdateWhere(s.windows, w.id, Restored) else s.windows;
        Session(ws, Some(w.id), false)
      case None =>
        Session(s.windows + [NewWindow(freshId, app, |s.windows|)], Some(freshId), false)
  }

  /** `closeWindow(id)`: every record with that id goes, the others stay in order. */
  function Close(s: Session, id: string): (r: Session)
    ensures IsSubsequence(r.windows, s.windows)
    ensures forall i :: 0 <= i < |r.windows| ==> r.windows[i].id != id
    ensures forall i :: 0 <= i < |s.windows| && s.windows[i].id != id ==> s.windows[i] in r.windows
    ensures multiset(r.windows) <= multiset(s.windows)
    ensures forall i :: 0 <= i < |s.windows| && s.windows[i].id != id ==>
              multiset(r.windows)[s.windows[i]] == multiset(s.windows)[s.windows[i]]
    ensures r.activeWindowId == if s.activeWindowId == Some(id) then None else s.activeWindowId
    ensures r.isStartMenuOpen == s.isStartMenuOpen
  {
    var ws := Filter(s.windows, WindowIdIsNot(id));
    Session(ws, if s.activeWindowId == Some(id) then None else s.activeWindowId, s.isStartMenuOpen)
  }

  /**
   * `focusWindow(id)`: the target is raised to max(all zIndex, 10) + 1 and
   * un-minimized; the active id becomes
   * `id` even when no record has it.
   */
  function Focus(s: Session, id: string): (r: Session)
    ensures |r.windows| == |s.windows|
    ensures forall i :: 0 <= i < |s.windows| && s.windows[i].id != id ==> r.windows[i] == s.windows[i]
    ensures forall i :: 0 <= i < |s.windows| && s.windows[i].id == id ==>
              r.windows[i] == s.windows[i].(zIndex := MaxZ(s.windows) + 1, isMinimized := false)
    ensures r.activeWindowId == Some(id) && r.isStartMenuOpen == s.isStartMenuOpen
  {
    var top := MaxZ(s.windows) + 1;
    Session(UpdateWhere(s.windows, id, RaisedTo(top)), Some(id), s.isStartMenuOpen)
  }

  /** After `focusWindow(id)` every record with that id is strictly above every record with another id. */
  lemma FocusRaisesAbove(s: Session, id: string)
    ensures var r := Focus(s, id).windows;
            forall i, j :: 0 <= i < |r| && 0 <= j < |r| && r[i].id == id && r[j].id != id ==> r[i].zIndex > r[j].zIndex
  {
    var r := Focus(s, id).windows;
    forall i, j | 0 <= i < |r| && 0 <= j < |r| && r[i].id == id && r[j].id != id
      ensures r[i].zIndex > r[j].zIndex
    {
      assert s.windows[j].zIndex <= MaxZ(s.windows);
    }
  }

  /** `minimizeWindow(id)`: only the matching records are minimized; the active id is always cleared. */
  function Minimize(s: Session, id: string): (r: Session)
    ensures |r.windows| == |s.windows|
    ensures forall i :: 0 <= i < |s.windows| ==>
              r.windows[i] == if s.windows[i].id == id then s.windows[i].(isMinimized := true) else s.windows[i]
    ensures r.activeWindowId == None && r.isStartMenuOpen == s.isStartMenuOpen
  {
    Session(UpdateWhere(s.windows, id, Minimized), None, s.isStartMenuOpen)
  }

  /** `toggleMaximizeWindow(id)`: flips `isMaximized` of the matching records and nothing else. */
  function ToggleMaximize(s: Session, id: string): (r: Session)
    ensures |r.windows| == |s.windows|
    ensures forall i :: 0 <= i < |s.windows| ==>
              r.windows[i] == if s.windows[i].id == id then s.windows[i].(isMaximized := !s.windows[i].isMaximized) else s.windows[i]
    ensures r.activeWindowId == s.activeWindowId && r.isStartMenuOpen == s.isStartMenuOpen
  {
    s.(windows := UpdateWhere(s.windows, id, MaximizeFlipped))
  }

  /** `onUpdatePosition(id, x, y)`: overwrites the position of the matching records, maximized or not. */
  function Move(s: Session, id: string, x: int, y: int): (r: Session)
    ensures |r.windows| == |s.windows|
    ensures forall i :: 0 <= i < |s.windows| ==>
              r.windows[i] == if s.windows[i].id == id then s.windows[i].(x := x, y := y) else s.windows[i]
    ensures r.activeWindowId == s.activeWindowId && r.isStartMenuOpen == s.isStartMenuOpen
  {
    s.(windows := UpdateWhere(s.windows, id, MovedTo(x, y)))
  }

  /** `onUpdateSize(id, width, height)`: overwrites the size of the matching records, unclamped. */
  function Resize(s: Session, id: string, width: int, height: int): (r: Session)
    ensures |r.windows| == |s.windows|
    ensures forall i :: 0 <= i < |s.windows| ==>
              r.windows[i] == if s.windows[i].id == id then s.windows[i].(width := width, height := height) else s.windows[i]
    ensures r.activeWindowId == s.activeWindowId && r.isStartMenuOpen == s.isStartMenuOpen
  {
    s.(windows := UpdateWhere(s.windows, id, SizedTo(width, height)))
  }

  /** `addNotification`: the new entry goes first and only the ten most recent are kept. */
  function Notify(ns: seq<Notification>, n: Notification): (r: seq<Notification>)
    ensures |r| == if |ns| < MAX_NOTIFICATIONS then |ns| + 1 else MAX_NOTIFICATIONS
    ensures r[0] == n
    ensures r[1..] == ns[..|r| - 1]
  {
    var all := [n] + ns;
    all[..if |all| < MAX_NOTIFICATIONS then |all| else MAX_NOTIFICATIONS]
  }

  /** The timed removal of a notification: every entry with that id goes, the others stay in order. */
  function Expire(ns: seq<Notification>, id: string): (r: seq<Notification>)
    ensures IsSubsequence(r, ns)
    ensures forall i :: 0 <= i < |r| ==> r[i].id != id
    ensures forall i :: 0 <= i < |ns| && ns[i].id != id ==> ns[i] in r
    ensures multiset(r) <= multiset(ns)
    ensures forall i :: 0 <= i < |ns| && ns[i].id != id ==> multiset(r)[ns[i]] == multiset(ns)[ns[i]]
  {
    Filter(ns, NotificationIdIsNot(id))
  }

  // ---------------------------------------------------------------------
  // Properties of the transitions
  // ---------------------------------------------------------------------

  /** Closing a window id that no record has leaves the windows as they were. */
  lemma {:induction false} CloseUnknownKeepsWindows(s: Session, id: string)
    requires IdUnused(s.windows, id)
    ensures Close(s, id).windows == s.windows
  {
    FilterKeepsAll(s.windows, WindowIdIsNot(id));
  }

  /** Toggling maximization twice restores the session exactly. */
  lemma ToggleMaximizeTwice(s: Session, id: string)
    ensures ToggleMaximize(ToggleMaximize(s, id), id) == s
  {
    var r := ToggleMaximize(ToggleMaximize(s, id), id);
    assert r.windows == s.windows;
  }

  /** `find` by app id only looks at the app ids, in order. */
  lemma FindByAppSameApps(a: seq<WindowState>, b: seq<WindowState>, appId: AppId)
    requires |a| == |b| && forall i :: 0 <= i < |a| ==> a[i].appId == b[i].appId
    ensures FindByApp(a, appId) == FindByApp(b, appId)
  {
    var ra, rb := FindByApp(a, appId), FindByApp(b, appId);
    if ra.Some? && rb.Some? {
      assert !(ra.value < rb.value) && !(rb.value < ra.value);
    }
  }

  lemma {:induction false} OpenReusedIsStable(s: Session, appId: AppId, id1: string, id2: string)
    requires FindApp(appId).Some? && FindByApp(s.windows, appId).Some?
    ensures Open(Open(s, appId, id1), appId, id2) == Open(s, appId, id1)
  {
    var r1 := Open(s, appId, id1);
    var k := FindByApp(s.windows, appId).value;
    FindByAppSameApps(s.windows, r1.windows, appId);
    assert !r1.windows[k].isMinimized && r1.windows[k].id == s.windows[k].id;
  }

  lemma {:induction false} OpenCreatedIsStable(s: Session, appId: AppId, id1: string, id2: string)
    requires FindApp(appId).Some? && FindByApp(s.windows, appId).None?
    ensures Open(Open(s, appId, id1), appId, id2) == Open(s, appId, id1)
  {
    var r1 := Open(s, appId, id1);
    var n := |s.windows|;
    var w := NewWindow(id1, FindApp(appId).value, n);
    assert r1.windows == s.windows + [w];
    FindByAppAppended(s.windows, w);
    assert !r1.windows[n].isMinimized && r1.windows[n].id == id1;
    assert r1.activeWindowId == Some(id1) && !r1.isStartMenuOpen;
  }

  /**
   * Launching an application a second time changes nothing: after the first
   * `openApp`, the app has a visible window, which the second one merely
   * re-activates.
   */
  lemma OpenTwiceSameAsOnce(s: Session, appId: AppId, id1: string, id2: string)
    ensures Open(Open(s, appId, id1), appId, id2) == Open(s, appId, id1)
  {
    if FindApp(appId).Some? {
      if FindByApp(s.windows, appId).Some? {
        OpenReusedIsStable(s, appId, id1, id2);
      } else {
        OpenCreatedIsStable(s, appId, id1, id2);
      }
    }
  }

  /**
   * Focusing the same window twice is not idempotent: each call raises it by
   * one more level, because the window itself now holds the maximum.
   */
  lemma FocusTwiceRaisesAgain(s: Session, id: string, i: nat)
    requires i < |s.windows| && s.windows[i].id == id
    ensures Focus(Focus(s, id), id).windows[i].zIndex == Focus(s, id).windows[i].zIndex + 1
  {
    var r := Focus(s, id);
    assert MaxZ(r.windows) == MaxZ(s.windows) + 1 by {
      assert r.windows[i].zIndex == MaxZ(s.windows) + 1;
    }
  }

  /** Changing fields other than `id` and `appId` keeps the registry invariant. */
  lemma SameKeysKeepWellFormed(a: seq<WindowState>, b: seq<WindowState>)
    requires WellFormed(a)
    requires |a| == |b| && forall i :: 0 <= i < |a| ==> a[i].id == b[i].id && a[i].appId == b[i].appId
    ensures WellFormed(b)
  {
  }

  /** `focusWindow` keeps the registry invariant: it changes neither ids nor app ids. */
  lemma FocusKeepsWellFormed(s: Session, id: string)
    requires WellFormed(s.windows)
    ensures WellFormed(Focus(s, id).windows)
  {
    SameKeysKeepWellFormed(s.windows, Focus(s, id).windows);
  }

  /** Appending a record with a fresh id for an app without a window keeps the registry invariant. */
  lemma AppendKeepsWellFormed(ws: seq<WindowState>, w: WindowState)
    requires WellFormed(ws) && IdUnused(ws, w.id)
    requires forall i :: 0 <= i < |ws| ==> ws[i].appId != w.appId
    ensures WellFormed(ws + [w])
  {
  }

  /** Reusing a window only un-minimizes it, so the invariant survives. */
  lemma OpenReuseKeepsWellFormed(s: Session, appId: AppId, freshId: string)
    requires WellFormed(s.windows)
    requires FindApp(appId).Some? && FindByApp(s.windows, appId).Some?
    ensures WellFormed(Open(s, appId, freshId).windows)
  {
    var w := s.windows[FindByApp(s.windows, appId).value];
    var ws := if w.isMinimized then UpdateWhere(s.windows, w.id, Restored) else s.windows;
    assert Open(s, appId, freshId).windows == ws;
    SameKeysKeepWellFormed(s.windows, ws);
  }

  /** A created window has a fresh id and an app without a window, so the invariant survives. */
  lemma OpenCreateKeepsWellFormed(s: Session, appId: AppId, freshId: string)
    requires WellFormed(s.windows) && IdUnused(s.windows, freshId)
    requires FindApp(appId).Some? && FindByApp(s.windows, appId).None?
    ensures WellFormed(Open(s, appId, freshId).windows)
  {
    var w := NewWindow(freshId, FindApp(appId).value, |s.windows|);
    assert Open(s, appId, freshId).windows == s.windows + [w];
    AppendKeepsWellFormed(s.windows, w);
  }

  /** The registry invariant survives `openApp`, given a fresh id. */
  lemma OpenKeepsWellFormed(s: Session, appId: AppId, freshId: string)
    requires WellFormed(s.windows) && IdUnused(s.windows, freshId)
    ensures WellFormed(Open(s, appId, freshId).windows)
  {
    if FindApp(appId).Some? {
      if FindByApp(s.windows, appId).Some? {
        OpenReuseKeepsWellFormed(s, appId, freshId);
      } else {
        OpenCreateKeepsWellFormed(s, appId, freshId);
      }
    }
  }

  /** A record of `ws` other than its first one differs from the first in id and app. */
  lemma MemberOfTailDiffers(ws: seq<WindowState>, w: WindowState)
    requires WellFormed(ws) && |ws| > 0 && w in ws[1..]
    ensures ws[0].id != w.id && ws[0].appId != w.appId
  {
    var m :| 0 <= m < |ws| - 1 && ws[1..][m] == w;
    assert ws[m + 1] == w;
  }

  /** A record that differs in id and app from every record of a well-formed list can go in front of it. */
  lemma ConsKeepsWellFormed(w: WindowState, rest: seq<WindowState>)
    requires WellFormed(rest)
    requires forall k :: 0 <= k < |rest| ==> rest[k].id != w.id && rest[k].appId != w.appId
    ensures WellFormed([w] + rest)
  {
    var r := [w] + rest;
    assert forall k :: 1 <= k < |r| ==> r[k] == rest[k - 1];
  }

  lemma {:induction false} FilterKeepsWellFormed(ws: seq<WindowState>, p: WindowState -> bool)
    requires WellFormed(ws)
    ensures WellFormed(Filter(ws, p))
  {
    if ws != [] {
      var rest := Filter(ws[1..], p);
      FilterKeepsWellFormed(ws[1..], p);
      if p(ws[0]) {
        forall k | 0 <= k < |rest|
          ensures rest[k].id != ws[0].id && rest[k].appId != ws[0].appId
        {
          MemberOfTailDiffers(ws, rest[k]);
        }
        ConsKeepsWellFormed(ws[0], rest);
        assert Filter(ws, p) == [ws[0]] + rest;
      }
    }
  }

  lemma CloseKeepsWellFormed(s: Session, id: string)
    requires WellFormed(s.windows)
    ensures WellFormed(Close(s, id).windows)
  {
    FilterKeepsWellFormed(s.windows, WindowIdIsNot(id));
  }

  /** A notification that is added and then expires leaves the older entries that still fit. */
  lemma NotifyThenExpire(ns: seq<Notification>, n: Notification)
    requires forall i :: 0 <= i < |ns| ==> ns[i].id != n.id
    ensures Expire(Notify(ns, n), n.id) == Notify(ns, n)[1..]
  {
    var r := Notify(ns, n);
    assert r == [n] + r[1..];
    FilterKeepsAll(r[1..], NotificationIdIsNot(n.id));
  }

  // ---------------------------------------------------------------------
  // Scenarios: the cascade, and where the `length + 10` rule departs from "topmost"
  // ---------------------------------------------------------------------

  /** Opening two different applications on an empty desktop: zIndex 10 then 11, cascaded by 40. */
  lemma OpenTwoAppsScenario(a: AppId, b: AppId, ida: string, idb: string)
    requires FindApp(a).Some? && FindApp(b).Some? && a != b
    ensures var r := Open(Open(Session([], None, false), a, ida), b, idb);
      && |r.windows| == 2
      && r.windows[0].zIndex == 10 && r.windows[0].x == 100 && r.windows[0].y == 100
      && r.windows[1].zIndex == 11 && r.windows[1].x == 140 && r.windows[1].y == 140
      && r.windows[1].width == 800 && r.windows[1].height == 600
      && r.windows[0].id == ida && r.windows[0].appId == a
      && r.windows[1].id == idb && r.windows[1].appId == b
      && r.activeWindowId == Some(idb)
  {
    var r1 := Open(Session([], None, false), a, ida);
    assert FindByApp(r1.windows, b).None?;
  }

  /** Focusing the first of two windows raises it to one above the higher of the two. */
  lemma FocusFirstOfTwo(s: Session, wa: WindowState, wb: WindowState)
    requires s.windows == [wa, wb] && wa.id != wb.id
    ensures var top := if wa.zIndex > wb.zIndex then wa.zIndex else wb.zIndex;
            Focus(s, wa.id).windows == [wa.(zIndex := (if top > BASE_Z then top else BASE_Z) + 1, isMinimized := false), wb]
  {
    var r := Focus(s, wa.id).windows;
    assert MaxZ(s.windows) == MaxZ([wb]) || MaxZ(s.windows) == wa.zIndex;
    assert s.windows[1..] == [wb];
    assert |r| == 2 && r[1] == wb;
  }

  /** Closing the second of two windows leaves the first alone. */
  lemma CloseSecondOfTwo(s: Session, wa: WindowState, wb: WindowState)
    requires s.windows == [wa, wb] && wa.id != wb.id
    ensures Close(s, wb.id).windows == [wa]
  {
    var p := WindowIdIsNot(wb.id);
    assert s.windows[1..] == [wb];
    assert [wb][1..] == [];
    assert Filter([wb], p) == [];
    assert Filter(s.windows, p) == [wa] + Filter([wb], p);
  }

  /**
   * A new window can open beneath an older one: open a and b, focus a, close b,
   * then open c; c becomes the active window with zIndex 11 while a sits at 12.
   */
  lemma NewWindowCanOpenBeneath(a: AppId, b: AppId, c: AppId)
    requires FindApp(a).Some? && FindApp(b).Some? && FindApp(c).Some?
    requires a != b && b != c && a != c
    ensures var s1 := Open(Open(Session([], None, false), a, "wa"), b, "wb");
            var s2 := Open(Close(Focus(s1, "wa"), "wb"), c, "wc");
      && |s2.windows| == 2
      && s2.windows[0].id == "wa" && s2.windows[0].zIndex == 12
      && s2.windows[1].id == "wc" && s2.windows[1].zIndex == 11
      && s2.activeWindowId == Some("wc")
  {
    var s1 := Open(Open(Session([], None, false), a, "wa"), b, "wb");
    OpenTwoAppsScenario(a, b, "wa", "wb");
    var wa, wb := s1.windows[0], s1.windows[1];
    assert s1.windows == [wa, wb];
    var f := Focus(s1, "wa");
    var wa' := wa.(zIndex := 12, isMinimized := false);
    FocusFirstOfTwo(s1, wa, wb);
    var cl := Close(f, "wb");
    CloseSecondOfTwo(f, wa', wb);
    assert FindByApp(cl.windows, c).None?;
  }

  // ---------------------------------------------------------------------
  // The state owner
  // ---------------------------------------------------------------------

  /** The desktop shell's state: the fields that App.tsx keeps and replaces in its handlers. */
  class Desktop {
    var windows: seq<WindowState>
    var activeWindowId: Option<string>
    var isStartMenuOpen: bool
    var notifications: seq<Notification>

    function State(): Session
      reads this
    {
      Session(windows, activeWindowId, isStartMenuOpen)
    }

    ghost predicate Valid()
      reads this
    {
      WellFormed(windows) && |notifications| <= MAX_NOTIFICATIONS
    }

    constructor ()
      ensures Valid()
      ensures windows == [] && activeWindowId == None && !isStartMenuOpen && notifications == []
    {
      windows := [];
      activeWindowId := None;
      isStartMenuOpen := false;
      notifications := [];
    }

    method OpenApp(appId: AppId, freshId: string)
      requires Valid() && IdUnused(windows, freshId)
      modifies this
      ensures Valid()
      ensures State() == Open(old(State()), appId, freshId)
      ensures notifications == old(notifications)
    {
      ghost var before := State();
      OpenKeepsWellFormed(before, appId, freshId);
      var app := FindApp(appId);
      if app.None? {
        return;
      }
      var existing := FindByApp(windows, appId);
      if existing.Some? {
        var w := windows[existing.value];
        var updated := if w.isMinimized then UpdateWhere(windows, w.id, Restored) else windows;
        assert Session(updated, Some(w.id), false) == Open(before, appId, freshId);
        windows := updated;
        activeWindowId := Some(w.id);
        isStartMenuOpen := false;
        return;
      }
      var newWindow := NewWindow(freshId, app.value, |windows|);
      assert Session(windows + [newWindow], Some(newWindow.id), false) == Open(before, appId, freshId);
      windows := windows + [newWindow];
      activeWindowId := Some(newWindow.id);
      isStartMenuOpen := false;
    }

    method CloseWindow(id: string)
      requires Valid()
      modifies this
      ensures Valid()
      ensures State() == Close(old(State()), id)
      ensures notifications == old(notifications)
    {
      CloseKeepsWellFormed(State(), id);
      windows := Filter(windows, WindowIdIsNot(id));
      if activeWindowId == Some(id) {
        activeWindowId := None;
      }
    }

    method FocusWindow(id: string)
      requires Valid()
      modifies this
      ensures Valid()
      ensures State() == Focus(old(State()), id)
      ensures notifications == old(notifications)
    {
      FocusKeepsWellFormed(State(), id);
      var maxZ := MaxZ(windows);
      var updated := UpdateWhere(windows, id, RaisedTo(maxZ + 1));
      assert Session(updated, Some(id), isStartMenuOpen) == Focus(State(), id);
      activeWindowId := Some(id);
      windows := updated;
    }

    method MinimizeWindow(id: string)
      requires Valid()
      modifies this
      ensures Valid()
      ensures State() == Minimize(old(State()), id)
      ensures notifications == old(notifications)
    {
      var updated := UpdateWhere(windows, id, Minimized);
      SameKeysKeepWellFormed(windows, updated);
      windows := updated;
      activeWindowId := None;
    }

    method ToggleMaximizeWindow(id: string)
      requires Valid()
      modifies this
      ensures Valid()
      ensures State() == ToggleMaximize(old(State()), id)
      ensures notifications == old(notifications)
    {
      var updated := UpdateWhere(windows, id, MaximizeFlipped);
      SameKeysKeepWellFormed(windows, updated);
      windows := updated;
    }

    method UpdatePosition(id: string, x: int, y: int)
      requires Valid()
      modifies this
      ensures Valid()
      ensures State() == Move(old(State()), id, x, y)
      ensures notifications == old(notifications)
    {
      var updated := UpdateWhere(windows, id, MovedTo(x, y));
      SameKeysKeepWellFormed(windows, updated);
      windows := updated;
    }

    method UpdateSize(id: string, width: int, height: int)
      requires Valid()
      modifies this
      ensures Valid()
      ensures State() == Resize(old(State()), id, width, height)
      ensures notifications == old(notifications)
    {
      var updated := UpdateWhere(windows, id, SizedTo(width, height));
      SameKeysKeepWellFormed(windows, updated);
      windows := updated;
    }

    /** The start button flips the menu; the menu's own close action shuts it. */
    method ToggleStartMenu()
      modifies this
      ensures isStartMenuOpen == !old(isStartMenuOpen)
      ensures windows == old(windows) && activeWindowId == old(activeWindowId) && notifications == old(notifications)
    {
      isStartMenuOpen := !isStartMenuOpen;
    }

    method CloseStartMenu()
      modifies this
      ensures !isStartMenuOpen
      ensures windows == old(windows) && activeWindowId == old(activeWindowId) && notifications == old(notifications)
    {
      isStartMenuOpen := false;
    }

    /** `addNotification`, with the random id and `Date.now()` supplied by the caller. */
    method AddNotification(id: string, title: string, message: string, kind: NotificationKind, now: int)
      requires Valid()
      modifies this
      ensures Valid()
      ensures notifications == Notify(old(notifications), Notification(id, title, message, kind, now))
      ensures State() == old(State())
    {
      var n := Notification(id, title, message, kind, now);
      notifications := Notify(notifications, n);
    }

    /** The removal that `addNotification` schedules five seconds later. */
    method ExpireNotification(id: string)
      requires Valid()
      modifies this
      ensures Valid()
      ensures notifications == Expire(old(notifications), id)
      ensures State() == old(State())
    {
      notifications := Expire(notifications, id);
    }
  }
}
