/**
 * The taskbar (components/Taskbar.tsx): four pinned application buttons,
 * then one button per open window of any other application. A click is
 * routed to `focusWindow` or `openApp` (App.tsx, `onWindowClick` and
 * `onAppClick`).
 */
module Taskbar {
  import opened Wrappers
  import opened Seqs
  import opened Catalog
  import opened Registry

  /** The pinned applications, in button order. */
  const PINNED: seq<AppId> := ["filenexus", "nemodocs", "nemeterm", "nemeweb"]

  /** What a taskbar button asks the registry to do. */
  datatype Click = FocusWindowClick(id: string) | OpenAppClick(appId: AppId)

  /** Every pinned application is in the catalog, so its `APPS.find(...)!` lookup cannot fail. */
  lemma PinnedAreListed()
    ensures forall appId :: appId in PINNED ==> FindApp(appId).Some? && FindApp(appId).value.id == appId
  {
    EveryAppIdIsListed();
    assert forall appId :: appId in PINNED ==> appId in APP_IDS;
  }

  /** The window a pinned button stands for: the first window of its application. */
  function PinnedWindow(ws: seq<WindowState>, appId: AppId): (r: Option<WindowState>)
    ensures r.Some? <==> exists i :: 0 <= i < |ws| && ws[i].appId == appId
    ensures r.Some? ==> r.value.appId == appId
    ensures r.Some? ==> exists i :: 0 <= i < |ws| && ws[i] == r.value && forall j :: 0 <= j < i ==> ws[j].appId != appId
  {
    match FindByApp(ws, appId)
    case None => None
    case Some(k) => Some(ws[k])
  }

  /**
   * A pinned button is highlighted when its window's id equals the active id;
   * without a window the comparison is `undefined === activeWindowId`, which
   * never holds.
   */
  predicate PinnedHighlighted(ws: seq<WindowState>, activeWindowId: Option<string>, appId: AppId): (r: bool)
    ensures r ==> exists i :: 0 <= i < |ws| && ws[i].appId == appId && activeWindowId == Some(ws[i].id)
  {
    match PinnedWindow(ws, appId)
    case None => false
    case Some(w) => activeWindowId == Some(w.id)
  }

  /**
   * In a well-formed registry a pinned button is highlighted exactly when some
   * window of its application is the active one.
   */
  lemma PinnedHighlightedIff(ws: seq<WindowState>, activeWindowId: Option<string>, appId: AppId)
    requires WellFormed(ws)
    ensures PinnedHighlighted(ws, activeWindowId, appId)
            <==> exists i :: 0 <= i < |ws| && ws[i].appId == appId && activeWindowId == Some(ws[i].id)
  {
    if i :| 0 <= i < |ws| && ws[i].appId == appId && activeWindowId == Some(ws[i].id) {
      var k := FindByApp(ws, appId).value;
      assert k == i;
    }
  }

  /** A pinned button focuses its application's first window, or launches the application. */
  function PinnedClick(ws: seq<WindowState>, appId: AppId): (r: Click)
    ensures r.OpenAppClick? <==> forall i :: 0 <= i < |ws| ==> ws[i].appId != appId
    ensures r.OpenAppClick? ==> r.appId == appId
    ensures r.FocusWindowClick? ==> exists i :: 0 <= i < |ws| && ws[i].appId == appId && ws[i].id == r.id
                                               && forall j :: 0 <= j < i ==> ws[j].appId != appId
  {
    match PinnedWindow(ws, appId)
    case None => OpenAppClick(appId)
    case Some(w) => FocusWindowClick(w.id)
  }

  /** The window belongs to none of the four pinned applications. */
  function IsUnpinned(w: WindowState): (r: bool)
    ensures r <==> forall k :: 0 <= k < |PINNED| ==> PINNED[k] != w.appId
  {
    w.appId !in PINNED
  }

  /** The windows listed after the separator: those of applications that are not pinned, in order. */
  function UnpinnedWindows(ws: seq<WindowState>): (r: seq<WindowState>)
    ensures IsSubsequence(r, ws)
    ensures forall i :: 0 <= i < |r| ==> r[i].appId !in PINNED
    ensures forall i :: 0 <= i < |ws| && ws[i].appId !in PINNED ==> ws[i] in r
    ensures multiset(r) <= multiset(ws)
    ensures forall i :: 0 <= i < |ws| && ws[i].appId !in PINNED ==> multiset(r)[ws[i]] == multiset(ws)[ws[i]]
  {
    Filter(ws, IsUnpinned)
  }

  /** A button after the separator always focuses its own window. */
  function WindowClick(w: WindowState): (r: Click)
    ensures r.FocusWindowClick? && r.id == w.id
  {
    FocusWindowClick(w.id)
  }

  /** The registry handler a click reaches: `focusWindow` or `openApp`. */
  function ApplyClick(s: Session, c: Click, freshId: string): (r: Session)
    ensures c.FocusWindowClick? ==> r.activeWindowId == Some(c.id) && |r.windows| == |s.windows|
    ensures c.OpenAppClick? && FindApp(c.appId).None? ==> r == s
    ensures c.OpenAppClick? && FindApp(c.appId).Some? ==> r.activeWindowId.Some? && !r.isStartMenuOpen
  {
    match c
    case FocusWindowClick(id) => Focus(s, id)
    case OpenAppClick(appId) => Open(s, appId, freshId)
  }

  /**
   * In a well-formed registry every window has exactly one taskbar button:
   * a window of a pinned application is the one its pinned button stands for,
   * any other window is listed after the separator.
   */
  lemma EveryWindowHasAButton(ws: seq<WindowState>)
    requires WellFormed(ws)
    ensures forall i :: 0 <= i < |ws| && ws[i].appId in PINNED ==> PinnedWindow(ws, ws[i].appId) == Some(ws[i])
    ensures forall i :: 0 <= i < |ws| && ws[i].appId !in PINNED ==> ws[i] in UnpinnedWindows(ws)
  {
    forall i | 0 <= i < |ws| && ws[i].appId in PINNED
      ensures PinnedWindow(ws, ws[i].appId) == Some(ws[i])
    {
      var k := FindByApp(ws, ws[i].appId).value;
      assert k == i;
    }
  }

  /** A pinned click on an application with a window focuses that window, which stays first for its app. */
  lemma PinnedClickFocuses(s: Session, appId: AppId, freshId: string)
    requires FindByApp(s.windows, appId).Some?
    ensures var r := ApplyClick(s, PinnedClick(s.windows, appId), freshId);
            PinnedHighlighted(r.windows, r.activeWindowId, appId)
            && !PinnedWindow(r.windows, appId).value.isMinimized
  {
    var k := FindByApp(s.windows, appId).value;
    var r := Focus(s, s.windows[k].id);
    FindByAppSameApps(s.windows, r.windows, appId);
    assert r.windows[k].id == s.windows[k].id;
  }

  /** A pinned click on an application without a window opens one, which is then first for its app. */
  lemma PinnedClickOpens(s: Session, appId: AppId, freshId: string)
    requires FindApp(appId).Some? && FindByApp(s.windows, appId).None?
    ensures var r := ApplyClick(s, PinnedClick(s.windows, appId), freshId);
            PinnedHighlighted(r.windows, r.activeWindowId, appId)
            && !PinnedWindow(r.windows, appId).value.isMinimized
  {
    var r := Open(s, appId, freshId);
    var w := NewWindow(freshId, FindApp(appId).value, |s.windows|);
    assert r.windows == s.windows + [w];
    FindByAppAppended(s.windows, w);
  }

  /**
   * After a click on a pinned button its application has a visible window
   * that is the active one, so the button is highlighted.
   */
  lemma PinnedClickActivates(s: Session, appId: AppId, freshId: string)
    requires appId in PINNED
    ensures var r := ApplyClick(s, PinnedClick(s.windows, appId), freshId);
            PinnedHighlighted(r.windows, r.activeWindowId, appId)
            && !PinnedWindow(r.windows, appId).value.isMinimized
  {
    PinnedAreListed();
    if FindByApp(s.windows, appId).Some? {
      PinnedClickFocuses(s, appId, freshId);
    } else {
      PinnedClickOpens(s, appId, freshId);
    }
  }

  /**
   * A click on a window button raises that window above every window of
   * another id, un-minimizes it and makes it active.
   */
  lemma WindowClickBringsForward(s: Session, i: nat, freshId: string)
    requires i < |s.windows|
    ensures var r := ApplyClick(s, WindowClick(s.windows[i]), freshId);
            && r.activeWindowId == Some(s.windows[i].id)
            && !r.windows[i].isMinimized
            && forall j :: 0 <= j < |r.windows| && r.windows[j].id != s.windows[i].id ==> r.windows[i].zIndex > r.windows[j].zIndex
  {
    var r := ApplyClick(s, WindowClick(s.windows[i]), freshId);
    FocusRaisesAbove(s, s.windows[i].id);
    assert r.windows[i].id == s.windows[i].id;
  }
}
