# Nemesis OS desktop shell, modelled in Dafny

Nemesis OS is a desktop simulation that runs in the browser. This project models the part of it with real logic:

- the window registry held by the top-level `App` component, and its bounded notification list;
- the drag and resize gestures of a window;
- how the taskbar binds its buttons to windows;
- the start menu's search;
- three small applications:
  - NemeDocs, a Markdown-like editor with preview;
  - NemeTerm, a command terminal;
  - NemeCalc, a calculator.

Modules, one per source file, plus shared helpers:

| module | file | models |
|---|---|---|
| `Wrappers` | `wrappers.dfy` | `Option` |
| `Seqs` | `seqs.dfy` | `Array.prototype.filter` as `Filter`, with the subsequence relation |
| `Text` | `text.dfy` | the string primitives the applications use, over ASCII: `trim`, `toLowerCase`, `startsWith`, `includes` and `replace` with a string pattern |
| `Catalog` | `catalog.dfy` | `types.ts` and `constants.tsx`: the application ids, the `APPS` table, and the `WindowState` and `Notification` records |
| `Registry` | `registry.dfy` | `App.tsx` |
| `WindowManager` | `window_manager.dfy` | `components/WindowManager.tsx` |
| `Taskbar` | `taskbar.dfy` | `components/Taskbar.tsx` |
| `StartMenu` | `start_menu.dfy` | `components/StartMenu.tsx` |
| `NemeDocs`, `NemeTerm`, `NemeCalc` | `neme_docs.dfy`, `neme_term.dfy`, `neme_calc.dfy` | the three applications |

`Registry` has two layers:

- Pure transitions over a `Session` value: `Open`, `Close`, `Focus`, `Minimize`, `ToggleMaximize`, `Move`, `Resize`, `Notify` and `Expire`. Each states exactly what changes and what does not.
- The class `Desktop`. Its fields are the state that `App` replaces in its handlers. Each method is proved to produce the transition of the old state, and to keep the invariant that window ids are unique and each application has at most one window.

Typing on the keyboard, moving the pointer and clicking buttons become method calls. The random ids, the clock and the calculator's `eval` become parameters.

Some consequences of the code that the model keeps:

- The resize floor is 400 × 300. So resizing 800 × 600 by (+50, −700) gives 850 × 300.
- A new window gets zIndex `windows.length + 10`, whereas `focusWindow` raises a window to the current maximum + 1. So a new window can open beneath an older one.
- Opening an application that already has a window does not raise it.
- Minimizing always clears the active window.
- Drag and resize are not clamped to the workspace.

## Model

| member | source | states |
|---|---|---|
| Seqs.Filter | App.tsx:71 | `filter` keeps exactly the elements satisfying the predicate, in order and as often as they occur: the result is a subsequence, each kept element satisfies it, each satisfying element is kept with its full multiplicity, and no element occurs more often than in the input |
| Seqs.FilterKeepsAll | App.tsx:71 | a filter whose predicate holds of every element returns its input unchanged |
| Seqs.FilterSamePredicate | components/StartMenu.tsx:16-18 | predicates that agree on the elements give the same filter result |
| Text.Lower | components/StartMenu.tsx:17 | `toLowerCase` keeps the length and lowers each letter in place |
| Text.TrimStart | components/apps/NemeTerm.tsx:21-23 | the result is the longest suffix not starting with whitespace, and everything dropped is whitespace |
| Text.TrimEnd | components/apps/NemeTerm.tsx:21-23 | the result is the longest prefix not ending with whitespace, and everything dropped is whitespace |
| Text.Trim | components/apps/NemeTerm.tsx:21 | `trim` cuts a whitespace prefix and a whitespace suffix off the input, leaving a middle piece that neither starts nor ends with whitespace; it is empty exactly when the input is all whitespace |
| Text.ReplaceFirst | components/apps/NemeDocs.tsx:57-59 | `replace(pattern, r)` on a string that starts with the pattern replaces that prefix; without an occurrence it returns the string unchanged |
| Text.StartsWith | components/apps/NemeDocs.tsx:57-59 | `startsWith(prefix)` holds exactly when the prefix occurs at index 0, and then the string also `includes` it |
| Text.Contains | components/StartMenu.tsx:17 | `includes(part)` holds when the part occurs at some index; it needs the part to be no longer than the string, and holds for the empty part and for the string itself |
| Text.TrimIgnoresPadding | components/apps/NemeTerm.tsx:23 | whitespace added on either side does not change `trim` |
| Text.LowerTrimCommute | components/apps/NemeTerm.tsx:23 | lowering and trimming commute |
| Catalog.FindIn | App.tsx:37 | `APPS.find` by id returns the first entry with that id, and nothing exactly when no entry has it |
| Catalog.FindApp | App.tsx:37 | the application found is the first `APPS` entry with the requested id, so its name and icon are the catalog's; there is none exactly when no entry has that id |
| Catalog.EveryAppIdIsListed | constants.tsx:27-39 | every member of the `AppId` union (types.ts:2) has a catalog entry under its own id |
| Registry.FindByApp | App.tsx:41 | `windows.find` by app returns the first window of that app, and nothing exactly when the app has no window |
| Registry.UpdateWhere | App.tsx:44 | `map` with an id test updates exactly the records with that id and keeps the length |
| Registry.MaxZ | App.tsx:78 | `Math.max(...zIndex, 10)` is at least 10, at least every zIndex, and is 10 or some window's zIndex |
| Registry.NewWindow | App.tsx:51-63 | the new record has the given id, the app's id and the app's name as title; it is open, neither minimized nor maximized, 800 × 600 at (100+40n, 100+40n) and at zIndex n+10, with n the number of existing windows |
| Registry.Open | App.tsx:36-68 | unknown app: no change. App with a window: that window becomes active; if it was minimized, every record with its id is un-minimized, otherwise none changes; records with other ids, and zIndex and geometry, are untouched. Otherwise one record is appended with zIndex n+10, position 100+40n, size 800 × 600 and the app's name as title, and it becomes active. The menu closes whenever the app is known |
| Registry.Close | App.tsx:70-73 | every record with the id is removed and every other record kept, in order and with its multiplicity; the active id is cleared only if it was that id |
| Registry.Focus | App.tsx:75-81 | the target gets zIndex max(all zIndex, 10)+1 and is un-minimized; other records are unchanged; the active id becomes the id even when no record has it |
| Registry.FocusRaisesAbove | App.tsx:77-79 | after a focus, every record with the id is strictly above every record with another id |
| Registry.Minimize | App.tsx:83-86 | only the matching records are minimized; the active id is always cleared |
| Registry.ToggleMaximize | App.tsx:88-90 | only `isMaximized` of the matching records flips |
| Registry.Move | App.tsx:129 | only x/y of the matching records change, whether maximized or not |
| Registry.Resize | App.tsx:130 | only width/height of the matching records change, unclamped |
| Registry.Notify | App.tsx:26-28 | the new notification comes first, followed by the newest older ones, at most 10 in all |
| Registry.Expire | App.tsx:31-33 | only the notifications with that id are removed; the others keep their order and multiplicity |
| Registry.CloseUnknownKeepsWindows | App.tsx:70-71 | closing an id no record has leaves the windows unchanged |
| Registry.ToggleMaximizeTwice | App.tsx:88-90 | toggling maximization twice restores the session |
| Registry.FindByAppAppended | App.tsx:41 | once a window is appended for an app that had none, `find` by that app returns the appended window |
| Registry.FindByAppSameApps | App.tsx:41 | the window found for an app depends only on the windows' app ids |
| Registry.OpenReusedIsStable | App.tsx:41-48 | reopening an app that has a window is idempotent |
| Registry.OpenCreatedIsStable | App.tsx:51-67 | after an app's window is created, opening the app again changes nothing |
| Registry.OpenTwiceSameAsOnce | App.tsx:36-68 | opening the same app twice equals opening it once, for every session |
| Registry.FocusTwiceRaisesAgain | App.tsx:75-81 | focus is not idempotent: a second focus raises the window one level more |
| Registry.SameKeysKeepWellFormed | App.tsx:44 | updates that keep ids and app ids preserve unique ids and one window per app |
| Registry.AppendKeepsWellFormed | App.tsx:65 | appending a fresh id for an app without a window preserves the invariant |
| Registry.OpenReuseKeepsWellFormed | App.tsx:41-48 | reusing an app's window keeps unique ids and one window per app |
| Registry.OpenCreateKeepsWellFormed | App.tsx:51-67 | creating a window with a fresh id for an app without one keeps the invariant |
| Registry.OpenKeepsWellFormed | App.tsx:36-68 | `openApp` with a fresh id preserves unique ids and one window per app |
| Registry.MemberOfTailDiffers | App.tsx:71 | under the invariant, the first record differs in id and app from every later one |
| Registry.ConsKeepsWellFormed | App.tsx:71 | a record differing in id and app from every record of a well-formed list can go in front of it |
| Registry.FilterKeepsWellFormed | App.tsx:71 | filtering preserves the invariant |
| Registry.FocusKeepsWellFormed | App.tsx:75-81 | `focusWindow` keeps unique ids and one window per app |
| Registry.CloseKeepsWellFormed | App.tsx:70-73 | `closeWindow` preserves the invariant |
| Registry.NotifyThenExpire | App.tsx:26-33 | a fresh notification that is added and then expires leaves the older entries that fit beside it |
| Registry.OpenTwoAppsScenario | App.tsx:51-66 | two apps opened on an empty desktop sit at zIndex 10 and 11 and at (100,100) and (140,140), and the second is active |
| Registry.FocusFirstOfTwo | App.tsx:75-81 | focusing the first of two windows raises it to one above max(their zIndex, 10) and leaves the second as it was |
| Registry.CloseSecondOfTwo | App.tsx:70-71 | closing the second of two windows with distinct ids leaves exactly the first |
| Registry.NewWindowCanOpenBeneath | App.tsx:58 | open a and b, focus a, close b, open c: the active window c is at zIndex 11, below a at 12 |
| Registry.Desktop.constructor | App.tsx:15-18 | empty registry, no active window, menu closed, no notifications |
| Registry.Desktop.OpenApp | App.tsx:36-68 | the new state is `Open` of the old; the invariant and the notifications are kept |
| Registry.Desktop.CloseWindow | App.tsx:70-73 | the new state is `Close` of the old; the invariant is kept |
| Registry.Desktop.FocusWindow | App.tsx:75-81 | the new state is `Focus` of the old; the invariant is kept |
| Registry.Desktop.MinimizeWindow | App.tsx:83-86 | the new state is `Minimize` of the old; the invariant is kept |
| Registry.Desktop.ToggleMaximizeWindow | App.tsx:88-90 | the new state is `ToggleMaximize` of the old; the invariant is kept |
| Registry.Desktop.UpdatePosition | App.tsx:129 | the new state is `Move` of the old; the invariant is kept |
| Registry.Desktop.UpdateSize | App.tsx:130 | the new state is `Resize` of the old; the invariant is kept |
| Registry.Desktop.ToggleStartMenu | App.tsx:148 | the start menu flag flips and nothing else changes |
| Registry.Desktop.CloseStartMenu | App.tsx:138 | the start menu closes and nothing else changes |
| Registry.Desktop.AddNotification | App.tsx:26-28 | the notifications become `Notify` of the old ones; the windows are untouched |
| Registry.Desktop.ExpireNotification | App.tsx:31-33 | the notifications become `Expire` of the old ones; the windows are untouched |
| WindowManager.Renders | components/WindowManager.tsx:113 | a window is drawn exactly when it is not minimized |
| WindowManager.IsActive | components/WindowManager.tsx:40 | `isActive={activeWindowId === win.id}`: a window is drawn active exactly when the active id is present and equals its id |
| WindowManager.AtMostOneActive | components/WindowManager.tsx:40 | with unique window ids, no two windows of the list are drawn active at once |
| WindowManager.HasResizeHandle | components/WindowManager.tsx:171-172 | the resize handle is drawn exactly for a window that is neither minimized nor maximized, so only for a drawn window |
| WindowManager.MinimizeThenFocusShows | App.tsx:75-86 | a minimized window is not drawn, and focusing it draws it again |
| WindowManager.GrabOffset | components/WindowManager.tsx:106-109 | the offset plus the window's corner is the pointer |
| WindowManager.DragTarget | components/WindowManager.tsx:83 | the requested position plus the offset is the pointer |
| WindowManager.DragFollowsPointer | components/WindowManager.tsx:83 | a drag moves the window by exactly the pointer's displacement, and a pointer back at its start leaves it in place |
| WindowManager.ResizeTo | components/WindowManager.tsx:181-185 | width = max(400, startWidth + dx) and height = max(300, startHeight + dy): never below 400 × 300, and equal to the floor or to the start size plus the displacement |
| WindowManager.BeginResize | components/WindowManager.tsx:176-179 | the snapshot on mousedown keeps the window's id, the press point and the width and height at that moment |
| WindowManager.AddMoveListener | components/WindowManager.tsx:189-194 | `addEventListener` attaches the resize session exactly when it is called on the browser window; on a WindowState record it throws and nothing is attached |
| WindowManager.ResizeListenerAsWritten | components/WindowManager.tsx:189-194 | as written, the handler calls `addEventListener` on the shadowing `window` prop, and no listener is ever attached |
| WindowManager.ResizeListener | components/WindowManager.tsx:174-194 | with the listener on the browser window, pressing the handle attaches a resize for this window, and a move that has not left the press point keeps its size, raised to the 400 × 300 floor |
| WindowManager.ResizeAsWrittenNeverAttaches | components/WindowManager.tsx:189-194 | as written, pressing the resize handle attaches no listener; the corrected handler attaches one with the start snapshot |
| WindowManager.DragScenario | components/WindowManager.tsx:83 | a window at (100,100) grabbed at (150,150) and dragged to (200,180) lands at (150,130) |
| WindowManager.ResizeScenario | components/WindowManager.tsx:183-184 | 800 × 600 resized by (+50, −700) gives 850 × 300 |
| WindowManager.WindowView.constructor | components/WindowManager.tsx:74-75 | not dragging, offset (0,0), no resize listener |
| WindowManager.WindowView.MouseDown | components/WindowManager.tsx:102-111 | the window is focused first in every case and is then drawn as the active one; a titlebar press starts a drag with the grab offset; the resize listener is untouched |
| WindowManager.WindowView.ResizeHandleDown | components/WindowManager.tsx:171-195 | only a visible, non-maximized window has the handle; pressing it captures the start snapshot, and the press bubbles up to focus the window, which is then drawn as the active one |
| WindowManager.WindowView.MouseMove | components/WindowManager.tsx:81-85 | the registry is moved to pointer minus offset only while dragging and not maximized, then resized from the snapshot when a listener is attached; nothing else changes |
| WindowManager.WindowView.MouseUp | components/WindowManager.tsx:87-89 | the drag and the resize both end |
| WindowManager.ResizeIsFromSnapshot | components/WindowManager.tsx:176-184 | two moves to the same pointer during one resize give the size computed from the snapshot, not a cumulative one |
| Taskbar.PinnedAreListed | components/Taskbar.tsx:38-39 | every pinned app has a catalog entry, so the `find(...)!` cannot fail |
| Taskbar.PinnedWindow | components/Taskbar.tsx:40 | a pinned button has a window exactly when its app has one, and that window is the first window of the app in the registry, as `find` returns |
| Taskbar.PinnedHighlightedIff | components/Taskbar.tsx:41 | under the registry invariant, a pinned button is highlighted exactly when a window of its app is the active one; with no window it never is, even when nothing is active |
| Taskbar.PinnedHighlighted | components/Taskbar.tsx:40-41 | a highlighted pinned button always stands for a window of its app that is the active one |
| Taskbar.PinnedClick | components/Taskbar.tsx:46 | a pinned click opens the app exactly when it has no window; otherwise it focuses the app's first window |
| Taskbar.UnpinnedWindows | components/Taskbar.tsx:65 | the strip after the separator lists, in order and with their multiplicity, exactly the windows of apps that are not pinned |
| Taskbar.IsUnpinned | components/Taskbar.tsx:65 | a window is listed after the separator exactly when its app id is none of the four pinned ones |
| Taskbar.WindowClick | components/Taskbar.tsx:72 | a button after the separator focuses its own window |
| Taskbar.ApplyClick | App.tsx:149-150 | a window button activates that id; a launch of an unknown app changes nothing; a launch of a catalog app leaves some window active and the start menu closed |
| Taskbar.EveryWindowHasAButton | components/Taskbar.tsx:38-72 | under the invariant, each window of a pinned app is its pinned button's window, and every other window is in the unpinned strip |
| Taskbar.PinnedClickFocuses | components/Taskbar.tsx:46 | a pinned click on an app with a window leaves that window visible and active, so the button is highlighted |
| Taskbar.PinnedClickOpens | components/Taskbar.tsx:46 | a pinned click on a known app without a window creates one, which is visible and active |
| Taskbar.PinnedClickActivates | components/Taskbar.tsx:41-46 | after any pinned click, the app has a visible active window and its button is highlighted |
| Taskbar.WindowClickBringsForward | components/Taskbar.tsx:72 | clicking a window's button makes it active, visible, and above every window with another id |
| StartMenu.FilterApps | components/StartMenu.tsx:16-18 | the result is a subsequence of the apps; an app is included, with its multiplicity, exactly when its lowered name contains the lowered search |
| StartMenu.NameMatches | components/StartMenu.tsx:17 | an app matches exactly when its lowered name includes the lowered search; every app matches the empty search |
| StartMenu.FilteredApps | components/StartMenu.tsx:16-18 | the grid lists, in catalog order, exactly the catalog entries whose lowered name contains the lowered search |
| StartMenu.EmptySearchListsAll | components/StartMenu.tsx:16-17 | the empty search lists every app in order |
| StartMenu.SearchIgnoresCase | components/StartMenu.tsx:17 | searches that differ only in letter case give the same list |
| StartMenu.SearchScenario | components/StartMenu.tsx:16-18 | searching "TERM" finds NemeTerm |
| NemeDocs.SplitWhere | components/apps/NemeDocs.tsx:56 | `split` gives one more piece than there are separators, no piece holds a separator, and the first piece is empty exactly when the text is empty or starts with a separator |
| NemeDocs.JoinLinesOfLines | components/apps/NemeDocs.tsx:56 | joining the lines with newlines gives back the content |
| NemeDocs.Lines | components/apps/NemeDocs.tsx:56 | `split('\n')` gives one more line than there are newlines, and no line holds a newline |
| NemeDocs.Classify | components/apps/NemeDocs.tsx:57-60 | heading, then list item, then quote, then paragraph, each decided by its prefix in that order; a block's text is the line minus its 2-character prefix, or the whole line for a paragraph |
| NemeDocs.SourceOfClassify | components/apps/NemeDocs.tsx:57-60 | prefix plus text rebuilds the line, so classification loses nothing |
| NemeDocs.Preview | components/apps/NemeDocs.tsx:56-61 | one block per line, (number of newlines)+1 of them, each the classification of its line |
| NemeDocs.PreviewRoundTrip | components/apps/NemeDocs.tsx:56-61 | the preview's blocks, turned back into lines and joined, are the content |
| NemeDocs.Words | components/apps/NemeDocs.tsx:70 | every word is non-empty and holds no whitespace |
| NemeDocs.WordCountIsRunCount | components/apps/NemeDocs.tsx:70 | the word count is the number of maximal non-whitespace runs |
| NemeDocs.BlankHasNoWords | components/apps/NemeDocs.tsx:70 | all-whitespace content has 0 words |
| NemeDocs.BlankHasNoRuns | components/apps/NemeDocs.tsx:70 | all-whitespace text has no non-whitespace run |
| NemeDocs.Footer | components/apps/NemeDocs.tsx:70-71 | WORDS is the number of non-whitespace runs and CHARS is the content's length |
| NemeDocs.FooterScenario | components/apps/NemeDocs.tsx:70 | "# Hi\n\n- yo" counts 4 words; the blank line adds none |
| NemeDocs.DocsEditor.constructor | components/apps/NemeDocs.tsx:6-7 | the editor starts in edit mode holding the initial text; the initial text is a parameter here, where the component always starts from its fixed mission document |
| NemeDocs.DocsEditor.Shown | components/apps/NemeDocs.tsx:45-64 | the preview is shown exactly in preview mode, otherwise the textarea |
| NemeDocs.DocsEditor.Edit | components/apps/NemeDocs.tsx:48 | editing replaces the content and keeps the mode |
| NemeDocs.DocsEditor.TogglePreview | components/apps/NemeDocs.tsx:22 | the mode flips and the content stays |
| NemeDocs.ToggleTwiceRestores | components/apps/NemeDocs.tsx:22 | toggling twice restores the editor |
| NemeTerm.Normalize | components/apps/NemeTerm.tsx:23 | the command is empty exactly when the input is all whitespace |
| NemeTerm.NormalizeIgnoresPadding | components/apps/NemeTerm.tsx:23 | surrounding whitespace does not change the command |
| NemeTerm.NormalizeIgnoresCase | components/apps/NemeTerm.tsx:23 | inputs that differ only in letter case give the same command |
| NemeTerm.Respond | components/apps/NemeTerm.tsx:26-48 | only `clear` clears; help answers 7 lines, ls 5, ping 3, whoami 2 and any other command 1; `date` answers the clock's text; an unknown command answers "Command not found: " + the command |
| NemeTerm.EchoThenLines | components/apps/NemeTerm.tsx:24-51 | a history with the echo and the reply appended splits back into the old history, the echo and the reply |
| NemeTerm.Submit | components/apps/NemeTerm.tsx:19-52 | blank input changes nothing; `clear` empties the history without an echo; any other command appends "> " + raw input and then the reply's lines; the input is emptied after every handled command |
| NemeTerm.LsNormalizes | components/apps/NemeTerm.tsx:21-23 | " LS" trims to "LS" and stands for the command `ls` |
| NemeTerm.LsIsTrimmed | components/apps/NemeTerm.tsx:21-23 | "LS" has nothing to trim at either end |
| NemeTerm.LsTrimsStart | components/apps/NemeTerm.tsx:21-23 | trimming the start of " LS" drops its one leading space |
| NemeTerm.LsScenario | components/apps/NemeTerm.tsx:23-38 | " LS" is echoed raw and answered with the five directory lines |
| NemeTerm.BlankInputIgnored | components/apps/NemeTerm.tsx:21 | blank input never reaches the history |
| NemeTerm.Terminal.constructor | components/apps/NemeTerm.tsx:5-12 | the five banner lines and empty input |
| NemeTerm.Terminal.SetInput | components/apps/NemeTerm.tsx:69 | the input is replaced and the history kept |
| NemeTerm.Terminal.HandleCommand | components/apps/NemeTerm.tsx:19-52 | the new history and input are `Submit` of the old ones |
| NemeCalc.Press | components/apps/NemeCalc.tsx:8-11 | a display of "0" is replaced by the key (so "." gives "."); any other display is extended by it; the equation stays |
| NemeCalc.Operator | components/apps/NemeCalc.tsx:13-16 | the equation becomes display + " " + op + " " and the display resets to "0" |
| NemeCalc.OperatorForgetsEquation | components/apps/NemeCalc.tsx:14 | an operator's result does not depend on the previous equation |
| NemeCalc.Calculate | components/apps/NemeCalc.tsx:18-27 | a throwing evaluation sets the display to "Error" and keeps the equation; otherwise the equation gets display + " =" appended and the display shows the result's text, or "Error" for a nullish result |
| NemeCalc.StripZeros | components/apps/NemeCalc.tsx:9 | the result is the keys with their leading zeros removed: a suffix not starting with '0', everything dropped being '0' |
| NemeCalc.TypeKeysAppends | components/apps/NemeCalc.tsx:10 | on a display other than "0" and "", typed keys are appended |
| NemeCalc.TypeKeysFromZero | components/apps/NemeCalc.tsx:8-11 | keys typed on "0" show without their leading zeros, or as "0" when all are zeros |
| NemeCalc.AdditionScenario | components/apps/NemeCalc.tsx:8-27 | "12", "+", "3", "=" with result "15" show "12 + 3 =" over "15" |
| NemeCalc.Calculator.constructor | components/apps/NemeCalc.tsx:5-6 | display "0", empty equation |
| NemeCalc.Calculator.HandleButton | components/apps/NemeCalc.tsx:8-11 | the readout becomes `Press` of the old one |
| NemeCalc.Calculator.HandleOperator | components/apps/NemeCalc.tsx:13-16 | the readout becomes `Operator` of the old one |
| NemeCalc.Calculator.HandleEquals | components/apps/NemeCalc.tsx:18-27 | the readout becomes `Calculate` of the old one |
| NemeCalc.Calculator.Clear | components/apps/NemeCalc.tsx:29-32 | back to display "0" and an empty equation from any state, so clearing is idempotent |

## Left out

- Rendering is not modelled: styles, icons, tooltips, `renderContent`, the maximized CSS geometry, the notification toasts (`components/NotificationCenter.tsx`), the login screen, the boot timer, the desktop clock and widgets. None of them changes the modelled state.
- `components/apps/FileNexus.tsx` is not part of this model. It wraps Google OAuth, the Drive API and `localStorage`.
- Random ids (`Math.random`) and `Date.now()` / `new Date().toString()` are parameters.
- The timed notification removal is a separate `ExpireNotification` call.
- DOM listeners become explicit calls. `document` mousemove/mouseup listeners exist only while dragging; `WindowView.MouseMove` tests `isDragging` instead. The React effect's re-registration on each state change is not modelled.
- React's batching and stale closures are not modelled. Each handler runs on the current state, as the handlers behave when events arrive one per render.
- The calculator's `eval` and number formatting are not modelled. The outcome is an `Evaluation` parameter: it throws, or it returns a text or a nullish value.
- JavaScript numbers are modelled as integers (`int`): window positions, sizes and zIndex, and the pointer's `clientX`/`clientY`. A fractional pointer coordinate, and the fractional positions and sizes it produces at components/WindowManager.tsx:83 and 183-184, are not modelled. Every formula involved is linear, so the stated relations have the same form over fractions.
- Unicode is not modelled. `toLowerCase` lowers ASCII letters only, and whitespace is ASCII space and tab through carriage return.
- `split(/\s+/)` is modelled as a split at every whitespace character followed by the non-empty filter. This adds only empty pieces, which the filter removes, so the word count is the same.
- NemeDocs toolbar buttons other than the preview toggle, and the terminal's auto-scroll, have no effect on state and are left out.
- Registry.Desktop.OpenApp: requires the caller's fresh id to be unused. A collision between random ids is not modelled.
- Registry.Desktop.OpenApp and the other `Desktop` and `WindowView` methods require the registry invariant, which every method keeps from the empty desktop on.
- WindowManager.WindowView.ResizeHandleDown: uses the corrected listener host (see Findings). As written, the source attaches no listener.

## Findings

| source | as written | input that shows it | evidently intended | confidence | as-written member | corrected member |
|---|---|---|---|---|---|---|
| components/WindowManager.tsx:189-194 | The component destructures its prop as `window` (line 65), shadowing the browser global. `window.addEventListener` is therefore looked up on the `WindowState` record, where it is undefined, and the call throws a TypeError. | A mousedown on the resize handle of any visible, non-maximized window. | The move and up listeners go on the browser window, so that later pointer moves resize the window from the start snapshot. | high; not executed | WindowManager.ResizeAsWrittenNeverAttaches | WindowManager.ResizeListener |

