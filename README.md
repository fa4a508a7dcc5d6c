# Capture-target resolution and clipping renormalisation (SCFF DirectShow Filter)

This project is a verified Dafny model of two small parts of the SCFF
DirectShow Filter configuration GUI:

- **Finding the desktop's icon window.** The `DesktopListViewWindow`
  property in `SCFF.Common/Utilities.cs` picks the window handle to capture
  in "desktop list view" mode. The desktop window hierarchy differs between
  Windows versions and composition modes, so it tries these shapes in order:
  1. `Progman > SHELLDLL_DefView > SysListView32`, or the
     `Internet Exproler_Server` child of that DefView (the class name is
     spelled this way in the code);
  2. a top-level `EdgeUiInputWndClass`;
  3. a walk over the top-level windows in z-order. The walk stops at the
     first `WorkerW` that has a `SHELLDLL_DefView` child, and then looks for
     a `SysListView32` under that DefView;
  4. otherwise, the root desktop window.

  The same file has `DesktopToScreen`, which translates a point by the
  virtual screen's origin.
- **Renormalising the clipping region on a target change.** `UpdateProfile`
  in `SCFF.GUI/Controls/TargetWindow.xaml.cs` does this in order:
  1. sets the new target on the profile's current layout element;
  2. turns `Fit` on;
  3. moves the manual clipping origin to (0, 0);
  4. clamps the manual clipping width and height to the new window's size.

  The three user actions that call it (drag-and-drop on a window, the
  Desktop button, the list-view button) are modelled too.

Files:

- `WindowSystem.dfy` (module `WindowSystem`) models the native window
  system as a value:
  - a map from nonzero handle to (class name, ordered children);
  - the top-level windows in z-order;
  - the root window.

  It also defines the queries the resolver makes. `FindWindowEx(d, parent,
  cls)` returns the first child of `parent` with class `cls`, or 0; with
  `parent` 0 it searches the top-level windows.
- `Utilities.dfy` (module `Common`) holds `DesktopToScreen` with C#'s
  unchecked 32-bit `int` addition, and the resolver in two forms:
  - `Resolve`, a pure decision tree that says which shape matched, with
    lemmas for each priority rule;
  - class `Utilities`, which keeps the source's static field
    `enumerateWindowResult`, the `EnumerateWindow` callback, the
    early-exiting `EnumWindows` loop and the `DesktopListViewWindow` getter.
    The getter is proved to return `Resolve`'s handle.
- `Profile.dfy` (module `Profile`) holds the layout element as a class with
  the fields `UpdateProfile` touches. The three target setters are modelled
  abstractly, and the profile's two views of the current element are here
  too.
- `TargetWindow.dfy` (module `TargetWindow`) holds `UpdatedProfile`, the
  specification of one update on a layout snapshot, with its lemmas. It
  also holds class `TargetWindow`, whose `UpdateProfile` makes the update
  field by field and is proved to match `UpdatedProfile`.

Modelling assumptions:

- **One element behind two views.** `App.Profile.CurrentInputLayoutElement`
  and `App.Profile.CurrentOutputLayoutElement` are taken to be two views of
  the same layout element. `UpdateProfile` writes through the output view
  and reads the window size back through the input view. The profile class
  is not part of this model, so `Profile.Profile` makes this assumption
  explicit: both accessors return its one `currentLayoutElement`.
- **The setters.** `SetWindow`, `SetWindowToDesktopListView` and
  `SetWindowToDesktop` are not part of this model. Each one records its
  kind of target (and the handle, for `SetWindow`) and stores a
  non-negative window size that the caller passes in. That size stands for
  what the real setter would query from the window system. The setters are
  assumed to change neither `Fit` nor any clipping field; the clamp that
  follows them reads the old clipping extents, so its result depends on
  this.
- **The window system as a value.** The window tree is passed in as a
  parameter, not queried. A handle that names no window has the empty class
  name and no children, which is what `GetClassName` and `FindWindowEx`
  give for a destroyed window. `WindowSystem.GetClassName` (the
  `ExternalAPI.GetClassName` call at `SCFF.Common/Utilities.cs:97`) and
  `WindowSystem.GetDesktopWindow` (the call at line 84) are plain lookups
  in that value, the class name of a handle and the root handle, and so
  carry no contract of their own.
- **Two behaviours of the code worth noting.**
  - The resolver tries `EdgeUiInputWndClass` whenever the Progman branch
    yields nothing: when there is no Progman, when Progman has no
    `SHELLDLL_DefView`, and when that DefView has neither a `SysListView32`
    nor an `Internet Exproler_Server` child.
  - The clamp can give 0 (for a zero-sized window), or keep a negative
    value that was already there; nothing bounds it below.

## Model

| member | source | states |
|---|---|---|
| WindowSystem.FindWindowEx | SCFF.Common/Utilities.cs:53-58 | The result is 0 exactly when no child of the parent (top-level window for parent 0) has the class. Otherwise the result is one of the parent's children and has that class. |
| WindowSystem.FindWindowExFindsFirst | SCFF.Common/Utilities.cs:53-58 | A nonzero result is the first matching child in order: every child before it has another class. |
| WindowSystem.FirstOfClass | SCFF.Common/Utilities.cs:53-58 | The index is at most the number of windows. Below that, the window at the index has the class and no earlier window does. |
| Common.Wrap32 | SCFF.Common/Utilities.cs:33-34 | The result differs from its argument by a multiple of 2^32, and equals the argument whenever that fits in 32 bits, as C#'s unchecked `int` arithmetic gives. |
| Common.Difference | SCFF.Common/Utilities.cs:33-34 | The 32-bit difference of two ints: congruent to their exact difference modulo 2^32, and equal to it when that fits in 32 bits. |
| Common.DesktopToScreen | SCFF.Common/Utilities.cs:30-35 | Each screen coordinate is the desktop coordinate plus the virtual-screen origin whenever the sum fits in 32 bits. In every case it is congruent to that sum modulo 2^32, which with the `Int32` result type fixes it as C#'s unchecked `int` addition. |
| Common.DesktopToScreenPreservesDifferences | SCFF.Common/Utilities.cs:33-34 | The transform is a translation. The 32-bit difference of two points' x (and y) coordinates is the same before and after the transform, for every origin, including when a sum wraps. |
| Common.QualifyingWorker | SCFF.Common/Utilities.cs:99-103 | A top-level window qualifies exactly when its class is `WorkerW` and some child of it has class `SHELLDLL_DefView`. |
| Common.FirstQualifying | SCFF.Common/Utilities.cs:99-106 | The index is at most the number of windows. Below that, the window at the index qualifies and no earlier window does. |
| Common.FirstWorkerIndex | SCFF.Common/Utilities.cs:99-106 | The walk's stopping index in z-order: the first qualifying top-level window, with none qualifying before it, or the number of top-level windows when none qualifies. |
| Common.WorkerDefView | SCFF.Common/Utilities.cs:95-107 | The enumeration records a nonzero window exactly when some top-level window is a `WorkerW` with a `SHELLDLL_DefView` child. What it records is the `SHELLDLL_DefView` child that `FindWindowEx` gives for the first such `WorkerW` in z-order; no earlier window qualifies. |
| Common.ProgmanDefView | SCFF.Common/Utilities.cs:53-57 | A nonzero result means a top-level Progman exists, and the result is that Progman's `SHELLDLL_DefView` child. When Progman exists, the result is exactly what `FindWindowEx` finds under it. |
| Common.Resolve | SCFF.Common/Utilities.cs:51-86 | Each outcome of the decision tree names a window of its own class: `SysListView32` for the classic and composited shapes, `Internet Exproler_Server` for the active desktop, `EdgeUiInputWndClass` for the start screen. The fallback outcome is the `GetDesktopWindow` handle. |
| Common.DesktopListView | SCFF.Common/Utilities.cs:59-84 | The resolved handle is nonzero whenever the root handle is nonzero. It is either the root, or a nonzero `SysListView32`, `Internet Exproler_Server` or `EdgeUiInputWndClass` window. |
| Common.ProgmanListViewWins | SCFF.Common/Utilities.cs:53-62 | If Progman has a DefView and that DefView has a `SysListView32` child, the result is that child. No later rule is consulted. |
| Common.ProgmanServerSecond | SCFF.Common/Utilities.cs:58-67 | If Progman's DefView has no `SysListView32` child but has an `Internet Exproler_Server` child, the result is that child. |
| Common.ProgmanBranchYieldsExactlyWhen | SCFF.Common/Utilities.cs:54-69 | The Progman branch gives the result if and only if all of these exist: Progman, its DefView, and one of the DefView's two children. |
| Common.EdgeAfterProgman | SCFF.Common/Utilities.cs:54-74 | Whenever the Progman branch yields nothing, for any reason, a top-level `EdgeUiInputWndClass` window is the result when one exists. |
| Common.WorkerRule | SCFF.Common/Utilities.cs:75-84 | Without a Progman result and without an `EdgeUiInputWndClass`, the result comes from the first qualifying `WorkerW`'s DefView. It is that DefView's `SysListView32` child if there is one. Otherwise the result is the root window, and no second `WorkerW` is tried. |
| Common.WorkerDefViewIgnoresLaterWindows | SCFF.Common/Utilities.cs:99-106 | The walk stops at the first qualifying `WorkerW`. Adding any windows after it in z-order, qualifying or not, leaves the recorded DefView unchanged. |
| Common.SecondWorkerNeverTried | SCFF.Common/Utilities.cs:77-84 | A concrete desktop has two qualifying `WorkerW` windows. The first one's DefView is empty and the second one's holds a `SysListView32`. The result on it is the root window. |
| Common.ClassicDesktopWins | SCFF.Common/Utilities.cs:53-62 | A concrete desktop has a full Progman hierarchy, an `EdgeUiInputWndClass` and a composited `WorkerW`. The Progman `SysListView32` is what gets resolved, even though the other two come earlier in z-order. |
| Common.EmptyProgmanFallsThrough | SCFF.Common/Utilities.cs:54-73 | On a concrete desktop, Progman's DefView has no children. The resolver falls through to the `EdgeUiInputWndClass` window. |
| Common.Utilities.constructor | SCFF.Common/Utilities.cs:93 | The static initialiser: the result field starts at the zero handle. |
| Common.Utilities.EnumerateWindow | SCFF.Common/Utilities.cs:95-107 | The callback returns false exactly for a `WorkerW` with a `SHELLDLL_DefView` child, and then stores that DefView in the result field. For every other window it returns true and leaves the field as it was. |
| Common.Utilities.EnumWindows | SCFF.Common/Utilities.cs:76 | The callback sees exactly the windows up to and including the first qualifying `WorkerW`, or all windows when none qualifies. The field ends up holding that WorkerW's DefView, or is left as it was when nothing qualifies. |
| Common.Utilities.DesktopListViewWindow | SCFF.Common/Utilities.cs:51-86 | The getter returns `DesktopListView(d)`. Because the field is reset at line 75, the result does not depend on the field's previous value. The field ends holding the walk's DefView when the walk ran, and is untouched otherwise. |
| Profile.Retargeted | SCFF.GUI/Controls/TargetWindow.xaml.cs:156-164 | A setter changes only the target and the window size. Every clipping field and `Fit` are left as they were. |
| Profile.LayoutElement.SetWindow | SCFF.GUI/Controls/TargetWindow.xaml.cs:156 | The element now targets the given window handle with the supplied size, and nothing else changes. |
| Profile.LayoutElement.SetWindowToDesktopListView | SCFF.GUI/Controls/TargetWindow.xaml.cs:160 | The element now targets the desktop list view with the supplied size, and nothing else changes. |
| Profile.LayoutElement.SetWindowToDesktop | SCFF.GUI/Controls/TargetWindow.xaml.cs:164 | The element now targets the whole desktop with the supplied size, and nothing else changes. |
| Profile.Profile.CurrentInputLayoutElement | SCFF.GUI/Controls/TargetWindow.xaml.cs:156-184 | Both accessors return the profile's one current layout element: the input view returns the very element the output view returns, so what `UpdateProfile` writes through one it reads back through the other. |
| TargetWindow.Min | SCFF.GUI/Controls/TargetWindow.xaml.cs:179-184 | `Math.Min`: the result is at most each argument and equals one of them. |
| TargetWindow.TargetFor | SCFF.GUI/Controls/TargetWindow.xaml.cs:154-166 | Each valid window type selects exactly its own kind of target: `Normal` a window, `DesktopListView` the list view, `Desktop` the desktop. The handle is carried only for `Normal`. |
| TargetWindow.Renormalized | SCFF.GUI/Controls/TargetWindow.xaml.cs:172-184 | After renormalising, `Fit` is on and the origin is (0, 0). Each manual extent is at most the window's extent and at most its old value, and equals one of the two. Target and window size are unchanged. |
| TargetWindow.UpdatedProfile | SCFF.GUI/Controls/TargetWindow.xaml.cs:152-184 | An undefined type leaves the state as it was. A valid type gives its own target, the new window size, `Fit` on, origin (0, 0), and extents no larger than the new window. |
| TargetWindow.UpdateProfileRenormalizes | SCFF.GUI/Controls/TargetWindow.xaml.cs:172-184 | After a valid update the new target and window size are in place, `Fit` is on and the origin is (0, 0). Each manual extent is at most the new window's extent and at most its old value. It keeps the old value when that already fits and becomes the window's extent otherwise. |
| TargetWindow.UpdateProfileClipsInsideWindow | SCFF.GUI/Controls/TargetWindow.xaml.cs:176-184 | If the old extents were non-negative, the manual rectangle after a valid update lies inside the new window: origin + extent ≤ window size on both axes. |
| TargetWindow.UpdateProfileUsesNewWindowSize | SCFF.GUI/Controls/TargetWindow.xaml.cs:155-184 | The clamp uses the size the setter has just stored. A 400×300 clip on a window of 800×600, moved to a new 300×700 window, becomes 300×300 at (0, 0) with `Fit` on. |
| TargetWindow.UpdateProfileIdempotent | SCFF.GUI/Controls/TargetWindow.xaml.cs:172-184 | Repeating an update with the same type, handle and window size leaves the same state as doing it once. |
| TargetWindow.UpdateProfileHandleOnlyForNormal | SCFF.GUI/Controls/TargetWindow.xaml.cs:154-166 | For every type other than `Normal`, the handle argument has no effect on the result. |
| TargetWindow.UpdateProfileUndefinedUnchanged | SCFF.GUI/Controls/TargetWindow.xaml.cs:167-170 | An undefined window type returns before any field is written. The state is unchanged. |
| TargetWindow.TargetWindow.UpdateProfile | SCFF.GUI/Controls/TargetWindow.xaml.cs:152-188 | It writes through the output view and reads through the input view of the same element. The element's new state is `UpdatedProfile` of its old state, the type, the handle and the window size. |
| TargetWindow.TargetWindow.DragHerePreviewMouseUp | SCFF.GUI/Controls/TargetWindow.xaml.cs:198-202 | Dropping the handle updates the profile with type `Normal` and the window under the pointer. |
| TargetWindow.TargetWindow.DesktopClick | SCFF.GUI/Controls/TargetWindow.xaml.cs:205-208 | The Desktop button updates the profile with type `Desktop` and a zero handle. |
| TargetWindow.TargetWindow.ListViewClick | SCFF.GUI/Controls/TargetWindow.xaml.cs:210-213 | The list-view button updates the profile with type `DesktopListView` and a zero handle. |

## Left out

- WindowSystem.FindWindowEx: class names are compared exactly, while Win32's `FindWindowEx` compares them ignoring case; the callback's own `!= "WorkerW"` test is exact in both.
- Win32 calls (`FindWindowEx`, `EnumWindows`, `GetClassName`, `GetDesktopWindow`, `GetSystemMetrics`): each is replaced by the abstract window tree or by a parameter; marshalling, `StringBuilder` buffers and the 256-character class-name limit are not modelled.
- The virtual-screen origin of `DesktopToScreen` is a parameter; the `GetSystemMetrics` query it stands for is an environment call.
- `WindowFromPoint` in the mouse-up handler is a foreign hit test: its result is a parameter of `DragHerePreviewMouseUp`.
- Drag-and-highlight machinery (`DragHere_PreviewMouseDown`/`Move`, the border-brush swap and `ClearTargetRect` in `DragHere_PreviewMouseUp`, `XorTargetRect`, device-context acquire and release, the dummy pen created in the constructor and deleted at shutdown): GDI painting and handle lifetime only.
- `UpdateByProfile` (a caption copy into a text box) and `Commands.ChangeTargetWindowCommand.Execute` (a WPF command notification sent at the end of `UpdateProfile`): UI glue with no state in this model.
- The `Debug.Fail` call on an undefined window type: a debug-build diagnostic; only the early return is modelled.
- The bodies of `SetWindow`, `SetWindowToDesktopListView` and `SetWindowToDesktop` are not part of this model: how they query captions and window sizes, the handle `SetWindowToDesktopListView` stores, and their behaviour on a closed window are not modelled.
- Concurrency: the code runs on the single UI thread; the window tree is a fixed value during one resolution, so windows appearing or disappearing during the walk are not modelled.
