/**
 * An abstract model of the native window system the desktop resolver
 * queries. Every window is a nonzero handle with a registered class name
 * and an ordered list of child windows; the top-level windows are listed
 * in z-order, and there is one distinguished root (desktop) window.
 *
 * Only the queries the resolver uses are modelled: FindWindowEx with a
 * zero "child after" argument and no caption, GetClassName and
 * GetDesktopWindow.
 */
module WindowSystem {

  /** A window handle that names a window; the handle 0 means "no window". */
  type Hwnd = h: nat | h != 0 witness 1

  datatype Window = Window(className: string, children: seq<Hwnd>)

  datatype Desktop = Desktop(windows: map<Hwnd, Window>, topLevel: seq<Hwnd>, root: nat)

  /** GetClassName: a handle that names no window (a destroyed one) has the empty class name. */
  function GetClassName(d: Desktop, h: Hwnd): string
  {
    ClassOf(d.windows, h)
  }

  /**
   * The class lookup on the window map alone. GetClassName is this lookup
   * on a whole desktop; the searches below take only the map, so that their
   * recursion over a list of handles carries no more than it reads.
   */
  function ClassOf(windows: map<Hwnd, Window>, h: Hwnd): string
  {
    if h in windows then windows[h].className else ""
  }

  /** The windows FindWindowEx searches below `parent`: the top-level windows when `parent` is 0. */
  function Children(d: Desktop, parent: nat): seq<Hwnd>
  {
    if parent == 0 then d.topLevel
    else if parent in d.windows then d.windows[parent].children
    else []
  }

  /** GetDesktopWindow. */
  function GetDesktopWindow(d: Desktop): nat
  {
    d.root
  }

  /**
   * The index of the first window in `s` whose class is `className`, or
   * |s| when there is none.
   */
  function FirstOfClass(windows: map<Hwnd, Window>, s: seq<Hwnd>, className: string): (i: nat)
    ensures i <= |s|
    ensures i < |s| ==> ClassOf(windows, s[i]) == className
    ensures forall j :: 0 <= j < i ==> ClassOf(windows, s[j]) != className
  {
    if s == [] then 0
    else if ClassOf(windows, s[0]) == className then 0
    else 1 + FirstOfClass(windows, s[1..], className)
  }

  /**
   * FindWindowEx(parent, 0, className, null): the first child of `parent`
   * (first top-level window when `parent` is 0) whose class is
   * `className`, or 0 when there is none.
   */
  function FindWindowEx(d: Desktop, parent: nat, className: string): (r: nat)
    ensures r != 0 ==> r in Children(d, parent) && GetClassName(d, r) == className
    ensures r == 0 ==> forall j :: 0 <= j < |Children(d, parent)| ==> GetClassName(d, Children(d, parent)[j]) != className
  {
    var c := Children(d, parent);
    var i := FirstOfClass(d.windows, c, className);
    if i < |c| then c[i] else 0
  }

  /** FindWindowEx finds the first match: every child before the one it returns has another class. */
  lemma FindWindowExFindsFirst(d: Desktop, parent: nat, className: string)
    requires FindWindowEx(d, parent, className) != 0
    ensures exists i :: 0 <= i < |Children(d, parent)| && Children(d, parent)[i] == FindWindowEx(d, parent, className) &&
                        forall j :: 0 <= j < i ==> GetClassName(d, Children(d, parent)[j]) != className
  {
    var c := Children(d, parent);
    var i := FirstOfClass(d.windows, c, className);
    assert c[i] == FindWindowEx(d, parent, className);
  }
}
