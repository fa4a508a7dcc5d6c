/**
 * SCFF.Common's Utilities: the conversion from virtual-desktop to screen
 * coordinates and the resolver that finds the window drawing the desktop's
 * icons whatever shell hierarchy the system uses.
 *
 * The resolver is stated twice: as the pure decision tree `Resolve`, about
 * which the lemmas below speak, and as the imperative `Utilities` class,
 * which keeps the source's static result field, its enumeration callback
 * and its early-exiting walk over the top-level windows, and is proved to
 * compute `Resolve`.
 */
module Common {
  import opened WindowSystem

  // ---------------------------------------------------------------------
  // Coordinate transform (C# int arithmetic wraps around at 32 bits)
  // ---------------------------------------------------------------------

  const TWO_TO_THE_32: int := 0x1_0000_0000
  const TWO_TO_THE_31: int := 0x8000_0000

  newtype Int32 = x: int | -0x8000_0000 <= x < 0x8000_0000

  predicate InInt32Range(x: int)
  {
    -TWO_TO_THE_31 <= x < TWO_TO_THE_31
  }

  /** Unchecked 32-bit two's-complement arithmetic: `x` reduced modulo 2^32 into the Int32 range. */
  function Wrap32(x: int): (r: Int32)
    ensures (r as int - x) % TWO_TO_THE_32 == 0
    ensures InInt32Range(x) ==> r as int == x
  {
    ((x + TWO_TO_THE_31) % TWO_TO_THE_32 - TWO_TO_THE_31) as Int32
  }

  datatype Point = Point(x: Int32, y: Int32)

  /**
   * DesktopToScreen: a point in virtual-desktop space (origin at the top
   * left of the union of all monitors) moved into screen space (origin at
   * the primary monitor) by adding the virtual screen's origin, which the
   * caller queries afresh for every call.
   */
  function DesktopToScreen(desktop: Point, virtualScreenOrigin: Point): (screen: Point)
    ensures InInt32Range(desktop.x as int + virtualScreenOrigin.x as int) ==>
              screen.x as int == desktop.x as int + virtualScreenOrigin.x as int
    ensures InInt32Range(desktop.y as int + virtualScreenOrigin.y as int) ==>
              screen.y as int == desktop.y as int + virtualScreenOrigin.y as int
    ensures (screen.x as int - (desktop.x as int + virtualScreenOrigin.x as int)) % TWO_TO_THE_32 == 0
    ensures (screen.y as int - (desktop.y as int + virtualScreenOrigin.y as int)) % TWO_TO_THE_32 == 0
  {
    Point(Wrap32(desktop.x as int + virtualScreenOrigin.x as int),
          Wrap32(desktop.y as int + virtualScreenOrigin.y as int))
  }

  /** The 32-bit difference of two coordinates, as C# computes `a - b` on ints. */
  function Difference(a: Int32, b: Int32): (r: Int32)
    ensures (r as int - (a as int - b as int)) % TWO_TO_THE_32 == 0
    ensures InInt32Range(a as int - b as int) ==> r as int == a as int - b as int
  {
    Wrap32(a as int - b as int)
  }

  /** Adding the same 32-bit offset to two values, with wrap-around, keeps their 32-bit difference. */
  lemma WrappedSumDifference(a: Int32, b: Int32, o: Int32)
    ensures Difference(Wrap32(a as int + o as int), Wrap32(b as int + o as int)) == Difference(a, b)
  {
  }

  /**
   * The transform is a translation: the difference between two points is
   * the same in both coordinate systems (in 32-bit arithmetic, so also
   * when a sum wraps around).
   */
  lemma DesktopToScreenPreservesDifferences(p: Point, q: Point, virtualScreenOrigin: Point)
    ensures Difference(DesktopToScreen(p, virtualScreenOrigin).x, DesktopToScreen(q, virtualScreenOrigin).x) == Difference(p.x, q.x)
    ensures Difference(DesktopToScreen(p, virtualScreenOrigin).y, DesktopToScreen(q, virtualScreenOrigin).y) == Difference(p.y, q.y)
  {
    WrappedSumDifference(p.x, q.x, virtualScreenOrigin.x);
    WrappedSumDifference(p.y, q.y, virtualScreenOrigin.y);
  }

  // ---------------------------------------------------------------------
  // Desktop list-view resolution, as a pure decision tree
  // ---------------------------------------------------------------------

  const PROGMAN := "Progman"
  const SHELLDLL_DEF_VIEW := "SHELLDLL_DefView"
  const SYS_LIST_VIEW32 := "SysListView32"
  const INTERNET_EXPLORER_SERVER := "Internet Exproler_Server"  // the class name exactly as the resolver spells it
  const EDGE_UI_INPUT_WND_CLASS := "EdgeUiInputWndClass"
  const WORKER_W := "WorkerW"

  /** Which of the known desktop hierarchies the resolver recognised, and the window it picked. */
  datatype Resolution =
    | ClassicListView(handle: Hwnd)      // Progman > SHELLDLL_DefView > SysListView32
    | ActiveDesktop(handle: Hwnd)        // Progman > SHELLDLL_DefView > Internet Exproler_Server
    | StartScreen(handle: Hwnd)          // top-level EdgeUiInputWndClass
    | CompositedListView(handle: Hwnd)   // WorkerW > SHELLDLL_DefView > SysListView32
    | DesktopRoot(root: nat)             // GetDesktopWindow()
  {
    function Handle(): nat
    {
      match this
      case DesktopRoot(root) => root
      case _ => handle
    }
  }

  /** The DefView found under the top-level Progman window, or 0. */
  function ProgmanDefView(d: Desktop): (r: nat)
    ensures r != 0 ==> FindWindowEx(d, 0, PROGMAN) != 0
    ensures r != 0 ==> r in Children(d, FindWindowEx(d, 0, PROGMAN)) && GetClassName(d, r) == SHELLDLL_DEF_VIEW
    ensures FindWindowEx(d, 0, PROGMAN) != 0 ==> r == FindWindowEx(d, FindWindowEx(d, 0, PROGMAN), SHELLDLL_DEF_VIEW)
  {
    var progman := FindWindowEx(d, 0, PROGMAN);
    if progman == 0 then 0 else FindWindowEx(d, progman, SHELLDLL_DEF_VIEW)
  }

  /**
   * The callback's test: a top-level window qualifies exactly when its
   * class is "WorkerW" and it has a SHELLDLL_DefView child.
   */
  function QualifyingWorker(d: Desktop, h: Hwnd): (q: bool)
    ensures q <==> GetClassName(d, h) == WORKER_W &&
                   exists j :: 0 <= j < |Children(d, h)| && GetClassName(d, Children(d, h)[j]) == SHELLDLL_DEF_VIEW
  {
    GetClassName(d, h) == WORKER_W && FindWindowEx(d, h, SHELLDLL_DEF_VIEW) != 0
  }

  /** Index of the first qualifying WorkerW in `s` (|s| when there is none). */
  function FirstQualifying(d: Desktop, s: seq<Hwnd>): (i: nat)
    ensures i <= |s|
    ensures i < |s| ==> QualifyingWorker(d, s[i])
    ensures forall j :: 0 <= j < i ==> !QualifyingWorker(d, s[j])
  {
    if s == [] then 0
    else if QualifyingWorker(d, s[0]) then 0
    else 1 + FirstQualifying(d, s[1..])
  }

  /**
   * Index in z-order of the first qualifying WorkerW (|topLevel| when there
   * is none): where EnumWindows stops. FirstQualifying is the same search
   * over an arbitrary list, which its recursion on suffixes needs; this is
   * that search fixed to the desktop's own top-level list, the form the
   * resolver and the loop invariants are stated in.
   */
  function FirstWorkerIndex(d: Desktop): (i: nat)
    ensures i <= |d.topLevel|
    ensures i < |d.topLevel| ==> QualifyingWorker(d, d.topLevel[i])
    ensures forall j :: 0 <= j < i ==> !QualifyingWorker(d, d.topLevel[j])
  {
    FirstQualifying(d, d.topLevel)
  }

  /** The SHELLDLL_DefView of the first qualifying WorkerW, or 0: what the enumeration records. */
  function WorkerDefView(d: Desktop): (r: nat)
    ensures r != 0 <==> exists i :: 0 <= i < |d.topLevel| && QualifyingWorker(d, d.topLevel[i])
    ensures r != 0 ==> GetClassName(d, r) == SHELLDLL_DEF_VIEW
    ensures r != 0 ==> exists i :: 0 <= i < |d.topLevel| && QualifyingWorker(d, d.topLevel[i]) &&
                                   (forall j :: 0 <= j < i ==> !QualifyingWorker(d, d.topLevel[j])) &&
                                   r == FindWindowEx(d, d.topLevel[i], SHELLDLL_DEF_VIEW)
  {
    var i := FirstWorkerIndex(d);
    if i < |d.topLevel| then FindWindowEx(d, d.topLevel[i], SHELLDLL_DEF_VIEW) else 0
  }

  /** The resolver's priority-ordered decision tree. */
  function Resolve(d: Desktop): (r: Resolution)
    ensures r.ClassicListView? ==> GetClassName(d, r.handle) == SYS_LIST_VIEW32
    ensures r.ActiveDesktop? ==> GetClassName(d, r.handle) == INTERNET_EXPLORER_SERVER
    ensures r.StartScreen? ==> GetClassName(d, r.handle) == EDGE_UI_INPUT_WND_CLASS
    ensures r.CompositedListView? ==> GetClassName(d, r.handle) == SYS_LIST_VIEW32
    ensures r.DesktopRoot? ==> r.root == GetDesktopWindow(d)
  {
    var defView := ProgmanDefView(d);
    if defView != 0 && FindWindowEx(d, defView, SYS_LIST_VIEW32) != 0 then
      ClassicListView(FindWindowEx(d, defView, SYS_LIST_VIEW32))
    else if defView != 0 && FindWindowEx(d, defView, INTERNET_EXPLORER_SERVER) != 0 then
      ActiveDesktop(FindWindowEx(d, defView, INTERNET_EXPLORER_SERVER))
    else if FindWindowEx(d, 0, EDGE_UI_INPUT_WND_CLASS) != 0 then
      StartScreen(FindWindowEx(d, 0, EDGE_UI_INPUT_WND_CLASS))
    else
      var workerDefView := WorkerDefView(d);
      if workerDefView != 0 && FindWindowEx(d, workerDefView, SYS_LIST_VIEW32) != 0 then
        CompositedListView(FindWindowEx(d, workerDefView, SYS_LIST_VIEW32))
      else
        DesktopRoot(GetDesktopWindow(d))
  }

  /** The handle the DesktopListViewWindow property returns. */
  function DesktopListView(d: Desktop): (r: nat)
    ensures GetDesktopWindow(d) != 0 ==> r != 0
    ensures r == GetDesktopWindow(d) ||
            (r != 0 && (GetClassName(d, r) == SYS_LIST_VIEW32 ||
                        GetClassName(d, r) == INTERNET_EXPLORER_SERVER ||
                        GetClassName(d, r) == EDGE_UI_INPUT_WND_CLASS))
  {
    Resolve(d).Handle()
  }

  // ---------------------------------------------------------------------
  // Properties of the decision tree
  // ---------------------------------------------------------------------

  /** Progman > SHELLDLL_DefView > SysListView32 wins over every later rule. */
  lemma ProgmanListViewWins(d: Desktop)
    requires ProgmanDefView(d) != 0 && FindWindowEx(d, ProgmanDefView(d), SYS_LIST_VIEW32) != 0
    ensures DesktopListView(d) == FindWindowEx(d, ProgmanDefView(d), SYS_LIST_VIEW32)
    ensures GetClassName(d, DesktopListView(d)) == SYS_LIST_VIEW32
  {
  }

  /**
   * Without a SysListView32 under Progman's DefView, an
   * Internet Exproler_Server child of that DefView is the result.
   */
  lemma ProgmanServerSecond(d: Desktop)
    requires ProgmanDefView(d) != 0
    requires FindWindowEx(d, ProgmanDefView(d), SYS_LIST_VIEW32) == 0
    requires FindWindowEx(d, ProgmanDefView(d), INTERNET_EXPLORER_SERVER) != 0
    ensures DesktopListView(d) == FindWindowEx(d, ProgmanDefView(d), INTERNET_EXPLORER_SERVER)
  {
  }

  /**
   * The Progman branch yields a window exactly when Progman, its DefView
   * and one of the two children all exist; in every other case (Progman
   * present but empty included) the resolver falls through.
   */
  lemma ProgmanBranchYieldsExactlyWhen(d: Desktop)
    ensures (Resolve(d).ClassicListView? || Resolve(d).ActiveDesktop?) <==>
            (FindWindowEx(d, 0, PROGMAN) != 0 &&
             FindWindowEx(d, FindWindowEx(d, 0, PROGMAN), SHELLDLL_DEF_VIEW) != 0 &&
             (FindWindowEx(d, ProgmanDefView(d), SYS_LIST_VIEW32) != 0 ||
              FindWindowEx(d, ProgmanDefView(d), INTERNET_EXPLORER_SERVER) != 0))
  {
  }

  /** When the Progman branch yields nothing, for whatever reason, a top-level EdgeUiInputWndClass is the result. */
  lemma EdgeAfterProgman(d: Desktop)
    requires !Resolve(d).ClassicListView? && !Resolve(d).ActiveDesktop?
    requires FindWindowEx(d, 0, EDGE_UI_INPUT_WND_CLASS) != 0
    ensures DesktopListView(d) == FindWindowEx(d, 0, EDGE_UI_INPUT_WND_CLASS)
  {
  }

  /**
   * With Progman and EdgeUiInputWndClass exhausted, only the first
   * qualifying WorkerW decides: its DefView's SysListView32 when there is
   * one, otherwise the root window; no second WorkerW is tried.
   */
  lemma WorkerRule(d: Desktop)
    requires !Resolve(d).ClassicListView? && !Resolve(d).ActiveDesktop?
    requires FindWindowEx(d, 0, EDGE_UI_INPUT_WND_CLASS) == 0
    ensures WorkerDefView(d) != 0 && FindWindowEx(d, WorkerDefView(d), SYS_LIST_VIEW32) != 0 ==>
              DesktopListView(d) == FindWindowEx(d, WorkerDefView(d), SYS_LIST_VIEW32)
    ensures WorkerDefView(d) != 0 && FindWindowEx(d, WorkerDefView(d), SYS_LIST_VIEW32) == 0 ==>
              DesktopListView(d) == GetDesktopWindow(d)
    ensures WorkerDefView(d) == 0 ==> DesktopListView(d) == GetDesktopWindow(d)
  {
  }

  /**
   * The walk stops at the first qualifying WorkerW: whatever top-level
   * windows follow in z-order, and whether or not they qualify, the
   * recorded DefView is the same.
   */
  lemma {:induction false} WorkerDefViewIgnoresLaterWindows(d: Desktop, later: seq<Hwnd>)
    requires WorkerDefView(d) != 0
    ensures WorkerDefView(d.(topLevel := d.topLevel + later)) == WorkerDefView(d)
  {
    var e := d.(topLevel := d.topLevel + later);
    var k := FirstWorkerIndex(d);
    forall j | 0 <= j <= k
      ensures e.topLevel[j] == d.topLevel[j]
      ensures QualifyingWorker(e, e.topLevel[j]) == QualifyingWorker(d, d.topLevel[j])
    {
      QualifyingWorkerDependsOnWindowsOnly(d, e, d.topLevel[j]);
    }
    QualifyingWorkerDependsOnWindowsOnly(d, e, d.topLevel[k]);
    assert FirstWorkerIndex(e) == k;
  }

  /** Whether a window qualifies depends on the window map only, not on the z-order. */
  lemma QualifyingWorkerDependsOnWindowsOnly(d: Desktop, e: Desktop, h: Hwnd)
    requires e.windows == d.windows
    ensures QualifyingWorker(e, h) == QualifyingWorker(d, h)
    ensures FindWindowEx(e, h, SHELLDLL_DEF_VIEW) == FindWindowEx(d, h, SHELLDLL_DEF_VIEW)
  {
    assert Children(e, h) == Children(d, h);
  }

  /**
   * A composited desktop with two qualifying WorkerW windows: the first (1)
   * has a SHELLDLL_DefView (2) without a list view, the second (3) has a
   * DefView (4) holding a SysListView32 (5). The first decides, so the
   * result is the root window (9), not 5.
   */
  lemma SecondWorkerNeverTried()
    ensures var d := Desktop(map[1 := Window(WORKER_W, [2]),
                                 2 := Window(SHELLDLL_DEF_VIEW, []),
                                 3 := Window(WORKER_W, [4]),
                                 4 := Window(SHELLDLL_DEF_VIEW, [5]),
                                 5 := Window(SYS_LIST_VIEW32, [])],
                             [1, 3], 9);
            DesktopListView(d) == 9
  {
    var d := Desktop(map[1 := Window(WORKER_W, [2]),
                         2 := Window(SHELLDLL_DEF_VIEW, []),
                         3 := Window(WORKER_W, [4]),
                         4 := Window(SHELLDLL_DEF_VIEW, [5]),
                         5 := Window(SYS_LIST_VIEW32, [])],
                     [1, 3], 9);
    assert GetClassName(d, 1) == WORKER_W && GetClassName(d, 3) == WORKER_W;
    assert FindWindowEx(d, 0, PROGMAN) == 0;
    assert ProgmanDefView(d) == 0;
    assert FindWindowEx(d, 0, EDGE_UI_INPUT_WND_CLASS) == 0;
    assert Children(d, 1) == [2] && GetClassName(d, 2) == SHELLDLL_DEF_VIEW;
    assert FindWindowEx(d, 1, SHELLDLL_DEF_VIEW) == 2;
    assert QualifyingWorker(d, 1);
    assert FirstWorkerIndex(d) == 0;
    assert WorkerDefView(d) == 2;
    assert Children(d, 2) == [];
    assert FindWindowEx(d, 2, SYS_LIST_VIEW32) == 0;
  }

  /**
   * A classic desktop that also has a start-screen window and a composited
   * worker: Progman (1) > SHELLDLL_DefView (2) > SysListView32 (3) wins.
   */
  lemma ClassicDesktopWins()
    ensures var d := Desktop(map[1 := Window(PROGMAN, [2]),
                                 2 := Window(SHELLDLL_DEF_VIEW, [3]),
                                 3 := Window(SYS_LIST_VIEW32, []),
                                 4 := Window(EDGE_UI_INPUT_WND_CLASS, []),
                                 5 := Window(WORKER_W, [6]),
                                 6 := Window(SHELLDLL_DEF_VIEW, [7]),
                                 7 := Window(SYS_LIST_VIEW32, [])],
                             [5, 4, 1], 9);
            Resolve(d) == ClassicListView(3)
  {
    var d := Desktop(map[1 := Window(PROGMAN, [2]),
                         2 := Window(SHELLDLL_DEF_VIEW, [3]),
                         3 := Window(SYS_LIST_VIEW32, []),
                         4 := Window(EDGE_UI_INPUT_WND_CLASS, []),
                         5 := Window(WORKER_W, [6]),
                         6 := Window(SHELLDLL_DEF_VIEW, [7]),
                         7 := Window(SYS_LIST_VIEW32, [])],
                     [5, 4, 1], 9);
    assert GetClassName(d, 1) == PROGMAN && d.topLevel[2] == 1;
    assert GetClassName(d, 4) != PROGMAN && GetClassName(d, 5) != PROGMAN;
    assert FindWindowEx(d, 0, PROGMAN) == 1;
    assert ProgmanDefView(d) == 2;
    assert FindWindowEx(d, 2, SYS_LIST_VIEW32) == 3;
  }

  /**
   * Progman (1) is present but its SHELLDLL_DefView (2) is empty: the
   * resolver still falls through to the EdgeUiInputWndClass window (3).
   */
  lemma EmptyProgmanFallsThrough()
    ensures var d := Desktop(map[1 := Window(PROGMAN, [2]),
                                 2 := Window(SHELLDLL_DEF_VIEW, []),
                                 3 := Window(EDGE_UI_INPUT_WND_CLASS, [])],
                             [1, 3], 9);
            Resolve(d) == StartScreen(3)
  {
    var d := Desktop(map[1 := Window(PROGMAN, [2]),
                         2 := Window(SHELLDLL_DEF_VIEW, []),
                         3 := Window(EDGE_UI_INPUT_WND_CLASS, [])],
                     [1, 3], 9);
    assert FindWindowEx(d, 0, PROGMAN) == 1;
    assert ProgmanDefView(d) == 2;
    assert FindWindowEx(d, 2, SYS_LIST_VIEW32) == 0;
    assert FindWindowEx(d, 2, INTERNET_EXPLORER_SERVER) == 0;
    assert GetClassName(d, 3) == EDGE_UI_INPUT_WND_CLASS && d.topLevel[1] == 3;
    assert GetClassName(d, 1) != EDGE_UI_INPUT_WND_CLASS;
    assert FindWindowEx(d, 0, EDGE_UI_INPUT_WND_CLASS) == 3;
  }

  // ---------------------------------------------------------------------
  // Desktop list-view resolution, as the source runs it
  // ---------------------------------------------------------------------

  /** The static part of SCFF.Common.Utilities: the result field shared with the enumeration callback. */
  class Utilities {
    var enumerateWindowResult: nat

    constructor ()
      ensures enumerateWindowResult == 0
    {
      enumerateWindowResult := 0;
    }

    /**
     * EnumerateWindow: skips (returns true for) every window that is not a
     * WorkerW with a SHELLDLL_DefView child; for the first one that is, it
     * records that DefView and stops the enumeration by returning false.
     */
    method EnumerateWindow(d: Desktop, hWnd: Hwnd) returns (continueEnumeration: bool)
      modifies this
      ensures continueEnumeration == !QualifyingWorker(d, hWnd)
      ensures enumerateWindowResult ==
                if continueEnumeration then old(enumerateWindowResult)
                else FindWindowEx(d, hWnd, SHELLDLL_DEF_VIEW)
    {
      var className := GetClassName(d, hWnd);
      if className != WORKER_W {
        return true;
      }
      var shellDLLDefView := FindWindowEx(d, hWnd, SHELLDLL_DEF_VIEW);
      if shellDLLDefView == 0 {
        return true;
      }
      enumerateWindowResult := shellDLLDefView;
      return false;
    }

    /**
     * EnumWindows with EnumerateWindow as its callback: visits the
     * top-level windows in z-order until the callback returns false.
     * `visited` is how many windows the callback saw: exactly those up to
     * and including the first qualifying WorkerW.
     */
    method EnumWindows(d: Desktop) returns (visited: nat)
      modifies this
      ensures visited == if FirstWorkerIndex(d) < |d.topLevel| then FirstWorkerIndex(d) + 1 else |d.topLevel|
      ensures enumerateWindowResult ==
                if WorkerDefView(d) != 0 then WorkerDefView(d) else old(enumerateWindowResult)
    {
      var i := 0;
      while i < |d.topLevel|
        invariant 0 <= i <= |d.topLevel|
        invariant forall j :: 0 <= j < i ==> !QualifyingWorker(d, d.topLevel[j])
        invariant enumerateWindowResult == old(enumerateWindowResult)
      {
        var continueEnumeration := EnumerateWindow(d, d.topLevel[i]);
        if !continueEnumeration {
          assert FirstWorkerIndex(d) == i;
          return i + 1;
        }
        i := i + 1;
      }
      return i;
    }

    /**
     * The DesktopListViewWindow property. The result field is reset before
     * the walk, so the result never depends on an earlier call.
     */
    method DesktopListViewWindow(d: Desktop) returns (r: nat)
      modifies this
      ensures r == DesktopListView(d)
      ensures Resolve(d).ClassicListView? || Resolve(d).ActiveDesktop? || Resolve(d).StartScreen? ==>
                enumerateWindowResult == old(enumerateWindowResult)
      ensures Resolve(d).CompositedListView? || Resolve(d).DesktopRoot? ==>
                enumerateWindowResult == WorkerDefView(d)
    {
      var progman := FindWindowEx(d, 0, PROGMAN);
      if progman != 0 {
        var shellDLLDefView := FindWindowEx(d, progman, SHELLDLL_DEF_VIEW);
        if shellDLLDefView != 0 {
          var sysListView32 := FindWindowEx(d, shellDLLDefView, SYS_LIST_VIEW32);
          if sysListView32 != 0 {
            return sysListView32;
          }
          var internetExprolerServer := FindWindowEx(d, shellDLLDefView, INTERNET_EXPLORER_SERVER);
          if internetExprolerServer != 0 {
            return internetExprolerServer;
          }
        }
      }
      var edgeUiInputWndClass := FindWindowEx(d, 0, EDGE_UI_INPUT_WND_CLASS);
      if edgeUiInputWndClass != 0 {
        return edgeUiInputWndClass;
      }
      enumerateWindowResult := 0;
      var _ := EnumWindows(d);
      if enumerateWindowResult != 0 {
        var sysListView32 := FindWindowEx(d, enumerateWindowResult, SYS_LIST_VIEW32);
        if sysListView32 != 0 {
          return sysListView32;
        }
      }
      return GetDesktopWindow(d);
    }
  }
}
