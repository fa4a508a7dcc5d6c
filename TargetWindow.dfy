/**
 * The capture-target control of the GUI: the three user actions that pick
 * a target (dropping the "drag here" handle on a window, the Desktop
 * button, the list-view button) and UpdateProfile, which sets the new
 * target on the profile's current layout element and renormalises its
 * clipping rectangle for it.
 *
 * `UpdatedProfile` is the specification of one UpdateProfile call on a
 * layout snapshot; the lemmas state what a target change promises, and the
 * `TargetWindow` class runs the update field by field on the element.
 */
module TargetWindow {
  import opened Profile

  function Min(a: int, b: int): (m: int)
    ensures m <= a && m <= b && (m == a || m == b)
  {
    if a <= b then a else b
  }

  /** The target each valid window type selects; only `Normal` uses the handle. An undefined type selects none. */
  function TargetFor(nextWindowType: WindowTypes, nextTargetWindow: nat): (t: Target)
    requires !nextWindowType.Undefined?
    ensures t.WindowTarget? <==> nextWindowType.Normal?
    ensures t.WindowTarget? ==> t.window == nextTargetWindow
    ensures t.DesktopListViewTarget? <==> nextWindowType.DesktopListView?
    ensures t.DesktopTarget? <==> nextWindowType.Desktop?
  {
    match nextWindowType
    case Normal => WindowTarget(nextTargetWindow)
    case DesktopListView => DesktopListViewTarget
    case Desktop => DesktopTarget
  }

  /**
   * Renormalisation after a target change, read off the element that the
   * setter has already updated: Fit on, origin at (0, 0), and the manual
   * width and height no larger than the new window.
   */
  function Renormalized(s: LayoutState): (r: LayoutState)
    ensures r.fit && r.clippingXWithoutFit == 0 && r.clippingYWithoutFit == 0
    ensures r.clippingWidthWithoutFit <= s.windowWidth && r.clippingWidthWithoutFit <= s.clippingWidthWithoutFit
    ensures r.clippingWidthWithoutFit == s.clippingWidthWithoutFit || r.clippingWidthWithoutFit == s.windowWidth
    ensures r.clippingHeightWithoutFit <= s.windowHeight && r.clippingHeightWithoutFit <= s.clippingHeightWithoutFit
    ensures r.clippingHeightWithoutFit == s.clippingHeightWithoutFit || r.clippingHeightWithoutFit == s.windowHeight
    ensures r.target == s.target && r.windowWidth == s.windowWidth && r.windowHeight == s.windowHeight
  {
    s.(fit := true,
       clippingXWithoutFit := 0,
       clippingYWithoutFit := 0,
       clippingWidthWithoutFit := Min(s.clippingWidthWithoutFit, s.windowWidth),
       clippingHeightWithoutFit := Min(s.clippingHeightWithoutFit, s.windowHeight))
  }

  /**
   * One UpdateProfile call on a layout snapshot, the setter having found a
   * window of size windowWidth x windowHeight for the new target.
   */
  function UpdatedProfile(s: LayoutState, nextWindowType: WindowTypes, nextTargetWindow: nat,
                          windowWidth: nat, windowHeight: nat): (r: LayoutState)
    ensures nextWindowType.Undefined? ==> r == s
    ensures !nextWindowType.Undefined? ==>
              r.target == TargetFor(nextWindowType, nextTargetWindow) &&
              r.windowWidth == windowWidth && r.windowHeight == windowHeight &&
              r.fit && r.clippingXWithoutFit == 0 && r.clippingYWithoutFit == 0 &&
              r.clippingWidthWithoutFit <= windowWidth && r.clippingHeightWithoutFit <= windowHeight
  {
    if nextWindowType.Undefined? then s
    else Renormalized(Retargeted(s, TargetFor(nextWindowType, nextTargetWindow), windowWidth, windowHeight))
  }

  // ---------------------------------------------------------------------
  // What a target change promises
  // ---------------------------------------------------------------------

  /**
   * After a valid target change the new target is in place, Fit is on, the
   * origin is (0, 0), and each manual extent is the smaller of its old
   * value and the new window's extent: no larger than either, and kept
   * unchanged when it already fitted.
   */
  lemma UpdateProfileRenormalizes(s: LayoutState, nextWindowType: WindowTypes, nextTargetWindow: nat,
                                  windowWidth: nat, windowHeight: nat)
    requires !nextWindowType.Undefined?
    ensures var r := UpdatedProfile(s, nextWindowType, nextTargetWindow, windowWidth, windowHeight);
      && r.target == TargetFor(nextWindowType, nextTargetWindow)
      && r.windowWidth == windowWidth && r.windowHeight == windowHeight
      && r.fit
      && r.clippingXWithoutFit == 0 && r.clippingYWithoutFit == 0
      && r.clippingWidthWithoutFit <= windowWidth && r.clippingWidthWithoutFit <= s.clippingWidthWithoutFit
      && (s.clippingWidthWithoutFit <= windowWidth ==> r.clippingWidthWithoutFit == s.clippingWidthWithoutFit)
      && (windowWidth <= s.clippingWidthWithoutFit ==> r.clippingWidthWithoutFit == windowWidth)
      && r.clippingHeightWithoutFit <= windowHeight && r.clippingHeightWithoutFit <= s.clippingHeightWithoutFit
      && (s.clippingHeightWithoutFit <= windowHeight ==> r.clippingHeightWithoutFit == s.clippingHeightWithoutFit)
      && (windowHeight <= s.clippingHeightWithoutFit ==> r.clippingHeightWithoutFit == windowHeight)
  {
  }

  /**
   * The manual clipping rectangle lies inside the new window after a valid
   * target change, whenever the old extent was not negative.
   */
  lemma UpdateProfileClipsInsideWindow(s: LayoutState, nextWindowType: WindowTypes, nextTargetWindow: nat,
                                       windowWidth: nat, windowHeight: nat)
    requires !nextWindowType.Undefined?
    requires s.clippingWidthWithoutFit >= 0 && s.clippingHeightWithoutFit >= 0
    ensures var r := UpdatedProfile(s, nextWindowType, nextTargetWindow, windowWidth, windowHeight);
      && 0 <= r.clippingXWithoutFit && 0 <= r.clippingYWithoutFit
      && 0 <= r.clippingWidthWithoutFit && 0 <= r.clippingHeightWithoutFit
      && r.clippingXWithoutFit + r.clippingWidthWithoutFit <= r.windowWidth
      && r.clippingYWithoutFit + r.clippingHeightWithoutFit <= r.windowHeight
  {
  }

  /** The clamp reads the window size the setter has just stored, not the previous target's. */
  lemma UpdateProfileUsesNewWindowSize()
    ensures var old800x600 := LayoutState(WindowTarget(7), 800, 600, false, 25, 40, 400, 300);
            UpdatedProfile(old800x600, Normal, 9, 300, 700) ==
            LayoutState(WindowTarget(9), 300, 700, true, 0, 0, 300, 300)
  {
  }

  /** Changing to the same target (of the same size) a second time changes nothing more. */
  lemma UpdateProfileIdempotent(s: LayoutState, nextWindowType: WindowTypes, nextTargetWindow: nat,
                                windowWidth: nat, windowHeight: nat)
    ensures var once := UpdatedProfile(s, nextWindowType, nextTargetWindow, windowWidth, windowHeight);
            UpdatedProfile(once, nextWindowType, nextTargetWindow, windowWidth, windowHeight) == once
  {
  }

  /** The handle argument matters only for `Normal`: the Desktop and list-view targets ignore it. */
  lemma UpdateProfileHandleOnlyForNormal(s: LayoutState, nextWindowType: WindowTypes, handle1: nat, handle2: nat,
                                         windowWidth: nat, windowHeight: nat)
    requires !nextWindowType.Normal?
    ensures UpdatedProfile(s, nextWindowType, handle1, windowWidth, windowHeight) ==
            UpdatedProfile(s, nextWindowType, handle2, windowWidth, windowHeight)
  {
  }

  /** An undefined window type leaves every field as it was. */
  lemma UpdateProfileUndefinedUnchanged(s: LayoutState, value: int, nextTargetWindow: nat,
                                        windowWidth: nat, windowHeight: nat)
    ensures UpdatedProfile(s, Undefined(value), nextTargetWindow, windowWidth, windowHeight) == s
  {
  }

  // ---------------------------------------------------------------------
  // The control
  // ---------------------------------------------------------------------

  /** The target-window control; `profile` is the application's one profile. */
  class TargetWindow {
    const profile: Profile

    constructor (profile: Profile)
      ensures this.profile == profile
    {
      this.profile := profile;
    }

    /**
     * UpdateProfile: set the target through the output view, then force
     * Fit, zero the origin and clamp the extent to the window size read
     * back through the input view. An undefined type returns at once.
     */
    method UpdateProfile(nextWindowType: WindowTypes, nextTargetWindow: nat, windowWidth: nat, windowHeight: nat)
      modifies profile.currentLayoutElement
      ensures profile.currentLayoutElement.State() ==
                UpdatedProfile(old(profile.currentLayoutElement.State()), nextWindowType, nextTargetWindow,
                               windowWidth, windowHeight)
    {
      var output := profile.CurrentOutputLayoutElement();
      match nextWindowType {
        case Normal =>
          output.SetWindow(nextTargetWindow, windowWidth, windowHeight);
        case DesktopListView =>
          output.SetWindowToDesktopListView(windowWidth, windowHeight);
        case Desktop =>
          output.SetWindowToDesktop(windowWidth, windowHeight);
        case Undefined(_) =>
          return;
      }
      output.Fit := true;
      output.ClippingXWithoutFit := 0;
      output.ClippingYWithoutFit := 0;
      output.ClippingWidthWithoutFit := Min(profile.CurrentInputLayoutElement().ClippingWidthWithoutFit,
                                            profile.CurrentInputLayoutElement().WindowWidth);
      output.ClippingHeightWithoutFit := Min(profile.CurrentInputLayoutElement().ClippingHeightWithoutFit,
                                             profile.CurrentInputLayoutElement().WindowHeight);
    }

    /** Mouse-up on the drag handle: capture the window under the pointer. */
    method DragHerePreviewMouseUp(windowFromPoint: nat, windowWidth: nat, windowHeight: nat)
      modifies profile.currentLayoutElement
      ensures profile.currentLayoutElement.State() ==
                UpdatedProfile(old(profile.currentLayoutElement.State()), Normal, windowFromPoint, windowWidth, windowHeight)
    {
      UpdateProfile(Normal, windowFromPoint, windowWidth, windowHeight);
    }

    /** The Desktop button: capture the whole desktop (the handle passed is 0). */
    method DesktopClick(windowWidth: nat, windowHeight: nat)
      modifies profile.currentLayoutElement
      ensures profile.currentLayoutElement.State() ==
                UpdatedProfile(old(profile.currentLayoutElement.State()), Desktop, 0, windowWidth, windowHeight)
    {
      UpdateProfile(Desktop, 0, windowWidth, windowHeight);
    }

    /** The list-view button: capture the desktop's icon list view (the handle passed is 0). */
    method ListViewClick(windowWidth: nat, windowHeight: nat)
      modifies profile.currentLayoutElement
      ensures profile.currentLayoutElement.State() ==
                UpdatedProfile(old(profile.currentLayoutElement.State()), DesktopListView, 0, windowWidth, windowHeight)
    {
      UpdateProfile(DesktopListView, 0, windowWidth, windowHeight);
    }
  }
}
