/**
 * The part of the capture profile that a target change touches: one layout
 * element, whose capture target, target window size, Fit flag and manual
 * clipping rectangle ("...WithoutFit") are updated in place.
 *
 * Only the members of the layout element that the target control uses are
 * modelled; the three target setters are modelled abstractly: each records
 * its kind of target and the window size it would have queried, which the
 * caller supplies.
 */
module Profile {

  /** The kinds of capture target a control can ask for; `Undefined` stands for any other value of the enum. */
  datatype WindowTypes = Normal | DesktopListView | Desktop | Undefined(value: int)

  /** What a layout element captures. */
  datatype Target =
    | WindowTarget(window: nat)    // one specific window, by handle
    | DesktopListViewTarget        // the desktop's icon list view
    | DesktopTarget                // the whole desktop

  /** A snapshot of a layout element's fields, as a value. */
  datatype LayoutState = LayoutState(
    target: Target,
    windowWidth: int,
    windowHeight: int,
    fit: bool,
    clippingXWithoutFit: int,
    clippingYWithoutFit: int,
    clippingWidthWithoutFit: int,
    clippingHeightWithoutFit: int)

  /** The effect of a target setter: a new target and its window size, the rest untouched. */
  function Retargeted(s: LayoutState, target: Target, windowWidth: nat, windowHeight: nat): (r: LayoutState)
    ensures r.target == target && r.windowWidth == windowWidth && r.windowHeight == windowHeight
    ensures r.(target := s.target, windowWidth := s.windowWidth, windowHeight := s.windowHeight) == s
  {
    s.(target := target, windowWidth := windowWidth, windowHeight := windowHeight)
  }

  class LayoutElement {
    var Target: Target
    var WindowWidth: int
    var WindowHeight: int
    var Fit: bool
    var ClippingXWithoutFit: int
    var ClippingYWithoutFit: int
    var ClippingWidthWithoutFit: int
    var ClippingHeightWithoutFit: int

    function State(): LayoutState
      reads this
    {
      LayoutState(Target, WindowWidth, WindowHeight, Fit,
                  ClippingXWithoutFit, ClippingYWithoutFit, ClippingWidthWithoutFit, ClippingHeightWithoutFit)
    }

    constructor (initial: LayoutState)
      ensures State() == initial
    {
      Target := initial.target;
      WindowWidth, WindowHeight := initial.windowWidth, initial.windowHeight;
      Fit := initial.fit;
      ClippingXWithoutFit, ClippingYWithoutFit := initial.clippingXWithoutFit, initial.clippingYWithoutFit;
      ClippingWidthWithoutFit, ClippingHeightWithoutFit := initial.clippingWidthWithoutFit, initial.clippingHeightWithoutFit;
    }

    /** SetWindow(window): capture that window, whose size the caller supplies. */
    method SetWindow(window: nat, windowWidth: nat, windowHeight: nat)
      modifies this
      ensures State() == Retargeted(old(State()), WindowTarget(window), windowWidth, windowHeight)
    {
      Target := WindowTarget(window);
      WindowWidth, WindowHeight := windowWidth, windowHeight;
    }

    /** SetWindowToDesktopListView(): capture the desktop's icon list view. */
    method SetWindowToDesktopListView(windowWidth: nat, windowHeight: nat)
      modifies this
      ensures State() == Retargeted(old(State()), DesktopListViewTarget, windowWidth, windowHeight)
    {
      Target := DesktopListViewTarget;
      WindowWidth, WindowHeight := windowWidth, windowHeight;
    }

    /** SetWindowToDesktop(): capture the whole desktop. */
    method SetWindowToDesktop(windowWidth: nat, windowHeight: nat)
      modifies this
      ensures State() == Retargeted(old(State()), DesktopTarget, windowWidth, windowHeight)
    {
      Target := DesktopTarget;
      WindowWidth, WindowHeight := windowWidth, windowHeight;
    }
  }

  /**
   * The profile's current layout element, seen through its two accessors.
   * Both accessors return the same element: what is written through the
   * output view is read back through the input view.
   */
  class Profile {
    var currentLayoutElement: LayoutElement

    constructor (element: LayoutElement)
      ensures currentLayoutElement == element
    {
      currentLayoutElement := element;
    }

    /** The input view: the very element the output view returns. */
    function CurrentInputLayoutElement(): (e: LayoutElement)
      reads this
      ensures e == CurrentOutputLayoutElement()
    {
      currentLayoutElement
    }

    /** The output view: the profile's current element. */
    function CurrentOutputLayoutElement(): LayoutElement
      reads this
    {
      currentLayoutElement
    }
  }
}
