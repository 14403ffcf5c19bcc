/** Adaptive layout decisions
    (app/src/main/java/com/example/uinavegacion/ui/utils/WindowSizeUtils.kt):
    the device type and navigation style chosen from the window's width and
    height in dp, and the grid and pane choices derived from the device type. */
module WindowSize {

  /** In declaration order, from the smallest to the largest screen. */
  datatype DeviceType = PhonePortrait | PhoneLandscape | TabletPortrait | TabletLandscape | Desktop

  datatype NavigationType = BottomNavigation | NavigationRail | PermanentNavigationDrawer

  datatype WindowInfo = WindowInfo(
    deviceType: DeviceType, navigationType: NavigationType, isTablet: bool,
    isLandscape: bool, screenWidthDp: int, screenHeightDp: int)

  const COMPACT_MAX := 600
  const EXPANDED := 840
  const DESKTOP_MIN := 1200

  /** The position of a device type in its declaration. */
  function Ordinal(d: DeviceType): nat {
    match d
    case PhonePortrait => 0
    case PhoneLandscape => 1
    case TabletPortrait => 2
    case TabletLandscape => 3
    case Desktop => 4
  }

  predicate IsLandscape(width: int, height: int) {
    width > height
  }

  /** The device type `when` chain as written. */
  function ClassifyDevice(width: int, height: int): (d: DeviceType)
    ensures width >= DESKTOP_MIN ==> d == Desktop
    ensures width < COMPACT_MAX ==> d == (if IsLandscape(width, height) then PhoneLandscape else PhonePortrait)
    ensures (COMPACT_MAX <= width < DESKTOP_MIN) ==>
      d == (if IsLandscape(width, height) then TabletLandscape else TabletPortrait)
  {
    var landscape := IsLandscape(width, height);
    if width >= DESKTOP_MIN then Desktop
    else if width >= EXPANDED && landscape then TabletLandscape
    else if width >= COMPACT_MAX && !landscape then TabletPortrait
    else if width >= COMPACT_MAX && landscape then TabletLandscape
    else if landscape then PhoneLandscape
    else PhonePortrait
  }

  /** The navigation `when` chain as written. */
  function ChooseNavigation(width: int, height: int): (n: NavigationType)
    ensures n == PermanentNavigationDrawer <==> width >= EXPANDED
    ensures width < EXPANDED ==> (n == NavigationRail <==> IsLandscape(width, height))
    ensures width < EXPANDED ==> (n == BottomNavigation <==> !IsLandscape(width, height))
  {
    var landscape := IsLandscape(width, height);
    if width >= DESKTOP_MIN then PermanentNavigationDrawer
    else if width >= EXPANDED then PermanentNavigationDrawer
    else if width >= COMPACT_MAX && landscape then NavigationRail
    else if width >= COMPACT_MAX then BottomNavigation
    else if landscape then NavigationRail
    else BottomNavigation
  }

  predicate IsTabletType(d: DeviceType) {
    d == TabletPortrait || d == TabletLandscape || d == Desktop
  }

  /** `rememberWindowInfo`, with the configuration's width and height as
      parameters. */
  function RememberWindowInfo(width: int, height: int): (w: WindowInfo)
    ensures w.isTablet <==> width >= COMPACT_MAX
    ensures w.isLandscape <==> width > height
    ensures w.deviceType == ClassifyDevice(width, height)
    ensures w.navigationType == ChooseNavigation(width, height)
    ensures w.screenWidthDp == width && w.screenHeightDp == height
  {
    var d := ClassifyDevice(width, height);
    WindowInfo(d, ChooseNavigation(width, height), IsTabletType(d), IsLandscape(width, height), width, height)
  }

  /** `AdaptiveUtils.getGridColumns`. */
  function GetGridColumns(info: WindowInfo): (n: int)
    ensures 2 <= n <= 5
  {
    match info.deviceType
    case PhonePortrait => 2
    case PhoneLandscape => 3
    case TabletPortrait => 3
    case TabletLandscape => 4
    case Desktop => 5
  }

  /** `AdaptiveUtils.shouldUseTwoPaneLayout`. */
  predicate ShouldUseTwoPaneLayout(info: WindowInfo): (b: bool)
    ensures b <==> Ordinal(info.deviceType) >= Ordinal(TabletLandscape)
    ensures b ==> GetGridColumns(info) >= 4
  {
    info.deviceType == TabletLandscape || info.deviceType == Desktop
  }

  // ----- lemmas -----

  /** A larger device type never gets fewer grid columns. */
  lemma GridColumnsMonotone(a: WindowInfo, b: WindowInfo)
    requires Ordinal(a.deviceType) <= Ordinal(b.deviceType)
    ensures GetGridColumns(a) <= GetGridColumns(b)
  {
  }

  /** Two panes are used exactly on desktops and on landscape tablets:
      a width of 1200 dp or more, or 600 dp or more held sideways. */
  lemma TwoPaneWindows(width: int, height: int)
    ensures ShouldUseTwoPaneLayout(RememberWindowInfo(width, height)) <==>
      (width >= DESKTOP_MIN || (width >= COMPACT_MAX && IsLandscape(width, height)))
  {
  }

  /** For a fixed orientation, a wider window never gets a smaller device
      type, and so never fewer columns. */
  lemma WiderNeverSmaller(w1: int, h1: int, w2: int, h2: int)
    requires w1 <= w2 && IsLandscape(w1, h1) == IsLandscape(w2, h2)
    ensures Ordinal(ClassifyDevice(w1, h1)) <= Ordinal(ClassifyDevice(w2, h2))
    ensures GetGridColumns(RememberWindowInfo(w1, h1)) <= GetGridColumns(RememberWindowInfo(w2, h2))
  {
    GridColumnsMonotone(RememberWindowInfo(w1, h1), RememberWindowInfo(w2, h2));
  }

  /** The 840 dp breakpoint changes the navigation but never the device type:
      between 600 and 1200 dp only the orientation decides. */
  lemma ExpandedBreakpointIrrelevantToDevice(w1: int, w2: int, h1: int, h2: int)
    requires COMPACT_MAX <= w1 < EXPANDED <= w2 < DESKTOP_MIN
    requires IsLandscape(w1, h1) == IsLandscape(w2, h2)
    ensures ClassifyDevice(w1, h1) == ClassifyDevice(w2, h2)
    ensures ChooseNavigation(w1, h1) != ChooseNavigation(w2, h2)
  {
  }
}
