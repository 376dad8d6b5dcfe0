/** The site's navigation bar (src/components/ui/Navbar.tsx): the theme
    button, the header's `scrolled` flag driven by the scroll listener, and
    the mobile menu's `isOpen` flag with the events that change it. */
module Navbar {
  import opened Text

  // ---------------------------------------------------------------- theme button

  /** `toggleTheme`: `light` from `dark`, and `dark` from anything else,
      `system` and an unset theme included. */
  function ToggledTheme(theme: Option<string>): (t: string)
    ensures t == "light" <==> theme == Some("dark")
    ensures t == "light" || t == "dark"
  {
    if theme == Some("dark") then "light" else "dark"
  }

  /** From `light` or `dark`, two presses come back; from `system` they
      land on `light`, so `system` cannot be reached again with this
      button. */
  lemma ToggleThemeTwice(theme: Option<string>)
    ensures theme == Some("dark") || theme == Some("light") ==>
      ToggledTheme(Some(ToggledTheme(theme))) == theme.value
    ensures theme != Some("dark") ==> ToggledTheme(Some(ToggledTheme(theme))) == "light"
    ensures ToggledTheme(Some(ToggledTheme(theme))) != "system"
  {
  }

  datatype Icon = Sun | Moon

  /** The theme button as rendered: whether it has a click handler and
      which icon it shows. */
  datatype ThemeButtonView = ThemeButtonView(clickable: bool, icon: Icon)

  function ThemeButton(mounted: bool, theme: Option<string>): ThemeButtonView {
    if !mounted then ThemeButtonView(false, Sun)
    else ThemeButtonView(true, if theme == Some("dark") then Sun else Moon)
  }

  /** Before mount the button shows the sun and does nothing when pressed;
      after mount it shows the sun in the dark theme and the moon in any
      other. */
  lemma ThemeButtonStates(mounted: bool, theme: Option<string>)
    ensures ThemeButton(mounted, theme).clickable <==> mounted
    ensures !mounted ==> ThemeButton(mounted, theme).icon == Sun
    ensures mounted ==> (ThemeButton(mounted, theme).icon == Sun <==> theme == Some("dark"))
  {
  }

  // ---------------------------------------------------------------- scroll

  /** How far down the page has to be for the header to change style. */
  const ScrollThreshold := 10.0

  function IsScrolled(scrollY: real): (b: bool)
    ensures b <==> scrollY > ScrollThreshold
  {
    scrollY > ScrollThreshold
  }

  // ---------------------------------------------------------------- mobile menu

  /** What can happen to the mobile menu. */
  datatype MenuEvent =
    | MenuButton              // the hamburger / close button
    | RouteChanged            // `pathname` changed
    | SubItemClicked          // a sub-item link in the mobile menu
    | SignInClicked
    | GetStartedClicked
    | TopLevelClicked(hasSubItems: bool)

  /** `isOpen` after one event. A top-level link's own handler never
      closes the menu: it only prevents navigation when the item has
      sub-items; any navigation it triggers shows up as `RouteChanged`. */
  function MenuStep(isOpen: bool, e: MenuEvent): bool {
    match e
    case MenuButton => !isOpen
    case RouteChanged => false
    case SubItemClicked => false
    case SignInClicked => false
    case GetStartedClicked => false
    case TopLevelClicked(_) => isOpen
  }

  /** Whether the top-level link's click handler cancels the navigation. */
  function Prevented(e: MenuEvent): (b: bool)
    ensures b <==> e.TopLevelClicked? && e.hasSubItems
  {
    e.TopLevelClicked? && e.hasSubItems
  }

  /** The menu button flips the menu, the route change and the three menu
      links close it, and a top-level click leaves it as it was. */
  lemma MenuTransitions(isOpen: bool, e: MenuEvent)
    ensures e.MenuButton? ==> MenuStep(isOpen, e) == !isOpen
    ensures e.TopLevelClicked? ==> MenuStep(isOpen, e) == isOpen
    ensures !e.MenuButton? && !e.TopLevelClicked? ==> !MenuStep(isOpen, e)
  {
  }

  /** `isOpen` after a run of events. */
  function MenuAfter(isOpen: bool, events: seq<MenuEvent>): bool
    decreases |events|
  {
    if events == [] then isOpen else MenuAfter(MenuStep(isOpen, events[0]), events[1..])
  }

  /** The number of menu-button presses after the last closing event (or
      since the start, when there is none). */
  function PressesSinceClose(events: seq<MenuEvent>): nat
    decreases |events|
  {
    if events == [] then 0
    else
      var last := events[|events| - 1];
      if last.MenuButton? then PressesSinceClose(events[..|events| - 1]) + 1
      else if last.TopLevelClicked? then PressesSinceClose(events[..|events| - 1])
      else 0
  }

  /** Whether the run contains a closing event. */
  predicate HasClose(events: seq<MenuEvent>) {
    exists k :: 0 <= k < |events| && !events[k].MenuButton? && !events[k].TopLevelClicked?
  }

  lemma {:induction false} MenuAfterSnoc(isOpen: bool, events: seq<MenuEvent>, e: MenuEvent)
    ensures MenuAfter(isOpen, events + [e]) == MenuStep(MenuAfter(isOpen, events), e)
    decreases |events|
  {
    if events == [] {
      assert events + [e] == [e];
    } else {
      assert (events + [e])[1..] == events[1..] + [e];
      MenuAfterSnoc(MenuStep(isOpen, events[0]), events[1..], e);
    }
  }

  /** The open state after any run of events: an odd number of button
      presses since the last closing event means open; with no closing
      event at all the initial state counts too. */
  lemma {:induction false} MenuAfterParity(isOpen: bool, events: seq<MenuEvent>)
    ensures HasClose(events) ==> (MenuAfter(isOpen, events) <==> PressesSinceClose(events) % 2 == 1)
    ensures !HasClose(events) ==> (MenuAfter(isOpen, events) <==> (isOpen <==> PressesSinceClose(events) % 2 == 0))
    decreases |events|
  {
    if events != [] {
      var init := events[..|events| - 1];
      var last := events[|events| - 1];
      assert events == init + [last];
      MenuAfterSnoc(isOpen, init, last);
      MenuAfterParity(isOpen, init);
      if HasClose(init) {
        var k :| 0 <= k < |init| && !init[k].MenuButton? && !init[k].TopLevelClicked?;
        assert events[k] == init[k];
      }
      if HasClose(events) && (last.MenuButton? || last.TopLevelClicked?) {
        var k :| 0 <= k < |events| && !events[k].MenuButton? && !events[k].TopLevelClicked?;
        assert k < |init| && init[k] == events[k];
      }
    }
  }

  /** The navigation bar's state. `scrollWrites` counts the calls to
      `setScrolled`, so that the model can state when the header is
      re-rendered. */
  class NavbarState {
    var isOpen: bool
    var scrolled: bool
    var theme: Option<string>
    var buttonMounted: bool
    ghost var scrollWrites: nat

    constructor (theme: Option<string>)
      ensures !isOpen && !scrolled && !buttonMounted && this.theme == theme && scrollWrites == 0
    {
      isOpen := false;
      scrolled := false;
      this.theme := theme;
      buttonMounted := false;
      scrollWrites := 0;
    }

    /** The theme button's mount effect. */
    method MountThemeButton()
      modifies this
      ensures buttonMounted
      ensures isOpen == old(isOpen) && scrolled == old(scrolled) && theme == old(theme)
    {
      buttonMounted := true;
    }

    /** A press on the theme button: ignored before mount. */
    method PressThemeButton()
      modifies this
      ensures old(buttonMounted) ==> theme == Some(ToggledTheme(old(theme)))
      ensures !old(buttonMounted) ==> theme == old(theme)
      ensures isOpen == old(isOpen) && scrolled == old(scrolled) && buttonMounted == old(buttonMounted)
    {
      if ThemeButton(buttonMounted, theme).clickable {
        theme := Some(if theme == Some("dark") then "light" else "dark");
      }
    }

    /** `handleScroll`: the flag is written only when it changes. */
    method HandleScroll(scrollY: real)
      modifies this
      ensures scrolled == IsScrolled(scrollY)
      ensures scrollWrites == old(scrollWrites) + (if IsScrolled(scrollY) != old(scrolled) then 1 else 0)
      ensures isOpen == old(isOpen) && theme == old(theme) && buttonMounted == old(buttonMounted)
    {
      var isScrolled := scrollY > 10.0;
      if isScrolled != scrolled {
        scrolled := isScrolled;
        scrollWrites := scrollWrites + 1;
      }
    }

    /** One menu event; returns whether the default navigation was
      prevented. */
    method HandleMenuEvent(e: MenuEvent) returns (prevented: bool)
      modifies this
      ensures isOpen == MenuStep(old(isOpen), e)
      ensures prevented == Prevented(e)
      ensures scrolled == old(scrolled) && theme == old(theme) && buttonMounted == old(buttonMounted)
    {
      prevented := false;
      match e {
        case MenuButton => isOpen := !isOpen;
        case RouteChanged => isOpen := false;
        case SubItemClicked => isOpen := false;
        case SignInClicked => isOpen := false;
        case GetStartedClicked => isOpen := false;
        case TopLevelClicked(hasSubItems) =>
          if hasSubItems {
            prevented := true;
          }
      }
    }
  }

  /** How many writes to `scrolled` a run of scroll events causes. */
  function ScrollWrites(scrolled: bool, ys: seq<real>): nat
    decreases |ys|
  {
    if ys == [] then 0
    else (if IsScrolled(ys[0]) != scrolled then 1 else 0) + ScrollWrites(IsScrolled(ys[0]), ys[1..])
  }

  /** Scrolling around on one side of the threshold writes the flag at
      most once: only the first event that crosses it does. */
  lemma {:induction false} OneSideWritesOnce(scrolled: bool, ys: seq<real>, side: bool)
    requires forall k :: 0 <= k < |ys| ==> IsScrolled(ys[k]) == side
    ensures ScrollWrites(scrolled, ys) == (if ys != [] && scrolled != side then 1 else 0)
    decreases |ys|
  {
    if ys != [] {
      OneSideWritesOnce(side, ys[1..], side);
    }
  }
}
