/**
 * The bottom navigation bar. It holds no state: it turns a click or a long
 * press on one of its five buttons into a requested screen, and marks the
 * button of the current screen as active.
 */
module BottomNavigation {
  import opened Wrappers
  import opened Screens
  import Marks

  datatype NavItem = NavItem(id: Screen, caption: string)

  /** The five buttons, left to right. */
  const NavItems: seq<NavItem> := [
    NavItem(Home, "Home"),
    NavItem(Gallery, "Gallery"),
    NavItem(Reels, "Reels"),
    NavItem(Search, "Search"),
    NavItem(Settings, "Settings")
  ]

  /** A user action on the button at `index`: a tap, or a long press (a context-menu event or a touch held for 800 ms). */
  datatype NavEvent = Click(index: nat) | LongPress(index: nat)

  /** Events only come from the buttons that are rendered. */
  predicate IsButtonEvent(e: NavEvent)
  {
    e.index < |NavItems|
  }

  /** The bar has five buttons with distinct ids, in the order home, gallery, reels, search, settings. */
  lemma NavItemsShape()
    ensures |NavItems| == 5
    ensures NavItems[0].id == Home && NavItems[1].id == Gallery && NavItems[2].id == Reels
    ensures NavItems[3].id == Search && NavItems[4].id == Settings
    ensures forall i, j :: 0 <= i < j < |NavItems| ==> NavItems[i].id != NavItems[j].id
    ensures forall i :: 0 <= i < |NavItems| ==> NavItems[i].id != Admin
  {
  }

  /** `handleLongPress`: a long press on settings asks for the admin screen; on any other button it asks for nothing. */
  function HandleLongPress(screenId: Screen): (request: Option<Screen>)
    ensures request.Some? <==> screenId == Settings
    ensures request.Some? ==> request.value == Admin
  {
    if screenId == Settings then Some(Admin) else None
  }

  /** The screen an event asks `onScreenChange` for, if any. */
  function RequestedScreen(e: NavEvent): (request: Option<Screen>)
    requires IsButtonEvent(e)
    ensures e.Click? ==> request == Some(NavItems[e.index].id)
    ensures e.LongPress? ==> (request.Some? <==> NavItems[e.index].id == Settings)
    ensures e.LongPress? && request.Some? ==> request.value == Admin
  {
    match e
    case Click(i) => Some(NavItems[i].id)
    case LongPress(i) => HandleLongPress(NavItems[i].id)
  }

  /** Only the long press on the settings button (index 4) requests the admin screen. */
  lemma AdminOnlyByLongPressOnSettings(e: NavEvent)
    requires IsButtonEvent(e)
    ensures RequestedScreen(e) == Some(Admin) <==> e == LongPress(4)
  {
  }

  /** Which buttons are drawn as active for the current screen. */
  function ActiveMarks(currentScreen: Screen): (marks: seq<bool>)
    ensures |marks| == |NavItems|
    ensures forall i :: 0 <= i < |marks| ==> (marks[i] <==> NavItems[i].id == currentScreen)
  {
    seq(|NavItems|, i requires 0 <= i < |NavItems| => NavItems[i].id == currentScreen)
  }

  /** The position of a listed screen's button. */
  function IndexOf(screen: Screen): (i: nat)
    requires screen != Admin
    ensures i < |NavItems| && NavItems[i].id == screen
  {
    match screen
    case Home => 0
    case Gallery => 1
    case Reels => 2
    case Search => 3
    case Settings => 4
  }

  /** Exactly the current screen's button is active; on the admin screen no button is. */
  lemma ActiveButton(currentScreen: Screen)
    ensures currentScreen != Admin ==> Marks.OnlyMarked(ActiveMarks(currentScreen), IndexOf(currentScreen))
    ensures currentScreen == Admin ==> Marks.NoneMarked(ActiveMarks(currentScreen))
    ensures Marks.CountMarked(ActiveMarks(currentScreen)) == if currentScreen == Admin then 0 else 1
  {
    NavItemsShape();
    var marks := ActiveMarks(currentScreen);
    if currentScreen == Admin {
      Marks.NoneMarkedCountsZero(marks);
    } else {
      Marks.OnlyMarkedCountsOne(marks, IndexOf(currentScreen));
    }
  }
}
