/**
 * The app shell: which screen is shown and the category the gallery is
 * opened with (shown in its header; the card list does not depend on it).
 * Three handlers change the two fields; the screen shown is a dispatch over
 * the current screen with a default arm.
 */
module MainApp {
  import opened Wrappers
  import opened Screens
  import BottomNavigation

  /** The view the shell renders. */
  datatype View =
    | CategoryGridView
    | WallpaperGalleryView(categoryId: Option<string>)
    | ReelsView
    | SearchView
    | SettingsView

  /** `renderScreen`: each listed screen has its own view; any other value falls through to the category grid. */
  function RenderScreen(screen: Screen, selectedCategory: Option<string>): (view: View)
    ensures view.WallpaperGalleryView? <==> screen == Gallery
    ensures view.WallpaperGalleryView? ==> view.categoryId == selectedCategory
    ensures view == CategoryGridView <==> screen == Home || screen == Admin
    ensures view == ReelsView <==> screen == Reels
    ensures view == SearchView <==> screen == Search
    ensures view == SettingsView <==> screen == Settings
  {
    match screen
    case Home => CategoryGridView
    case Gallery => WallpaperGalleryView(selectedCategory)
    case Reels => ReelsView
    case Search => SearchView
    case Settings => SettingsView
    case _ => CategoryGridView
  }

  /** Distinct listed screens render distinct views; the admin request renders what home does. */
  lemma RenderScreenDistinct(a: Screen, b: Screen, selectedCategory: Option<string>)
    requires a != Admin && b != Admin && a != b
    ensures RenderScreen(a, selectedCategory) != RenderScreen(b, selectedCategory)
    ensures RenderScreen(Admin, selectedCategory) == RenderScreen(Home, selectedCategory)
  {
  }

  class NavigationState {
    var currentScreen: Screen
    var selectedCategory: Option<string>

    constructor ()
      ensures currentScreen == Home && selectedCategory == None
    {
      currentScreen := Home;
      selectedCategory := None;
    }

    /** A category picked on the home grid opens the gallery with that category. */
    method HandleCategorySelect(categoryId: string)
      modifies this
      ensures currentScreen == Gallery && selectedCategory == Some(categoryId)
    {
      selectedCategory := Some(categoryId);
      currentScreen := Gallery;
    }

    /** The gallery's back button returns home and clears the category. */
    method HandleBackToHome()
      modifies this
      ensures currentScreen == Home && selectedCategory == None
    {
      currentScreen := Home;
      selectedCategory := None;
    }

    /** The navigation bar's `onScreenChange`: only the screen changes. */
    method SetCurrentScreen(screen: Screen)
      modifies this
      ensures currentScreen == screen && selectedCategory == old(selectedCategory)
    {
      currentScreen := screen;
    }

    /** An event on the navigation bar, wired to `SetCurrentScreen`. */
    method HandleNavEvent(e: BottomNavigation.NavEvent)
      requires BottomNavigation.IsButtonEvent(e)
      modifies this
      ensures BottomNavigation.RequestedScreen(e).None? ==> currentScreen == old(currentScreen)
      ensures BottomNavigation.RequestedScreen(e).Some? ==> currentScreen == BottomNavigation.RequestedScreen(e).value
      ensures selectedCategory == old(selectedCategory)
    {
      var request := BottomNavigation.RequestedScreen(e);
      if request.Some? {
        SetCurrentScreen(request.value);
      }
    }
  }

  /**
   * Pick a category, switch to settings with the bar, then back to the
   * gallery with the bar: the category is still selected while on settings,
   * and the gallery shows it again.
   */
  method CategorySurvivesBarNavigation(categoryId: string) returns (onSettings: Option<string>, shown: View)
    ensures onSettings == Some(categoryId)
    ensures shown == WallpaperGalleryView(Some(categoryId))
  {
    var app := new NavigationState();
    app.HandleCategorySelect(categoryId);
    app.HandleNavEvent(BottomNavigation.Click(4));
    onSettings := app.selectedCategory;
    app.HandleNavEvent(BottomNavigation.Click(1));
    shown := RenderScreen(app.currentScreen, app.selectedCategory);
  }

  /** A long press on settings, from any screen, shows the category grid (the admin request hits the default arm). */
  method LongPressSettingsShowsHome(start: Screen, category: Option<string>) returns (shown: View)
    ensures shown == CategoryGridView
  {
    var app := new NavigationState();
    app.currentScreen, app.selectedCategory := start, category;
    app.HandleNavEvent(BottomNavigation.LongPress(4));
    shown := RenderScreen(app.currentScreen, app.selectedCategory);
  }

  /** Back to home from the gallery always lands on the category grid with no category. */
  method BackToHomeClears(categoryId: string) returns (shown: View, category: Option<string>)
    ensures shown == CategoryGridView && category == None
  {
    var app := new NavigationState();
    app.HandleCategorySelect(categoryId);
    app.HandleBackToHome();
    shown := RenderScreen(app.currentScreen, app.selectedCategory);
    category := app.selectedCategory;
  }
}
