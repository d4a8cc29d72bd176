/**
 * The admin console's tab state. A menu of six tabs sets the active tab; the
 * content area draws the wallpaper table for the wallpapers tab and the
 * dashboard for every other tab.
 */
module AdminPanel {
  import Marks

  datatype MenuItem = MenuItem(id: string, caption: string)

  const MenuItems: seq<MenuItem> := [
    MenuItem("dashboard", "Dashboard"),
    MenuItem("wallpapers", "Wallpapers"),
    MenuItem("categories", "Categories"),
    MenuItem("users", "Users"),
    MenuItem("upload", "Upload"),
    MenuItem("settings", "App Settings")
  ]

  const InitialTab := "dashboard"

  datatype AdminView = DashboardView | WallpaperTableView

  /** `renderContent`: the wallpaper table for "wallpapers", the dashboard otherwise. */
  function RenderContent(activeTab: string): (view: AdminView)
    ensures view == WallpaperTableView <==> activeTab == "wallpapers"
  {
    match activeTab
    case "dashboard" => DashboardView
    case "wallpapers" => WallpaperTableView
    case _ => DashboardView
  }

  /** Of the six menu tabs only the wallpapers tab leaves the dashboard. */
  lemma MenuTabsRender(i: nat)
    requires i < |MenuItems|
    ensures RenderContent(MenuItems[i].id) == (if i == 1 then WallpaperTableView else DashboardView)
  {
  }

  /** The six tab ids are distinct. */
  lemma MenuIdsDistinct()
    ensures |MenuItems| == 6
    ensures forall i, j :: 0 <= i < j < |MenuItems| ==> MenuItems[i].id != MenuItems[j].id
  {
  }

  /** Which menu buttons are highlighted for the active tab. */
  function Highlights(activeTab: string): (marks: seq<bool>)
    ensures |marks| == |MenuItems|
    ensures forall i :: 0 <= i < |marks| ==> (marks[i] <==> MenuItems[i].id == activeTab)
  {
    seq(|MenuItems|, i requires 0 <= i < |MenuItems| => MenuItems[i].id == activeTab)
  }

  /** The active menu tab's button is the only one highlighted. */
  lemma OneTabHighlighted(i: nat)
    requires i < |MenuItems|
    ensures Marks.OnlyMarked(Highlights(MenuItems[i].id), i)
    ensures Marks.CountMarked(Highlights(MenuItems[i].id)) == 1
  {
    MenuIdsDistinct();
    Marks.OnlyMarkedCountsOne(Highlights(MenuItems[i].id), i);
  }

  class TabState {
    var activeTab: string

    /** The active tab is always one of the menu's. */
    ghost predicate Valid()
      reads this
    {
      exists i :: 0 <= i < |MenuItems| && MenuItems[i].id == activeTab
    }

    constructor ()
      ensures Valid() && activeTab == InitialTab
    {
      activeTab := InitialTab;
      new;
      assert MenuItems[0].id == activeTab;
    }

    /** A click on the menu button at position `i`. */
    method ClickMenuItem(i: nat)
      requires i < |MenuItems|
      modifies this
      ensures Valid() && activeTab == MenuItems[i].id
    {
      activeTab := MenuItems[i].id;
    }

    /** The menu as drawn for the current tab: since the tab is one of the menu's, exactly one button is highlighted. */
    function MenuHighlights(): (marks: seq<bool>)
      requires Valid()
      reads this
      ensures |marks| == |MenuItems|
      ensures forall i :: 0 <= i < |marks| ==> (marks[i] <==> MenuItems[i].id == activeTab)
      ensures Marks.CountMarked(marks) == 1
    {
      assert Marks.CountMarked(Highlights(activeTab)) == 1 by {
        var i :| 0 <= i < |MenuItems| && MenuItems[i].id == activeTab;
        OneTabHighlighted(i);
      }
      Highlights(activeTab)
    }
  }
}
