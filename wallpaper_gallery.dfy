/**
 * The wallpaper gallery: a generated list of 24 cards and the id of the card
 * opened in the viewer, if any. Opening a card stores its id; the viewer looks
 * the card up again at position id - 1; Close clears the selection.
 */
module WallpaperGallery {
  import opened Wrappers
  import Decimal

  /** A card. The random download and like counts drawn for display are not part of the model. */
  datatype Wallpaper = Wallpaper(id: int, title: string, gradient: string)

  const GalleryPalette: seq<string> := [
    "from-red-400 to-pink-400",
    "from-blue-400 to-purple-400",
    "from-green-400 to-teal-400",
    "from-yellow-400 to-orange-400",
    "from-purple-400 to-indigo-400",
    "from-pink-400 to-rose-400"
  ]

  const WallpaperCount: nat := 24

  /** The card at position `i` (from zero). */
  function WallpaperAt(i: nat): Wallpaper
  {
    Wallpaper(i + 1, "Anime Wallpaper " + Decimal.NatToString(i + 1), GalleryPalette[i % 6])
  }

  /** The generated list of cards. */
  function Wallpapers(): (ws: seq<Wallpaper>)
    ensures |ws| == WallpaperCount
  {
    seq(WallpaperCount, i requires 0 <= i < WallpaperCount => WallpaperAt(i))
  }

  /** Card `i` has id i+1, the title "Anime Wallpaper <i+1>", and palette entry i mod 6; every id is at least 1. */
  lemma WallpapersEntries(i: nat)
    requires i < WallpaperCount
    ensures Wallpapers()[i].id == i + 1 >= 1
    ensures Wallpapers()[i].title == "Anime Wallpaper " + Decimal.NatToString(i + 1)
    ensures Wallpapers()[i].gradient == GalleryPalette[i % 6]
  {
  }

  /** Different cards have different ids and different titles. */
  lemma WallpapersDistinct(i: nat, j: nat)
    requires i < WallpaperCount && j < WallpaperCount && i != j
    ensures Wallpapers()[i].id != Wallpapers()[j].id
    ensures Wallpapers()[i].title != Wallpapers()[j].title
  {
    var prefix := "Anime Wallpaper ";
    var a, b := Decimal.NatToString(i + 1), Decimal.NatToString(j + 1);
    Decimal.NatToStringInjective(i + 1, j + 1);
    assert (prefix + a)[|prefix|..] == a && (prefix + b)[|prefix|..] == b;
  }

  /** `wallpapers[selectedWallpaper - 1]?`: the card at position id - 1, or nothing when out of range. */
  function LookupWallpaper(selected: int): (w: Option<Wallpaper>)
    ensures w.Some? <==> 1 <= selected <= WallpaperCount
    ensures w.Some? ==> w.value.id == selected
  {
    if 1 <= selected <= WallpaperCount then Some(Wallpapers()[selected - 1]) else None
  }

  /** Looking up a card's id finds that same card. */
  lemma LookupFindsCard(i: nat)
    requires i < WallpaperCount
    ensures LookupWallpaper(Wallpapers()[i].id) == Some(Wallpapers()[i])
  {
  }

  class Selection {
    var selectedWallpaper: Option<int>

    /** The selection only ever holds the id of a listed card. */
    ghost predicate Valid()
      reads this
    {
      selectedWallpaper.Some? ==> exists i :: 0 <= i < WallpaperCount && Wallpapers()[i].id == selectedWallpaper.value
    }

    constructor ()
      ensures Valid() && selectedWallpaper == None
    {
      selectedWallpaper := None;
    }

    /** A click on the card at position `i`. */
    method SelectCard(i: nat)
      requires i < WallpaperCount
      modifies this
      ensures Valid() && selectedWallpaper == Some(Wallpapers()[i].id)
    {
      selectedWallpaper := Some(Wallpapers()[i].id);
    }

    /** The viewer's Close button. */
    method Close()
      modifies this
      ensures Valid() && selectedWallpaper == None
    {
      selectedWallpaper := None;
    }

    /** `selectedWallpaper && ...`: the viewer shows when the selection is truthy, which for a card id means present. */
    function ViewerShown(): (shown: bool)
      requires Valid()
      reads this
      ensures shown <==> selectedWallpaper.Some?
    {
      selectedWallpaper.Some? && selectedWallpaper.value != 0
    }

    /** The card the viewer draws. */
    function ViewedWallpaper(): (w: Option<Wallpaper>)
      requires Valid()
      reads this
      ensures w.Some? <==> ViewerShown()
      ensures w.Some? ==> w.value.id == selectedWallpaper.value && w.value in Wallpapers()
    {
      if ViewerShown() then LookupWallpaper(selectedWallpaper.value) else None
    }
  }

  /** Opening card `i` shows that card in the viewer; closing hides the viewer. */
  method OpenThenClose(i: nat) returns (viewed: Option<Wallpaper>, afterClose: bool)
    requires i < WallpaperCount
    ensures viewed == Some(Wallpapers()[i])
    ensures !afterClose
  {
    var gallery := new Selection();
    gallery.SelectCard(i);
    viewed := gallery.ViewedWallpaper();
    gallery.Close();
    afterClose := gallery.ViewerShown();
  }
}
