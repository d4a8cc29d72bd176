/**
 * The banner advertisement slot. Its settings are fixed at their initial
 * values (nothing ever changes them); the banner shows on a page when banners
 * are enabled and the page is listed.
 */
module AdBanner {

  datatype AdSettings = AdSettings(bannerEnabled: bool, bannerPages: seq<string>)

  const DefaultAdSettings := AdSettings(true, ["home", "gallery", "reels", "search"])

  /** The banner is drawn on `page`. */
  predicate ShowsBanner(settings: AdSettings, page: string)
  {
    settings.bannerEnabled && page in settings.bannerPages
  }

  /** With the default settings the banner shows exactly on home, gallery, reels and search. */
  lemma DefaultPages(page: string)
    ensures ShowsBanner(DefaultAdSettings, page) <==> page in {"home", "gallery", "reels", "search"}
    ensures !ShowsBanner(DefaultAdSettings, "settings")
  {
  }

  /** With banners disabled no page shows one, whatever the list says. */
  lemma DisabledHidesAll(pages: seq<string>, page: string)
    ensures !ShowsBanner(AdSettings(false, pages), page)
  {
  }
}
