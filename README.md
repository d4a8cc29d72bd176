# Anime wallpaper app: session store and view state, in Dafny

This project models the logic of a mobile-first anime-wallpaper browsing app,
leaving the markup aside. It covers these parts:

- **Session store** (`UserManager`, `user_manager.dfy`). The app keeps a device
  id and a user record in the browser's local storage. The model holds that
  storage as a table (`map<string, Stored>`) inside the class
  `UserManager.UserStore`, and updates the table in place. Beside the class are
  pure functions (`AfterGetDeviceId`, `AfterSaveUser`, `AfterIncrementDownloads`)
  that say what each operation returns and which table it leaves. The lemmas
  that relate several operations are proved about these functions.
- **Navigation shell** (`MainApp`, `main_app.dfy`). It has two fields, the
  current screen and the selected category, and three handlers that change
  them. A render function dispatches on the screen and has a default arm.
- **Navigation bar** (`BottomNavigation`, `bottom_navigation.dfy`). It turns a
  tap or a long press on one of its five buttons into a requested screen, and
  marks the active button. The `Screen` type (`screens.dfy`) adds `Admin` to
  the five listed screens. `Admin` is the value a long press on settings
  requests, although the source's union type does not list it.
- **Reels carousel** (`ReelsViewer`, `reels_viewer.dfy`). Next and previous
  move round a fixed list of three reels.
- **Search screen** (`SearchScreen`, `search_screen.dfy`). A query produces
  either no mock results or eight deterministic ones.
- **Name-entry dialog** (`UserNameModal`, `user_name_modal.dfy`). Continue, or
  Enter, passes on the trimmed name, and only when that name is not empty.
  `Trim` models JavaScript's `String.prototype.trim`, including its set of
  white-space characters.
- **Banner slot** (`AdBanner`, `ad_banner.dfy`). A visibility predicate over
  fixed settings.
- **Gallery** (`WallpaperGallery`, `wallpaper_gallery.dfy`). A generated list
  of 24 cards, and the selection of one card for the viewer.
- **Admin console tabs** (`AdminPanel`, `admin_panel.dfy`). An active tab, and
  a content dispatch that falls back to the dashboard.

Helper modules:

- `Wrappers` holds `Option`, which stands for a value that may be `null`.
- `Decimal` renders a natural number in decimal, as `${n}` does in
  JavaScript. It also reads the rendering back, which proves that distinct
  numbers get distinct titles.
- `Marks` defines "exactly one entry is highlighted". The navigation bar, the
  reel progress bar and the admin menu all use it.

Inputs that the app gets from the environment are parameters of the model:

- the base-36 text of `Math.random()`;
- the result of the IP lookup;
- `Date.now()` and `new Date().toISOString()`;
- the outcome of the remote (Firestore) write.

## Behaviour of the code worth knowing

- The navigation bar's `onScreenChange` is `setCurrentScreen`, which writes
  only the screen. So a category picked on the home grid stays selected while
  the user visits other screens through the bar. Back in the gallery, the same
  category shows again (`MainApp.CategorySurvivesBarNavigation`). Only the
  gallery's back button clears it.
- `saveUser` overwrites whatever record is stored, a banned one included,
  with status active and 0 downloads (`UserManager.SaveUserOverwrites`). So
  the download count is monotonic only between saves.
- No local operation ever sets status banned (`UserManager.NoLocalBan`).
  Only the remote `banUser` does, and the local copy never sees it.
- `incrementDownloads` mirrors the local record to the remote copy through
  `updateUserInFirebase`, which writes its `status` along with `downloads`
  to every remote document with the same device id. The local status is
  always active, so a remote ban is undone on the device's next download.
- The gallery does not filter by the selected category. It builds the same
  24 cards whatever the category is, and shows the category only in its
  header.
- `getUser` calls `JSON.parse` on the stored text without a guard, so a
  corrupt record makes it throw rather than report "no user". The model stores
  typed records (`UserManager.WellFormed`) and makes no claim about corrupt
  data.
- The modelled files contain no view-count gate for interstitial ads, no
  first-run gate and no unban operation. A remote ban is still reversed in
  effect, by the mirror write described above.

## Model

| member | source | states |
|---|---|---|
| `UserManager.WellFormed` | src/utils/userManager.ts:34-77 | (predicate, no contract) the table invariant every operation keeps: the device key, when present, holds text, and the user key, when present, holds a user record |
| `UserManager.ToUpper` | src/utils/userManager.ts:20 | `toUpperCase` on base-36 text: same length, every character upper-cased pointwise, no lower-case letter left |
| `UserManager.Substr` | src/utils/userManager.ts:20 | `substr(start, length)`: the slice from `start` of at most `length` characters, empty when `start` is past the end |
| `UserManager.GenerateDeviceId` | src/utils/userManager.ts:19-21 | a generated id starts with "DEV", has at most 12 characters (exactly 12 when the random text is long enough), and has no lower-case letter after "DEV" |
| `UserManager.ToUpperOfBase36` | src/utils/userManager.ts:20 | upper-casing base-36 digits yields only digits and capital letters |
| `UserManager.GeneratedIdAlphabet` | src/utils/userManager.ts:19-21 | for random text "0." + base-36 digits, the id's suffix uses only `0-9A-Z` |
| `UserManager.DeviceIdIn` | src/utils/userManager.ts:35-36 | a device id counts as stored exactly when its key holds a non-empty (truthy) string |
| `UserManager.AfterGetDeviceId` | src/utils/userManager.ts:34-41 | afterwards the device key holds the returned id; a stored id is returned and nothing is written; otherwise the generated id is written; no other key changes |
| `UserManager.GetDeviceIdStable` | src/utils/userManager.ts:34-41 | a second `getDeviceId` returns the first one's id and leaves the table as it was |
| `UserManager.UserIn` | src/utils/userManager.ts:74-77 | `getUser` returns a record exactly when the user key is present, and it is the stored record |
| `UserManager.IsFirstTimeIn` | src/utils/userManager.ts:79-81 | (predicate, no contract) `!getUser()`: no user record is stored |
| `UserManager.IsBannedIn` | src/utils/userManager.ts:111-114 | (predicate, no contract) `user?.status === 'banned'`, false without a user: a record is stored and its status is banned; `IsBannedInMeaning` unfolds it |
| `UserManager.IsBannedInMeaning` | src/utils/userManager.ts:111-114 | banned iff a record is stored whose status is banned; with no record, not banned |
| `UserManager.IpAddressOf` | src/utils/userManager.ts:23-32 | a failed lookup yields "Unknown"; a successful one yields the looked-up address |
| `UserManager.DatePart` | src/utils/userManager.ts:52 | `split('T')[0]`: the prefix of the timestamp before its first 'T' |
| `UserManager.AfterSaveUser` | src/utils/userManager.ts:43-71 | the stored record is the returned one; it has the given name, the (kept or new) device id, the looked-up or "Unknown" address, status active and 0 downloads; only the two keys change |
| `UserManager.AfterIncrementDownloads` | src/utils/userManager.ts:83-92 | with a record, its downloads rise by exactly 1 and every other field stays; without one, the table is unchanged; only the user key can change |
| `UserManager.AfterIncrements` | src/utils/userManager.ts:83-92 | `incrementDownloads` called n times in a row keeps the table well formed; `IncrementsAddUp` states what it does to the record |
| `UserManager.IncrementsAddUp` | src/utils/userManager.ts:83-92 | n increments raise downloads by exactly n and leave the rest of the record and the table unchanged |
| `UserManager.DownloadsCountFromSave` | src/utils/userManager.ts:43-92 | after `saveUser` and n increments, the record is the saved one with downloads = n |
| `UserManager.FirstTimeUntilSaved` | src/utils/userManager.ts:43-81 | an empty table is a first-time user's; right after `saveUser` it is not |
| `UserManager.DeviceIdKept` | src/utils/userManager.ts:34-92 | once a device id is stored, `getDeviceId`, `saveUser` and `incrementDownloads` all keep it |
| `UserManager.NoLocalBan` | src/utils/userManager.ts:34-92 | no local operation turns a non-banned table into a banned one |
| `UserManager.IncrementKeepsStatus` | src/utils/userManager.ts:83-92 | `incrementDownloads` does not change whether the user is banned |
| `UserManager.SaveUserOverwrites` | src/utils/userManager.ts:47-58 | after `saveUser` the user is not banned and downloads are 0, whatever was stored before |
| `UserManager.UserStore.constructor` | src/utils/userManager.ts:34-77 | the store starts over the table left by earlier runs, which must be well formed |
| `UserManager.UserStore.GetDeviceId` | src/utils/userManager.ts:34-41 | returns the id the device key now holds; the table changes only when no id was stored |
| `UserManager.UserStore.SaveUser` | src/utils/userManager.ts:43-72 | writes and returns the new active record with 0 downloads; the remote outcome has no effect on the result or on the table |
| `UserManager.UserStore.GetUser` | src/utils/userManager.ts:74-77 | returns the stored record, or none when the key is absent |
| `UserManager.UserStore.IsFirstTimeUser` | src/utils/userManager.ts:79-81 | true exactly when no user record is stored |
| `UserManager.UserStore.IncrementDownloads` | src/utils/userManager.ts:83-92 | changes the table in place, as `AfterIncrementDownloads` describes |
| `UserManager.UserStore.IsUserBanned` | src/utils/userManager.ts:111-114 | true exactly when a stored record has status banned |
| `Decimal.NatToString` | src/components/SearchScreen.tsx:14 | the decimal rendering of a number is non-empty, all digits, and has no leading zero |
| `Decimal.ValueOfNatToString` | src/components/SearchScreen.tsx:14 | reading back the rendering of n gives n |
| `Decimal.NatToStringInjective` | src/components/WallpaperGallery.tsx:16 | distinct numbers render differently |
| `MainApp.RenderScreen` | src/components/MainApp.tsx:26-41 | each of the five screens has its own view; the gallery gets the selected category; any other value (admin) shows the category grid |
| `MainApp.RenderScreenDistinct` | src/components/MainApp.tsx:26-41 | distinct listed screens render distinct views; admin renders what home renders |
| `MainApp.NavigationState.constructor` | src/components/MainApp.tsx:13-14 | starts on home with no category selected |
| `MainApp.NavigationState.HandleCategorySelect` | src/components/MainApp.tsx:16-19 | picking category c opens the gallery with c selected |
| `MainApp.NavigationState.HandleBackToHome` | src/components/MainApp.tsx:21-24 | back goes to home and clears the category |
| `MainApp.NavigationState.SetCurrentScreen` | src/components/MainApp.tsx:48 | a bar change sets the screen and leaves the category untouched |
| `MainApp.NavigationState.HandleNavEvent` | src/components/MainApp.tsx:48 | a bar event moves to the requested screen, or changes nothing when no screen is requested; the category stays |
| `MainApp.CategorySurvivesBarNavigation` | src/components/MainApp.tsx:16-48 | pick c, go to settings, return to the gallery: c is still selected on settings and the gallery shows c |
| `MainApp.LongPressSettingsShowsHome` | src/components/MainApp.tsx:38-39 | a long press on settings, from any state, shows the category grid |
| `MainApp.BackToHomeClears` | src/components/MainApp.tsx:21-29 | back from a category's gallery shows the category grid with no category selected |
| `BottomNavigation.NavItemsShape` | src/components/BottomNavigation.tsx:11-17 | five buttons with distinct ids in the order home, gallery, reels, search, settings; none is admin |
| `BottomNavigation.IsButtonEvent` | src/components/BottomNavigation.tsx:31-46 | (predicate, no contract) events come only from one of the five rendered buttons |
| `BottomNavigation.HandleLongPress` | src/components/BottomNavigation.tsx:20-25 | a long press requests a screen iff it is on settings, and that screen is admin |
| `BottomNavigation.RequestedScreen` | src/components/BottomNavigation.tsx:34-38 | a tap requests exactly its button's id; a long press requests admin on settings and nothing elsewhere |
| `BottomNavigation.AdminOnlyByLongPressOnSettings` | src/components/BottomNavigation.tsx:20-38 | admin is requested exactly by a long press on the settings button |
| `BottomNavigation.ActiveMarks` | src/components/BottomNavigation.tsx:47-63 | one mark per button, set exactly on the button whose id is the current screen |
| `BottomNavigation.ActiveButton` | src/components/BottomNavigation.tsx:47-63 | exactly the current screen's button is active; on admin no button is |
| `ReelsViewer.NextIndex` | src/components/ReelsViewer.tsx:31-33 | next stays in range, steps forward by one, and wraps from the last index to 0 |
| `ReelsViewer.PrevIndex` | src/components/ReelsViewer.tsx:35-37 | previous stays in range, steps back by one, and wraps from 0 to the last index |
| `ReelsViewer.NextPrevRoundTrip` | src/components/ReelsViewer.tsx:31-37 | previous undoes next, and next undoes previous |
| `ReelsViewer.NextTimes` | src/components/ReelsViewer.tsx:31-33 | next pressed k times stays in range |
| `ReelsViewer.NextTimesWithinLap` | src/components/ReelsViewer.tsx:31-33 | k ≤ n nexts move k places on, wrapping past the end at most once |
| `ReelsViewer.FullCycle` | src/components/ReelsViewer.tsx:31-33 | taking next once per reel returns to the start |
| `ReelsViewer.NextTimesCompose` | src/components/ReelsViewer.tsx:31-33 | a nexts followed by b nexts equal a + b nexts |
| `ReelsViewer.NextTimesPeriodic` | src/components/ReelsViewer.tsx:31-33 | an extra full lap of nexts changes nothing |
| `ReelsViewer.ProgressSegments` | src/components/ReelsViewer.tsx:105-111 | one progress segment per reel |
| `ReelsViewer.OneSegmentHighlighted` | src/components/ReelsViewer.tsx:105-111 | exactly one progress segment is highlighted, the current reel's |
| `ReelsViewer.Carousel.constructor` | src/components/ReelsViewer.tsx:5-29 | three reels, starting at index 0 |
| `ReelsViewer.Carousel.NextReel` | src/components/ReelsViewer.tsx:31-33 | the index moves by `NextIndex` and stays in range |
| `ReelsViewer.Carousel.PrevReel` | src/components/ReelsViewer.tsx:35-37 | the index moves by `PrevIndex` and stays in range |
| `ReelsViewer.Carousel.Current` | src/components/ReelsViewer.tsx:42-48 | the reel drawn is one of the list's |
| `ReelsViewer.NextThreeTimes` | src/components/ReelsViewer.tsx:5-33 | three nexts from a fresh viewer visit 0, 1, 2 and come back to 0 |
| `SearchScreen.MockResult` | src/components/SearchScreen.tsx:12-21 | (function, no contract) result i for a query: id i+1, the title "<query> Wallpaper <i+1>" and palette entry i mod 4 |
| `SearchScreen.MockResults` | src/components/SearchScreen.tsx:11-25 | the empty query has no results; any other query, whitespace included, has exactly 8 |
| `SearchScreen.MockResultsEntries` | src/components/SearchScreen.tsx:12-20 | result i has id i+1, the title "<query> Wallpaper <i+1>" and palette entry i mod 4 |
| `SearchScreen.GradientsCycle` | src/components/SearchScreen.tsx:15-20 | two results share a gradient exactly when they are four places apart |
| `SearchScreen.GradientStep` | src/components/SearchScreen.tsx:20 | below 8, i mod 4 and j mod 4 pick the same palette entry iff j - i = 4 |
| `SearchScreen.PaletteDistinct` | src/components/SearchScreen.tsx:15-20 | the four palette entries are distinct |
| `SearchScreen.MockResultsDistinct` | src/components/SearchScreen.tsx:12-14 | distinct results have distinct ids and distinct titles |
| `SearchScreen.ShowsPopularSearches` | src/components/SearchScreen.tsx:50 | (predicate, no contract) the popular-searches panel shows while the query is empty |
| `SearchScreen.ShowsResults` | src/components/SearchScreen.tsx:68 | (predicate, no contract) the results grid shows while there are results |
| `SearchScreen.ShowsEmptyState` | src/components/SearchScreen.tsx:93 | (predicate, no contract) the "No results" panel shows for a non-empty query with no results |
| `SearchScreen.OnePanelShown` | src/components/SearchScreen.tsx:50-68 | after any search, the popular searches show iff the results grid does not, and the grid holds 8 results |
| `SearchScreen.EmptyStateUnreachable` | src/components/SearchScreen.tsx:93 | the "No results" panel never shows |
| `SearchScreen.SearchState.constructor` | src/components/SearchScreen.tsx:5-6 | starts with an empty query and no results |
| `SearchScreen.SearchState.HandleSearch` | src/components/SearchScreen.tsx:8-26 | stores the query verbatim, and the results that query produces |
| `SearchScreen.SearchTwiceSameState` | src/components/SearchScreen.tsx:8-26 | the same query twice leaves the same results, whatever came before |
| `UserNameModal.SkipForward` | src/components/UserNameModal.tsx:14 | the first position at or after i that is not white space |
| `UserNameModal.SkipBackward` | src/components/UserNameModal.tsx:14 | the end of the text before j once trailing white space is dropped |
| `UserNameModal.Trim` | src/components/UserNameModal.tsx:14-15 | the trimmed name neither starts nor ends with white space, and is empty iff the name is all white space |
| `UserNameModal.TrimIsSlice` | src/components/UserNameModal.tsx:14-15 | the trimmed name is a slice of the name, with only white space cut off on each side |
| `UserNameModal.TrimIdempotent` | src/components/UserNameModal.tsx:14-15 | trimming twice is trimming once |
| `UserNameModal.HandleSave` | src/components/UserNameModal.tsx:13-17 | `onSave` is called iff the name is not all white space, and with the trimmed, non-empty name |
| `UserNameModal.HandleKeyPress` | src/components/UserNameModal.tsx:19-23 | Enter acts exactly as Continue does; other keys do nothing |
| `UserNameModal.ContinueDisabled` | src/components/UserNameModal.tsx:55 | (predicate, no contract) `!name.trim()`: the trimmed name is empty |
| `UserNameModal.DisabledIffNothingSaved` | src/components/UserNameModal.tsx:55 | Continue is disabled iff pressing it would save nothing, that is, iff the name is all white space |
| `UserNameModal.Render` | src/components/UserNameModal.tsx:25-55 | a closed dialog draws nothing; an open one shows the name and disables Continue exactly when saving would do nothing |
| `UserNameModal.NameForm.constructor` | src/components/UserNameModal.tsx:11 | the field starts empty |
| `UserNameModal.NameForm.OnChange` | src/components/UserNameModal.tsx:47 | the field holds exactly what was typed |
| `UserNameModal.BlankNameNotSaved` | src/components/UserNameModal.tsx:13-23 | typing only white space and pressing Enter never calls `onSave` |
| `AdBanner.ShowsBanner` | src/components/AdBanner.tsx:16-18 | (predicate, no contract) the banner draws when banners are enabled and the page is listed |
| `AdBanner.DefaultPages` | src/components/AdBanner.tsx:10-18 | with the default settings the banner shows exactly on home, gallery, reels and search, and not on settings |
| `AdBanner.DisabledHidesAll` | src/components/AdBanner.tsx:16 | with banners disabled no page shows one |
| `WallpaperGallery.WallpaperAt` | src/components/WallpaperGallery.tsx:14-27 | (function, no contract) card i: id i+1, the title "Anime Wallpaper <i+1>" and palette entry i mod 6 |
| `WallpaperGallery.Wallpapers` | src/components/WallpaperGallery.tsx:14 | the list holds 24 cards |
| `WallpaperGallery.WallpapersEntries` | src/components/WallpaperGallery.tsx:14-27 | card i has id i+1 (so every id is at least 1), the title "Anime Wallpaper <i+1>" and palette entry i mod 6 |
| `WallpaperGallery.WallpapersDistinct` | src/components/WallpaperGallery.tsx:14-16 | distinct cards have distinct ids and titles |
| `WallpaperGallery.LookupWallpaper` | src/components/WallpaperGallery.tsx:88-89 | `wallpapers[id - 1]?` finds a card iff 1 ≤ id ≤ 24, and that card has the id |
| `WallpaperGallery.LookupFindsCard` | src/components/WallpaperGallery.tsx:53-89 | looking up a card's id gives back that same card |
| `WallpaperGallery.Selection.constructor` | src/components/WallpaperGallery.tsx:11 | nothing is selected at first |
| `WallpaperGallery.Selection.SelectCard` | src/components/WallpaperGallery.tsx:53 | clicking card i selects its id |
| `WallpaperGallery.Selection.Close` | src/components/WallpaperGallery.tsx:104 | Close clears the selection |
| `WallpaperGallery.Selection.ViewerShown` | src/components/WallpaperGallery.tsx:84 | the truthiness test shows the viewer exactly when a card is selected, because no card id is 0 |
| `WallpaperGallery.Selection.ViewedWallpaper` | src/components/WallpaperGallery.tsx:84-89 | the viewer draws a card exactly when it is shown, and that card is the listed card with the selected id |
| `WallpaperGallery.OpenThenClose` | src/components/WallpaperGallery.tsx:53-104 | opening card i shows card i; after Close the viewer is hidden |
| `AdminPanel.RenderContent` | src/components/AdminPanel.tsx:154-163 | the wallpaper table is drawn iff the tab is "wallpapers"; every other tab draws the dashboard |
| `AdminPanel.MenuTabsRender` | src/components/AdminPanel.tsx:21-28 | of the six menu tabs, only the second (wallpapers) leaves the dashboard |
| `AdminPanel.MenuIdsDistinct` | src/components/AdminPanel.tsx:21-28 | the six tab ids are distinct |
| `AdminPanel.Highlights` | src/components/AdminPanel.tsx:183-184 | one mark per menu button, set exactly on the button whose id is the active tab |
| `AdminPanel.OneTabHighlighted` | src/components/AdminPanel.tsx:182-184 | the active tab's menu button is the only one highlighted |
| `AdminPanel.TabState.constructor` | src/components/AdminPanel.tsx:19 | the initial tab is "dashboard" |
| `AdminPanel.TabState.ClickMenuItem` | src/components/AdminPanel.tsx:182 | clicking a menu button makes its id the active tab, which stays one of the menu's |
| `AdminPanel.TabState.MenuHighlights` | src/components/AdminPanel.tsx:179-184 | in every reachable state the menu draws exactly one highlighted button, the active tab's |

## Left out

- Remote calls to the document store are not modelled: `addDoc`,
  `getDocs`, `updateDoc`, `updateUserInFirebase`, `banUser`, and
  src/config/firebase.ts. They are remote I/O through a library that is not
  shown. `SaveUser` takes the remote write's outcome as a parameter and
  ignores it, as the source does beyond logging. `banUser` writes only the
  remote copy, so no local operation models it. The code has no unban
  operation, but the status mirrored by `updateUserInFirebase` on each
  download (always active locally) undoes a remote ban in effect; that remote
  write is not modelled.
- The IP lookup (`fetch` to the IP service) is a parameter. The case where the
  service answers without an `ip` field (`data.ip` undefined) is not
  distinguished.
- `Math.random`, `Date.now` and `new Date` are parameters. The gallery's
  random download and like counts are not modelled.
- The JSON encoding of the stored record is not modelled; the table holds
  typed records. A stored text under the user key that is empty (read as
  "no user") or that is not JSON (`JSON.parse` throws) cannot be expressed.
- UserManager.ToUpper: upper-cases ASCII letters only. That is everything a
  base-36 rendering can contain, but not JavaScript's full Unicode case mapping.
- `downloads` is a JavaScript number. The model uses an unbounded natural, so
  there is no precision limit at 2^53.
- The `await` points inside `saveUser`, and any interleaving of concurrent
  calls, are not modelled; each operation runs as one step. React state
  updates are modelled as immediate assignments.
- Timers are not modelled: the 800 ms long-press detection is a discrete
  `LongPress` event, and the splash-screen delay is left out.
- The "k" formatting of like counts (`toFixed`) is not modelled, because it
  is floating point.
- Markup, styling, icons and static pages are not modelled: the category
  table, settings, terms, privacy and the Capacitor config. Category ids are
  taken as any string.
- What the parent does with the name passed to `onSave` is not modelled,
  because no caller of the dialog is among the modelled files.
- `setAdSettings` is never called, so the banner settings are a constant.
  They are also a parameter of `AdBanner.ShowsBanner`.
