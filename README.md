# Coffee-shop app: navigation, overlays, cafe locator and profile store

This project models the rule-bearing core of a Kivy/KivyMD coffee-shop app
and proves properties of that model. The widgets are abstracted away and what
is left is small state machines, string functions and record updates:

- **Screen navigation** (`RootApp` in `main.py`). The state is the current
  screen, the registered screen names and one remembered previous screen.
  `open_screen_by_name` records the previous screen, resolves menu keys
  through a fixed alias table, derives a screen class name, registers the
  screen once and switches to it. `go_back` returns to the previous screen or
  falls back to `main`. Both live in `navigation.dfy`: the transitions are the
  functions `Opened` and `WentBack` over a `NavState` value, and the class
  `Navigator` is proved to follow them.
- **Overlays** (`main.py`). The eight slide-in overlays are the side menu,
  mail, loyalty code, loyalty program, referral, drinks menu, gift and status.
  They are abstracted to the set of open kinds. Each `open_*` method closes a
  hard-coded list of peers. `_on_key_down` closes the first open overlay in a
  fixed priority order when Escape (27) or Back (1001) is pressed. See
  `overlays.dfy`.
- **Loyalty code** (`main.py`). The code shown in the loyalty overlay is the
  stored phone with `+ ( ) -` and spaces removed, `13037` when nothing is
  left, then cut or zero-padded to five characters. See `loyalty_code.dfy`.
- **Cafe locator** (`OurAddressesScreen`). A search over a fixed list of ten
  cafes is case-insensitive and matches the name or the address. The screen
  keeps a map with one marker per visible cafe, a list with one row per
  visible cafe or a "nothing found" row, a map/list toggle, and a focus
  action. See `addresses.dfy`, with the string helpers in `text.dfy`.
- **Profile store** (`db.py`). The SQLite table can hold only the row with
  id 1. It is modelled as a class holding an optional record
  `{name, phone, spentRub, bonus}`. See `profile_store.dfy`.
- **Profile screen** (`ProfileScreen`). It shows placeholders for an empty
  name or phone. Its own back rule differs from the app-level one. See
  `profile_screen.dfy`.
- **Purchase-history tabs** (`PurchaseHistoryScreen`). `order_type` decides
  which of the two tabs is highlighted; colours are abstracted to
  `Active`/`Inactive`. See `purchase_history.dfy`.

`wrappers.dfy` holds the `Option` type.

Kivy behaviour that the source relies on is made explicit:

- A property observer (`on_view_mode`, `on_search_text`, `on_order_type`)
  runs only when the value actually changes.
- Assigning `ScreenManager.current` to an unregistered name raises. The
  model's `Navigator.SwitchTo` refuses it and reports `false`.
- Python's `str.capitalize` lowercases the rest of the word.
- `str.zfill` keeps a leading sign in front of the zeros.
- `str.split` always yields at least one part.

### Where the code and the design description disagree

The code is followed throughout:

- **At most one overlay open.** The design description says at most one
  overlay is open at a time. The code's peer lists are not symmetric:
  `open_status_overlay` leaves the gift overlay open, and the side menu does
  not close the loyalty overlay. `Overlays.MoreThanOneCanBeOpen` proves that
  two overlays can be open together.
- **Back with no target.** The design describes an error when `go_back`
  finds neither a previous screen nor `main`. The code only logs it and
  leaves the current screen unchanged.
- **The profile's back button.** It does not check that the previous screen
  differs from the current one. After the app-level back returns to the
  profile, the profile's own back button therefore targets the profile
  itself. `Profile.ProfileBackCanStayPut` proves that this state is
  reachable.

## Model

| member | source | states |
|---|---|---|
| Navigation.Navigator.constructor | main.py:10-12 | the app starts with no remembered previous screen |
| Navigation.Navigator.SwitchTo | src/screens/profile_screen.py:48 | assigning the current screen succeeds exactly when the name is registered; otherwise nothing changes |
| Navigation.Navigator.OpenScreenByName | main.py:79-133 | the new state is `Opened(old state, key)`; a new screen is created only for an unregistered key, with class name `ClassName(ResolveAlias(key))`; the registry stays duplicate-free |
| Navigation.OpenedRecordsPrevious | main.py:83-85 | opening K from a different, non-empty current screen remembers that screen; opening the current screen or opening from an empty current leaves the remembered screen alone |
| Navigation.OpenedRegistersOnce | main.py:87-90 | after opening K, K is current and registered; a registered K is reused, otherwise K is appended exactly once and the registry stays duplicate-free |
| Navigation.OpenedIdempotent | main.py:83-90 | opening the same key twice in a row is the same as opening it once |
| Navigation.ResolveAliasIdempotent | main.py:94-110 | each menu key maps to its file name and other keys map to themselves; resolving twice equals resolving once |
| Navigation.JoinSplit | main.py:115 | splitting on `_` and joining back restores the name, and no part contains `_` |
| Navigation.ClassNameShape | main.py:114-115 | the derived class name ends in `Screen` and has no `_` before it |
| Navigation.ClassNameIgnoresCase | main.py:115 | the class name does not depend on the case of the base name |
| Navigation.TwoWordClassName | main.py:115 | a two-word name `a_b` becomes `Capitalize(a) + Capitalize(b) + "Screen"` |
| Navigation.PurchaseHistoryClassName | main.py:96 | the `history` key resolves to `purchase_history`, whose class name is `PurchaseHistoryScreen` |
| Navigation.Navigator.GoBack | main.py:41-73 | the new state is `WentBack(old state)`, and the remembered screen is never changed |
| Navigation.WentBackKeepsHistory | main.py:54-73 | back moves to the remembered screen exactly when it is set, differs from the current one and is registered; otherwise it goes to `main` or stays; it never moves to an unregistered screen; with neither target it changes nothing; the registry and the remembered screen are untouched |
| Navigation.BackAfterOpenReturns | main.py:54-60 | after opening a screen from a registered one, back returns to where it came from |
| Navigation.BackTwiceFallsHome | main.py:54-69 | pressing back a second time finds the previous screen equal to the current one and falls back to `main` |
| LoyaltyCode.RemoveChar | main.py:672 | one `.replace(c, "")` leaves no `c` and never lengthens the string |
| LoyaltyCode.KeepNonSeparators | main.py:672 | the reference filter keeps only characters other than `+ ( ) -` and space |
| LoyaltyCode.StripSeparatorsIsFilter | main.py:672 | the chain of five `.replace` calls equals the one-pass filter that drops the separators and keeps the rest in order |
| LoyaltyCode.RawCodeHasNoSeparators | main.py:672-674 | the cleaned phone contains no separator and is never empty |
| LoyaltyCode.ZFill | main.py:677 | zero-padding gives exactly the width when the string is shorter, returns a longer string unchanged, and keeps a leading sign first |
| LoyaltyCode.CodeShape | main.py:672-677 | the code always has five characters: the first five when there are at least five, otherwise the zero-padded cleaned phone |
| LoyaltyCode.EmptyPhoneGivesDefault | main.py:673-674 | a phone that is empty or made only of `+ ( ) -` and spaces gives the default code `13037` |
| LoyaltyCode.LongCodeExample | main.py:677 | `+7912345` gives `79123` |
| LoyaltyCode.ShortCodeExample | main.py:677 | `12-3` gives `00123` |
| LoyaltyCode.CodeIdempotent | main.py:672-677 | deriving the code from a code gives the same code |
| Overlays.FirstOpen | main.py:1481-1521 | the scan reports no index iff no kind in the order is open, and otherwise the first open one |
| Overlays.DismissClosesHighestPriority | main.py:1479-1522 | the dismiss key acts iff it is 27 or 1001 and some overlay is open; it then closes exactly one open overlay and every overlay ahead of it in the order status, gift, drinks, referral, loyalty program, loyalty, mail, menu was closed; otherwise nothing changes |
| Overlays.DismissRepeatedlyClosesAll | main.py:1479-1522 | pressing the dismiss key once per open overlay closes all of them |
| Overlays.OpenedChangesOnlyPeers | main.py:1413-1436 | opening an overlay makes it open, closes only the peers on its own list, and leaves every other overlay as it was |
| Overlays.OpenMenuEffect | main.py:135-155 | opening the side menu closes only the mail overlay |
| Overlays.OpenMailEffect | main.py:455-490 | opening mail closes only the side menu |
| Overlays.OpenLoyaltyEffect | main.py:654-666 | opening the loyalty code closes the mail overlay and the side menu, and nothing else |
| Overlays.OpenLoyaltyProgramEffect | main.py:759-783 | opening the loyalty program closes loyalty, referral, mail and menu; drinks, gift and status stay as they were |
| Overlays.OpenReferralEffect | main.py:850-874 | opening referral closes loyalty, loyalty program, mail and menu; drinks, gift and status stay |
| Overlays.OpenDrinksEffect | main.py:941-968 | opening the drinks menu closes every overlay except gift and status |
| Overlays.OpenGiftEffect | main.py:1139-1176 | opening the gift overlay closes every other overlay |
| Overlays.OpenStatusEffect | main.py:1401-1436 | opening the status overlay closes every other overlay except the gift overlay |
| Overlays.MoreThanOneCanBeOpen | main.py:1413-1430 | gift then status leaves both open, and loyalty then menu leaves both open |
| Overlays.OverlayController.Close | main.py:704-725 | closing removes the overlay from the open set; closing a closed or missing overlay changes nothing |
| Overlays.OverlayController.ClosePeers | main.py:1413-1430 | testing each listed peer and closing the open ones leaves exactly the open set minus the peer list |
| Overlays.OverlayController.Open | main.py:759-793 | when the overlay's widgets are found, the new open set is `Opened(old, k)`; otherwise nothing changes; the side menu, loyalty program, referral and drinks overlays always open once their container is found |
| Overlays.OverlayController.OpenLoyalty | main.py:654-702 | as `Open` for the loyalty overlay, which always opens once its container is found, and the code labels show the code derived from the stored phone |
| Overlays.OverlayController.OnKeyDown | main.py:1479-1522 | the handler reports true exactly when the dismiss key closed an overlay, and the new open set is `Dismissed(key, old)` |
| Text.StripSpec | src/screens/our_addresses_screen.py:146 | `strip()` is empty iff the text is all whitespace; otherwise the result neither starts nor ends with whitespace |
| Text.TrimStartSpec | src/screens/our_addresses_screen.py:146 | the left trim removes exactly the leading whitespace |
| Text.TrimEndSpec | src/screens/our_addresses_screen.py:146 | the right trim removes exactly the trailing whitespace |
| Text.ContainsAt | src/screens/our_addresses_screen.py:153 | Python's `in` on strings holds iff the needle occurs at some index of the haystack |
| Addresses.FilterSpec | src/screens/our_addresses_screen.py:149-154 | the filter keeps a cafe iff its lowercased name or address contains the query, and the result keeps the original order |
| Addresses.VisibleSpec | src/screens/our_addresses_screen.py:145-154 | a blank search shows every cafe in order; any other search shows exactly the matching cafes in order |
| Addresses.FilterAppend | src/screens/our_addresses_screen.py:150-154 | filtering a concatenation is the concatenation of the filtered parts |
| Addresses.FilterIdempotent | src/screens/our_addresses_screen.py:150-154 | filtering the filtered list again changes nothing |
| Addresses.FilterEmptyQueryKeepsAll | src/screens/our_addresses_screen.py:146-148 | the empty query would match every cafe, so the blank-query shortcut agrees with the filter |
| Addresses.SubsequenceLength | src/screens/our_addresses_screen.py:150-154 | a search never shows more cafes than there are |
| Addresses.InitialSearchShowsAll | src/screens/our_addresses_screen.py:70-88 | the screen starts with ten cafes, all of them visible |
| Addresses.RowsShape | src/screens/our_addresses_screen.py:186-205 | the list holds the placeholder alone when nothing is visible, otherwise one row per visible cafe, in order, with name and address |
| Addresses.OurAddressesScreen.constructor | src/screens/our_addresses_screen.py:83-88 | the screen starts in map mode with an empty search, all cafes visible, no markers and not initialized |
| Addresses.OurAddressesScreen.SyncToggleButtons | src/screens/our_addresses_screen.py:120-126 | each existing toggle is down iff the view mode is its mode |
| Addresses.OurAddressesScreen.OnViewMode | src/screens/our_addresses_screen.py:128-132 | the toggles and the view manager end up showing the current mode |
| Addresses.OurAddressesScreen.OnToggleState | src/screens/our_addresses_screen.py:115-118 | only a toggle pressed down on the other mode switches the mode, and then the toggles follow; anything else changes nothing |
| Addresses.OurAddressesScreen.PopulateMap | src/screens/our_addresses_screen.py:162-181 | with a map, the old markers are all removed and there is one new marker per visible cafe, centred on the first; without a map nothing changes |
| Addresses.OurAddressesScreen.PopulateList | src/screens/our_addresses_screen.py:186-205 | with a list, its rows become `RowsFor(visible)`; without one nothing changes |
| Addresses.OurAddressesScreen.ApplyFilters | src/screens/our_addresses_screen.py:145-157 | the visible cafes become `Visible(cafes, search)` and both views are redrawn from them |
| Addresses.OurAddressesScreen.UpdateSearch | src/screens/our_addresses_screen.py:137-143 | the same text changes nothing; new text is stored and the views are re-filtered |
| Addresses.OurAddressesScreen.FocusLocation | src/screens/our_addresses_screen.py:207-214 | without a map nothing changes; otherwise map mode, centred on the cafe, zoom `max(old, 13)`, so zoom never decreases; the toggles and the view manager are re-synced only when the mode actually changed to map |
| Addresses.OurAddressesScreen.EnsureInitialized | src/screens/our_addresses_screen.py:99-110 | the screen becomes initialized once both map and list exist and stays so; once initialized every call re-filters and re-syncs; before that nothing changes |
| ProfileStore.WithContactPartial | src/services/db.py:52-66 | a partial update overwrites exactly the supplied fields; supplying neither is a no-op; the counters are untouched |
| ProfileStore.SpentAccumulates | src/services/db.py:72-78 | two spends add up, e.g. 0 + 100 + 50 = 150 |
| ProfileStore.CountersIndependent | src/services/db.py:72-86 | adding spend and adding bonus commute, and neither touches the other or the contact fields |
| ProfileStore.Database.constructor | src/services/db.py:16-22 | before `init_db` the table holds no row |
| ProfileStore.Database.InitDb | src/services/db.py:16-38 | an empty table gets the row (`''`, `''`, 0, 0); an existing row is kept, so a second call changes nothing |
| ProfileStore.Database.GetUser | src/services/db.py:41-49 | returns the stored row, or the empty profile when there is no row; changes nothing |
| ProfileStore.Database.UpdateUser | src/services/db.py:52-69 | the stored row gets the partial update; with no row nothing changes |
| ProfileStore.Database.AddSpent | src/services/db.py:72-78 | only `spent_rub` grows by the amount, which may be negative |
| ProfileStore.Database.AddBonus | src/services/db.py:81-87 | only `bonus` grows by the points, which may be negative |
| ProfileStore.SpendTwice | src/services/db.py:72-78 | after `init_db`, spending 100 and then 50 leaves a row whose spend grew by 150 and whose bonus is unchanged |
| Profile.DisplayOrShown | src/screens/profile_screen.py:17-18 | an empty stored value shows the placeholder; any other value is shown unchanged |
| Profile.ProfileScreen.LoadUser | src/screens/profile_screen.py:15-18 | the screen shows the stored name or `Имя`, and the stored phone or `+7(000)000-00-00` |
| Profile.ProfileScreen.GoBack | src/screens/profile_screen.py:20-48 | without a manager nothing happens; without an app, go to `main` only if registered; otherwise switch to the previous screen if set and registered, else to `main`, which fails when `main` is not registered |
| Profile.BackTargetAgreesWithApp | src/screens/profile_screen.py:46 | when `main` is registered and the previous screen differs from the current one, the profile's back rule picks the same screen as the app-level rule |
| Profile.ProfileBackCanStayPut | src/screens/profile_screen.py:46-48 | a reachable state exists where the profile's back rule targets the current screen while the app-level rule goes to `main` |
| PurchaseHistory.ExactlyOneTabActive | src/screens/purchase_history_screen.py:22-27 | for any order type exactly one tab is active: the "all" tab for `all`, the mobile tab otherwise |
| PurchaseHistory.PurchaseHistoryScreen.constructor | src/screens/purchase_history_screen.py:10-14 | the order type starts as `all` and both tabs start with the active colour |
| PurchaseHistory.PurchaseHistoryScreen.UpdateTabColors | src/screens/purchase_history_screen.py:16-27 | with both tabs present they show `TabLooks(order type)`; with either missing nothing changes |
| PurchaseHistory.PurchaseHistoryScreen.SwitchOrderType | src/screens/purchase_history_screen.py:29-40 | the order type becomes the argument, and the tabs are repainted only when it changed |

## Left out

- Widget lookup (`_overlay_refs`, `_mail_refs`, `_loyalty_refs`, `_gift_refs`, `_status_refs` and their searches of the widget tree) depends on the live widget tree. It is reduced to two sets: the overlays whose container is found and the overlays whose widgets for opening are found. For the side menu and the loyalty, loyalty program, referral and drinks overlays the two coincide.
- Animations, panel geometry and `Clock.schedule_once` are left out. Closing is modelled as completing at once. The one deferred retry in `open_mail_overlay`, `open_gift_overlay` and `open_status_overlay` is folded into a single attempt. The side menu, enabled one tick later, is open as soon as it is opened.
- `_populate_random_mail` draws random senders and the current date, so it is not deterministic.
- `importlib`, `Builder.load_file` and the fallback to a bare `Screen` class are left out. The model records the class name a new screen would get, not the import.
- `go_back` when the app has no root screen manager is left out: the app always has one once built.
- `profile_logout`, `logout`, `overlay_nav`, the footer click handlers and `_on_screen_changed` are left out. They only log or call the modelled operations.
- SQLite connections, files and commits are left out. Only the row semantics are modelled.
- ProfileStore.Database.AddSpent: SQLite's 64-bit integer overflow is not modelled; the counters are unbounded integers.
- Overlays.OverlayController.OpenLoyalty: the stored phone is passed in, standing for the `get_user` call. Both code labels are one field, assumed present.
- Text.Lower: case mapping covers ASCII and the Russian alphabet (А–Я, Ё). Other letters are left unchanged, and Unicode special cases of `str.lower` are not modelled.
- Addresses.OurAddressesScreen.PopulateMap: marker tap callbacks and map rendering are not modelled. The map centre is a value and zoom is an integer, with no clamping by the map widget.
- Addresses.OurAddressesScreen.PopulateList: row tap callbacks are not modelled.
- Colours are abstracted to active and inactive tabs. Screen transitions, the `on_kv_post` and `on_pre_enter` scheduling of `_ensure_initialized` and `_update_tab_colors`, and logging are left out.
- Overlay state is not tied to screen changes: the source does not close overlays when the screen changes.
