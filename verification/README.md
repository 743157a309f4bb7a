# Firefox Screenshots: background rules and the My Shots page, in Dafny

Firefox Screenshots lets a user capture part of a web page, upload it to a
backend and browse saved shots on a gallery page ("My Shots"). This project
models the decision logic of two of its files and proves what that logic
promises:

- `addon/webextension/background/main.js`, the extension's background
  script (module `Background`, file `background.dfy`). It covers how the
  backend URL is found in the manifest's permissions and normalised, which of
  the three toolbar icons is shown, on which pages the toolbar button is
  enabled, how tab activation and tab updates enable or disable it, where a
  toolbar or context-menu click leads, and the persisted "has seen
  onboarding" flag. The script's module-level state (`backend`,
  `hasSeenOnboarding`) and what it has told the browser (the icon per tab, the
  button's enable state per tab, the stored flag) are the fields of the class
  `BackgroundPage`, whose invariant `Valid` says storage only ever changes
  to `true` and the flag is only set once `true` has been persisted. The
  start-up storage read answers with what storage held when the script
  loaded (`startStored`), whenever it settles. Each promise the script waits on is an argument that
  says how it settled, and a click's `Reaction` records what follows from
  those outcomes: the events sent, the tab opened or navigated, and the
  errors handed to the error catcher.
- `server/src/pages/shotindex/view.js`, the gallery page component (module
  `ShotIndex`, file `shot_index.dfy`). It covers the landscape/portrait/square
  classification of a clip, title truncation, the image each tile shows, the
  tile list with its empty-state placeholder, and the search box's pending
  timed search (class `SearchBox`).
- `js_strings.dfy` (module `JsStrings`) holds the JavaScript string
  operations both files use: `startsWith`, case-insensitive prefix tests and
  `indexOf`/`split`. A string is a sequence of characters, one per UTF-16
  code unit, so `|s|` is JavaScript's `s.length` for strings without
  surrogate code units.

JavaScript's `undefined` is modelled where the code depends on it. Before a
permission sets it, `backend` is `None`. `BackendText` turns `None` into the
string `"undefined"`, because that is what `url.startsWith(backend)` and
`backend + "/#hello"` see.

## Model

| member | source | states |
|---|---|---|
| `Background.StripTrailingSlashes` | addon/webextension/background/main.js:26-29 | the stored backend is a prefix of the input, does not end in `/`, and everything removed is `/` |
| `Background.StripRemovesMaximalRun` | addon/webextension/background/main.js:28 | the removed part is exactly the maximal trailing run of slashes: for any cut with only slashes after it and a non-slash before it, the result is the input up to that cut |
| `Background.StripIdempotent` | addon/webextension/background/main.js:26-29 | setting the backend to an already normalised value changes nothing |
| `Background.BackgroundPage.SetBackend` | addon/webextension/background/main.js:26-29 | `backend` becomes the input with its trailing slashes removed |
| `Background.BackgroundPage.GetBackend` | addon/webextension/background/main.js:31-33 | returns the current backend, unset included |
| `Background.FirstHttpBackendIsFirstMatch` | addon/webextension/background/main.js:39-44 | the backend is the first permission, in manifest order, that starts with `http://` or `https://`, normalised |
| `Background.FirstHttpBackendUnset` | addon/webextension/background/main.js:39-44 | the backend stays unset exactly when no permission starts with `http://` or `https://` |
| `Background.FirstHttpBackendIgnoresLater` | addon/webextension/background/main.js:39-44 | permissions after the first match play no part |
| `Background.BackgroundPage.ScanPermissions` | addon/webextension/background/main.js:39-44 | the `for` loop with `break` sets the backend to the first match, and leaves it alone when nothing matches |
| `Background.BackgroundPage.constructor` | addon/webextension/background/main.js:12-44 | at start-up the flag is falsy, the start-up read has not settled and will answer with the storage as it is now, `Valid` holds, nothing has been told to the browser, and the backend is the first match of the permission scan |
| `Background.StrippedPermissionKeepsScheme` | addon/webextension/background/main.js:39-42 | stripping slashes from a web permission keeps its `http:` or `https:` scheme |
| `Background.FirstHttpBackend` | addon/webextension/background/main.js:39-44 | a backend found by the scan starts with `http:` or `https:` and does not end in `/` |
| `Background.IconPath` | addon/webextension/background/main.js:46-52 | the highlight icon exactly when active, whatever the onboarding flag; the starred icon exactly when inactive and onboarding unseen; the default icon exactly when inactive and onboarding seen |
| `Background.BackgroundPage.SetIconActive` | addon/webextension/background/main.js:46-52 | the icon of the given tab (or the window-wide icon for a null tab id) becomes that path; no other icon changes |
| `Background.UrlEnabled` | addon/webextension/background/main.js:125-133 | enabled iff the URL is a gallery surface (case-insensitive `about:newtab`, `about:blank`, `resource://activity-streams/`), or it neither starts with the backend nor has a case-insensitive `about:`, `data:` or `moz-extension:` scheme |
| `Background.ShouldOpenMyShots` | addon/webextension/background/main.js:67-69 | every gallery surface is an `about:` page or a `resource:` page, in any letter case |
| `Background.AboutPagesOnlyGallery` | addon/webextension/background/main.js:67-69 | among `about:` URLs, the button is enabled exactly on the gallery surfaces |
| `Background.WebPagesEnabled` | addon/webextension/background/main.js:125-133 | an `http://` or `https://` page that does not start with the backend is enabled and is not a gallery surface |
| `Background.BackendPagesDisabled` | addon/webextension/background/main.js:125-133 | with a web backend, every URL starting with the backend is disabled and is not a gallery surface |
| `Background.OnboardingUrl` | addon/webextension/background/main.js:35-37 | the onboarding page lies under the backend and is not the gallery page |
| `Background.GalleryUrl` | addon/webextension/background/main.js:165-169 | the gallery page lies under the backend |
| `Background.OwnPagesDisabled` | addon/webextension/background/main.js:35-37 | the onboarding page `backend + "/#hello"` and the gallery `backend + "/shots"` are disabled |
| `Background.ActivatedChange` | addon/webextension/background/main.js:135-147 | on activation, a tab with no URL yet is left alone; otherwise the button is enabled iff `urlEnabled` holds and disabled iff it does not |
| `Background.UpdatedChange` | addon/webextension/background/main.js:149-157 | on update, nothing happens unless `info.url` is set and the tab is active; an eligible URL enables the button; an ineligible one disables it only once onboarding is seen, and otherwise the button is left alone |
| `Background.UpdatedAgreesWithActivated` | addon/webextension/background/main.js:135-157 | once onboarding is seen, updating the active tab to a URL has the same effect as activating a tab that shows it |
| `Background.BackgroundPage.OnActivated` | addon/webextension/background/main.js:135-147 | the tab's enable state changes as `ActivatedChange` says and no other tab's does |
| `Background.BackgroundPage.OnUpdated` | addon/webextension/background/main.js:149-157 | the tab's enable state changes as `UpdatedChange` says and no other tab's does |
| `Background.Tag` | addon/webextension/background/main.js:61-64 | what the `.catch` throws is always an error object; it carries `UNSHOOTABLE_PAGE` exactly when the rejection was an object that takes new properties, with its message kept; otherwise strict mode throws a fresh untagged `TypeError` |
| `Background.ToggleResult` | addon/webextension/background/main.js:54-65 | `toggleSelector` resolves with the selector's new state exactly when the telemetry refresh and the toggle both succeed; otherwise it rejects with the first failure passed through the tagging |
| `Background.ToggleFailureTagged` | addon/webextension/background/main.js:54-65 | a failed `toggleSelector` rejects with an error object, tagged exactly when the failure was not an untaggable value |
| `Background.BackgroundPage.ToggleSelector` | addon/webextension/background/main.js:54-65 | on success the tab's icon follows the selector's state; on failure no icon changes |
| `Background.GallerySurfaceReaction` | addon/webextension/background/main.js:72-85 | before onboarding: `goto-onboarding` and the onboarding tab at `backend + "/#hello"` iff the telemetry refresh succeeds, and its failure reported otherwise; after onboarding: `goto-myshots` iff the refresh succeeds, navigation to `backend + "/shots"` iff the auth headers arrive, and exactly the failures of the two reported |
| `Background.AfterToolbarToggle` | addon/webextension/background/main.js:87-98 | a resolved toggle sends `start-shot` or `cancel-shot` by the new state; a rejection tagged `UNSHOOTABLE_PAGE` leads to onboarding; any other rejection is rethrown and reported |
| `Background.ToolbarToggleReportsOnlyUntaggable` | addon/webextension/background/main.js:54-98 | a click elsewhere reports an error exactly when the failure could not take the tag, and then reports the tagging's `TypeError`; every other failure leads to onboarding, and success to `start-shot` or `cancel-shot` according to the new state |
| `Background.BackgroundPage.OnToolbarClick` | addon/webextension/background/main.js:71-106 | gallery surfaces route as `GallerySurfaceReaction` says without touching any icon; other pages toggle the selector, set the tab's icon to its new state on success and no icon on failure, and report an error exactly when the failure was untaggable |
| `Background.AfterContextMenuToggle` | addon/webextension/background/main.js:120-122 | a context-menu toggle never onboards or opens the gallery: success sends `start-shot` from the context menu, and a failure is reported as it is |
| `Background.ContextMenuNeverOnboards` | addon/webextension/background/main.js:115-123 | a context-menu click never goes to onboarding: success sends `start-shot` from the context menu whatever the new state, and every failure is reported, tagged unless it was untaggable |
| `Background.BackgroundPage.OnContextMenuClick` | addon/webextension/background/main.js:115-123 | without a tab nothing happens; with one, the selector is toggled, the reaction follows its outcome, and the tab's icon follows the new state on success only |
| `Background.BackgroundPage.LoadOnboarding` | addon/webextension/background/main.js:17-24 | the read settles once; on success the flag becomes the truthiness of what storage held at start-up and the window-wide icon is starred when it is false; a failed read changes nothing; the read unsets a set flag only when it succeeds on a start-up storage without `true`; `Valid` is kept |
| `Background.BackgroundPage.LoadOnboardingKeepingFlag` | addon/webextension/background/main.js:17-24 | the corrected read: a set flag stays set and its icon untouched; otherwise as the read as written |
| `Background.BackgroundPage.HasSeenOnboarding` | addon/webextension/background/main.js:216-220 | the flag becomes true and is persisted, so `Valid` is kept, and the window-wide icon becomes the default one |
| `Background.BackgroundPage.CloseSelector` | addon/webextension/background/main.js:195-197 | the sender tab's icon becomes the inactive icon |
| `Background.OnboardingSurvivesRestart` | addon/webextension/background/main.js:216-220 | when the start-up read settles before the onboarding message, the flag stays set through later toggles and `closeSelector` messages, and a background page restarted from the same storage loads it as true |
| `Background.LateReadClearsFlag` | addon/webextension/background/main.js:17-24 | with no flag stored at start-up, a read that settles after the onboarding message clears the flag and stars the icon while storage holds `true` |
| `Background.LateReadKeepsFlag` | addon/webextension/background/main.js:17-24 | with the corrected read, the same order keeps the flag set and the default icon |
| `Background.Migrate` | addon/webextension/background/main.js:199-214 | the old add-on is told to remove itself exactly when a non-empty reply parses to an object and importing it changed the device info; a report is made exactly when a non-empty reply does not parse, or parses to an object whose import failed or found no bootstrap; a failed import reports its own message |
| `JsStrings.StartsWith` | addon/webextension/background/main.js:129 | `s.startsWith(p)` holds exactly when `p` is no longer than `s` and agrees with it position by position |
| `JsStrings.StartsWithIgnoringCase` | addon/webextension/background/main.js:67-69 | a case-insensitive match holds exactly when `p` is no longer than `s` and the ASCII-lower-cased start of `s` is `p`; an exact match of a lower-case pattern is also a case-insensitive one |
| `JsStrings.LowerCase` | addon/webextension/background/main.js:68 | lower-casing keeps the length and folds each character as the `/i` flag does |
| `JsStrings.IndexOf` | addon/webextension/background/main.js:186 | the index of the first occurrence of the character, or the length when there is none |
| `JsStrings.SecondCommaField` | addon/webextension/background/main.js:186 | `split(',')[1]` is undefined exactly when there is no comma; otherwise it is the text after the first comma up to the next comma or the end, and holds no comma |
| `JsStrings.SecondCommaFieldOfDataUrl` | addon/webextension/background/main.js:186 | for `header,payload` with no comma in either part, the base64 segment handed to `atob` is exactly the payload |
| `ShotIndex.ClipTypeNamesDistinct` | server/src/pages/shotindex/view.js:113-123 | the three clip types become three distinct class names |
| `ShotIndex.GetClipType` | server/src/pages/shotindex/view.js:113-123 | landscape iff x − y > 50, portrait iff y − x > 50, square iff \|x − y\| ≤ 50; exactly one of the three |
| `ShotIndex.ClipTypeOfSwappedDimensions` | server/src/pages/shotindex/view.js:113-123 | swapping width and height swaps landscape and portrait and keeps square |
| `ShotIndex.DisplayTitle` | server/src/pages/shotindex/view.js:172-177 | titles of at most 140 code units are unchanged; longer ones keep their first 140 code units followed by `...`; the result is at most 143 long |
| `ShotIndex.DisplayTitleIdempotent` | server/src/pages/shotindex/view.js:172-177 | a displayed title is displayed unchanged |
| `ShotIndex.FirstAvailable` | server/src/pages/shotindex/view.js:126-136 | the first present candidate in order, or the fallback when none is present |
| `ShotIndex.TileImageUrl` | server/src/pages/shotindex/view.js:126-136 | the tile image is the first available of: the first clip's image URL, the first of `shot.images`, the full-screen thumbnail, the question-mark image |
| `ShotIndex.RenderShot` | server/src/pages/shotindex/view.js:125-170 | a tile renders exactly when the first clip and its image exist (otherwise reading the dimensions throws); it carries the shot's id, the class `shot ` followed by the clip type of those dimensions, the fallback image, the displayed title and the given download link |
| `ShotIndex.EmptyPlaceholder` | server/src/pages/shotindex/view.js:59-66 | no-device placeholder iff no device id; otherwise no-search-results iff a search was given; otherwise no-shots |
| `ShotIndex.RenderShots` | server/src/pages/shotindex/view.js:52-77 | one tile per shot, in order, each with `downloadUrls[shot.id]`; with no shots, a list holding exactly the one placeholder; it throws exactly when some shot has no clip image |
| `ShotIndex.TypingReplacesPendingSearch` | server/src/pages/shotindex/view.js:226-235 | a non-empty value issues nothing at once, clears the pending timer, and leaves a pending search for the new value iff it is longer than 3 |
| `ShotIndex.ChangeSearch` | server/src/pages/shotindex/view.js:218-236 | the box shows the new value; a search is issued at once exactly when the value is empty, and then for that value; only the pending timer is ever cleared; what is pending afterwards is the old search or a new one for the value |
| `ShotIndex.EmptyingBoxKeepsStaleSearch` | server/src/pages/shotindex/view.js:221-225 | for every state, an empty value searches at once, clears no timer and leaves the slot as it was, so a search pending for any non-empty text becomes stale |
| `ShotIndex.TypingThenEmptyingLeavesStaleSearch` | server/src/pages/shotindex/view.js:218-236 | from any state, typing a value longer than 3 and then emptying the box leaves the search for that value pending while the box is empty |
| `ShotIndex.CancellingKeepsPendingCurrent` | server/src/pages/shotindex/view.js:218-236 | with the timer also cleared on an empty value, any pending search is always for the box's current text, and for non-empty values nothing else changes |
| `ShotIndex.SearchBox.constructor` | server/src/pages/shotindex/view.js:26-29 | the search state starts as the page's search, with no timer pending |
| `ShotIndex.SearchBox.OnChangeSearch` | server/src/pages/shotindex/view.js:218-236 | the box's state and the keystroke's effects are those of `onChangeSearch` as written (`ShotIndex.ChangeSearch`) |

## Findings

| source | as written | input that shows it | evidently intended | confidence | as-written member | corrected member |
|---|---|---|---|---|---|---|
| server/src/pages/shotindex/view.js:221-225 | an empty value issues the search and returns before `_keyupTimeout` is cleared | type `shot` plus one more letter (a timed search for it is pending), then empty the box in one edit: the empty search runs, then the stale timer searches for the old text while the box is empty | emptying the box also cancels the pending timed search | medium; not executed | `ShotIndex.EmptyingBoxKeepsStaleSearch` | `ShotIndex.CancellingKeepsPendingCurrent` |
| addon/webextension/background/main.js:17-24 | the read issued at start-up assigns the flag outright from what storage held then | no flag stored at start-up, and the onboarding message is handled before the read settles: the flag goes back to `false` and the window-wide icon is starred again, although storage holds `true` | a read that settles late never unsets the flag the message set | low; not executed | `Background.LateReadClearsFlag` | `Background.BackgroundPage.LoadOnboardingKeepingFlag` |

`ShotIndex.SearchBox.OnChangeSearch` follows the code as written. The
corrected rule is `ShotIndex.ChangeSearchCancelling`. Nothing else in the
model consumes the search state. `Background.BackgroundPage.LoadOnboarding`
also follows the code as written; `Background.LateReadKeepsFlag` runs the
same order with the corrected read.

## Left out

- Browser calls are recorded, not executed. `setIcon`, `enable` and `disable` are the `icons` and `enabled` maps. Storage is the `stored` field. Tab creation and navigation are the URLs in a `Reaction`. Context-menu registration, notifications (`openShot`), downloads and localized strings are not modelled.
- The message bus (`communication.register`) is not part of this model. The handlers `closeSelector` and `hasSeenOnboarding` are methods of `BackgroundPage`. For `downloadShot`, only the payload split is modelled; `atob`, `Uint8Array`, `Blob` and `URL.createObjectURL` are host library calls. `openMyShots` is only its URL, `GalleryUrl`. `sendEvent` forwarding is not modelled.
- Promise timing is not modelled beyond the order of handlers. Each handler runs as one step, in any order the caller chooses. The start-up read answers with the storage as it was when the script loaded, whenever it settles. The onboarding message's storage write is taken to complete at once.
- `catcher.watchFunction`/`watchPromise`, `analytics.sendEvent`, `refreshTelemetryPref`, `auth.authHeaders` and `selectorLoader.toggle` are outside this model. How each of their promises settled is an argument. What a click does with those outcomes is modelled: the events sent, the tab opened or navigated, and the errors reported. A failed `sendEvent` or `tabs.update` is not.
- `Background.GallerySurfaceReaction`: after onboarding the refresh and the auth headers settle independently; the model lists their failures in a fixed order, refresh first.
- `Background.BackgroundPage.OnToolbarClick`: the toggle that `forceOnboarding` runs on the newly created tab is represented only by the `Onboard` reaction; its own outcome is not modelled.
- `Background.ToggleResult`: a synchronous throw from `setIcon` inside the chain would also be tagged; host calls never throw in this model.
- `Background.Tag`: a frozen object that already carries a `popupMessage` is treated like any other untaggable value; its existing property is not read.
- `Background.Migrate`: `JSON.parse` and `typeof` are an abstract `Parsed` outcome. Following the code, a reply that does not parse throws into `catcher.watchPromise` and is reported; it is not passed over silently.
- `pasteSymbol` is platform detection and is not modelled.
- `hasSeenOnboarding` is `undefined` until storage answers, and it is modelled as `false`. The script's own tests of it are truthiness tests. The raw value is also passed to `selectorLoader.toggle`, which is outside this model. A missing `tab.url` or `info.url` is the empty string.
- Strings whose characters lie outside the Basic Multilingual Plane are not modelled. A Dafny `char` is never a surrogate code unit, so such a character, which JavaScript counts as two code units, cannot be written in the model. Title truncation could split one in JavaScript.
- React and the DOM are not modelled: the markup, `Head`, the Masonry layout, `handleLayoutComplete`, favicons, the share button, `onClickDelete`, `onOpen`, `onClickDownload`, `onSubmitForm`, `onClearSearch` and `componentDidUpdate`.
- Timers are not modelled: the `setTimeout` callback and its one-second delay. Only the pending-search slot is. The slot holds the timer's handle and the value its callback will search for.
- `ShotIndex.GetClipType`: dimensions are integers; JavaScript numbers with fractions are not modelled.
- The shot model (`clipNames`, `getClip`, a clip's `image`) is not part of this model. A shot is given by its clips in `clipNames()` order, and `clip.image` and `clip._image` are taken to be the same record.
- Case-insensitive patterns fold only ASCII letters. That is how a regular expression without the `u` flag compares the ASCII letters of its pattern.
