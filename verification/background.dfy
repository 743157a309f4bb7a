/** The decision rules of the extension's background script: where the backend
    is, which toolbar icon to show, which pages the toolbar button works on,
    how a toolbar or context-menu click is routed, and the onboarding flag.
    Every call into the browser (icons, enabling the button, tabs, storage) is
    recorded as state of `BackgroundPage`; every promise it waits on is an
    argument saying how that promise settled. */
module Background {
  import opened JsStrings

  // ----- the backend URL -----

  /** The text `backend` stands for when it is concatenated or passed to
      `startsWith`: before any permission has set it, it is `undefined`,
      which JavaScript turns into the string "undefined". */
  function BackendText(backend: Option<string>): string {
    match backend
    case None => "undefined"
    case Some(b) => b
  }

  /** The `replace` in `setBackend`, whose pattern matches any run of slashes
      at the end: the first place from which only slashes remain is the start
      of the longest run of trailing slashes, and that run goes. */
  function StripTrailingSlashes(s: string): (r: string)
    ensures r <= s
    ensures r == [] || r[|r| - 1] != '/'
    ensures forall i :: |r| <= i < |s| ==> s[i] == '/'
  {
    if |s| > 0 && s[|s| - 1] == '/' then StripTrailingSlashes(s[..|s| - 1]) else s
  }

  /** What is removed is exactly the maximal run of trailing slashes: given
      any cut `k` with only slashes after it and no slash just before it, the
      result is the input up to `k`. */
  lemma StripRemovesMaximalRun(s: string, k: nat)
    requires k <= |s|
    requires k == 0 || s[k - 1] != '/'
    requires forall i :: k <= i < |s| ==> s[i] == '/'
    ensures StripTrailingSlashes(s) == s[..k]
  {
    var r := StripTrailingSlashes(s);
    if k > 0 {
      // s[k - 1] is no slash, so it is kept
      assert k - 1 < |r|;
    }
    if |r| > 0 {
      // r's last character is no slash, so it lies before the cut
      assert r[|r| - 1] == s[|r| - 1];
      assert |r| - 1 < k;
    }
  }

  /** Setting the backend twice is the same as setting it once. */
  lemma StripIdempotent(s: string)
    ensures StripTrailingSlashes(StripTrailingSlashes(s)) == StripTrailingSlashes(s)
  {
    var r := StripTrailingSlashes(s);
    StripRemovesMaximalRun(r, |r|);
  }

  /** `/^https?:\/\//.test(permission)`, which is case-sensitive. */
  predicate IsHttpPermission(p: string) {
    StartsWith(p, "http://") || StartsWith(p, "https://")
  }

  /** The backend the start-up scan settles on: the first web permission of
      the manifest, in manifest order, with its trailing slashes removed. */
  function FirstHttpBackend(permissions: seq<string>): (b: Option<string>)
    ensures b.Some? ==> IsWebBackend(b.value)
  {
    if permissions == [] then None
    else if IsHttpPermission(permissions[0]) then
      StrippedPermissionKeepsScheme(permissions[0]);
      Some(StripTrailingSlashes(permissions[0]))
    else FirstHttpBackend(permissions[1..])
  }

  lemma {:induction false} FirstHttpBackendIsFirstMatch(permissions: seq<string>, k: nat)
    requires k < |permissions| && IsHttpPermission(permissions[k])
    requires forall j :: 0 <= j < k ==> !IsHttpPermission(permissions[j])
    ensures FirstHttpBackend(permissions) == Some(StripTrailingSlashes(permissions[k]))
  {
    if k > 0 {
      assert !IsHttpPermission(permissions[0]);
      FirstHttpBackendIsFirstMatch(permissions[1..], k - 1);
    }
  }

  lemma {:induction false} FirstHttpBackendUnset(permissions: seq<string>)
    ensures FirstHttpBackend(permissions).None?
        <==> forall j :: 0 <= j < |permissions| ==> !IsHttpPermission(permissions[j])
  {
    if permissions != [] {
      FirstHttpBackendUnset(permissions[1..]);
      assert forall j :: 1 <= j < |permissions| ==> permissions[j] == permissions[1..][j - 1];
    }
  }

  /** Permissions after the first web permission play no part. */
  lemma {:induction false} FirstHttpBackendIgnoresLater(permissions: seq<string>, later: seq<string>)
    requires FirstHttpBackend(permissions).Some?
    ensures FirstHttpBackend(permissions + later) == FirstHttpBackend(permissions)
  {
    assert (permissions + later)[0] == permissions[0];
    if !IsHttpPermission(permissions[0]) {
      assert (permissions + later)[1..] == permissions[1..] + later;
      FirstHttpBackendIgnoresLater(permissions[1..], later);
    }
  }

  /** A backend taken from a web permission keeps its scheme: stripping
      slashes never reaches the colon after `http` or `https`. */
  lemma StrippedPermissionKeepsScheme(p: string)
    requires IsHttpPermission(p)
    ensures StartsWith(StripTrailingSlashes(p), "http:") || StartsWith(StripTrailingSlashes(p), "https:")
  {
    var r := StripTrailingSlashes(p);
    if StartsWith(p, "http://") {
      assert p[4] == ':';
      assert |r| >= 5;
      assert r[..5] == p[..5] == "http:";
    } else {
      assert p[5] == ':';
      assert |r| >= 6;
      assert r[..6] == p[..6] == "https:";
    }
  }

  /** A web backend: what the start-up scan can produce. */
  predicate IsWebBackend(b: string) {
    (StartsWith(b, "http:") || StartsWith(b, "https:")) && (b == [] || b[|b| - 1] != '/')
  }

  /** `getOnboardingUrl()` */
  function OnboardingUrl(backend: Option<string>): (url: string)
    ensures StartsWith(url, BackendText(backend))
    ensures url != GalleryUrl(backend)
  {
    BackendText(backend) + "/#hello"
  }

  /** The gallery page the toolbar and `openMyShots` open. */
  function GalleryUrl(backend: Option<string>): (url: string)
    ensures StartsWith(url, BackendText(backend))
  {
    BackendText(backend) + "/shots"
  }

  // ----- the toolbar icon -----

  const HighlightIcon := "icons/icon-highlight-38.png"
  const DefaultIcon := "icons/icon-38.png"
  const StarredIcon := "icons/icon-starred-38.png"

  /** The path `setIconActive(active, tabId)` hands to the browser. */
  function IconPath(active: bool, hasSeenOnboarding: bool): (path: string)
    ensures path == HighlightIcon <==> active
    ensures path == StarredIcon <==> !active && !hasSeenOnboarding
    ensures path == DefaultIcon <==> !active && hasSeenOnboarding
  {
    var path := if active then HighlightIcon else DefaultIcon;
    if !hasSeenOnboarding && !active then StarredIcon else path
  }

  // ----- which pages the button works on -----

  /** `shouldOpenMyShots(url)`: the new-tab, blank and activity-stream pages,
      in any letter case, on which the button opens the gallery. */
  predicate ShouldOpenMyShots(url: string)
    ensures ShouldOpenMyShots(url) ==> HasUnshootableScheme(url) || StartsWithIgnoringCase(url, "resource:")
  {
    StartsWithIgnoringCase(url, "about:newtab")
    || StartsWithIgnoringCase(url, "about:blank")
    || StartsWithIgnoringCase(url, "resource://activity-streams/")
  }

  /** `/^(?:about|data|moz-extension):/i`: schemes a page cannot be shot on. */
  predicate HasUnshootableScheme(url: string) {
    StartsWithIgnoringCase(url, "about:")
    || StartsWithIgnoringCase(url, "data:")
    || StartsWithIgnoringCase(url, "moz-extension:")
  }

  /** `urlEnabled(url)`: whether the toolbar button is enabled on a page. */
  function UrlEnabled(url: string, backend: Option<string>): (enabled: bool)
    ensures enabled <==> ShouldOpenMyShots(url)
                         || !(StartsWith(url, BackendText(backend)) || HasUnshootableScheme(url))
  {
    if ShouldOpenMyShots(url) then true
    else if StartsWith(url, BackendText(backend)) || HasUnshootableScheme(url) then false
    else true
  }

  /** Among `about:` pages, exactly the gallery surfaces are enabled. */
  lemma AboutPagesOnlyGallery(url: string, backend: Option<string>)
    requires StartsWithIgnoringCase(url, "about:")
    ensures UrlEnabled(url, backend) <==> ShouldOpenMyShots(url)
  {
  }

  /** An ordinary web page off the backend is always enabled: its scheme is
      none of the unshootable ones and it is not a gallery surface. */
  lemma WebPagesEnabled(url: string, backend: Option<string>)
    requires IsHttpPermission(url)
    requires !StartsWith(url, BackendText(backend))
    ensures UrlEnabled(url, backend)
    ensures !ShouldOpenMyShots(url)
  {
    assert url[0] == "http://"[0] == 'h';
    assert ToLower(url[0]) == 'h';
  }

  /** Every page of a web backend is disabled, the backend's own gallery
      and onboarding pages among them. */
  lemma BackendPagesDisabled(url: string, b: string)
    requires IsWebBackend(b)
    requires StartsWith(url, b)
    ensures !ShouldOpenMyShots(url)
    ensures !UrlEnabled(url, Some(b))
  {
    assert b[0] == 'h';
    assert url[0] == 'h';
    assert ToLower(url[0]) == 'h';
  }

  lemma OwnPagesDisabled(b: string)
    requires IsWebBackend(b)
    ensures !UrlEnabled(OnboardingUrl(Some(b)), Some(b))
    ensures !UrlEnabled(GalleryUrl(Some(b)), Some(b))
  {
    BackendPagesDisabled(OnboardingUrl(Some(b)), b);
    BackendPagesDisabled(GalleryUrl(Some(b)), b);
  }

  // ----- enabling the button as tabs change -----

  datatype ButtonChange = Enable | Disable | Leave

  /** The `onActivated` rule, on the URL `tabs.get` reports ("" when it has
      none yet). */
  function ActivatedChange(url: string, backend: Option<string>): (c: ButtonChange)
    ensures c == Leave <==> url == ""
    ensures c == Enable <==> url != "" && UrlEnabled(url, backend)
    ensures c == Disable <==> url != "" && !UrlEnabled(url, backend)
  {
    if url == "" then Leave
    else if UrlEnabled(url, backend) then Enable
    else Disable
  }

  /** The `onUpdated` rule: `infoUrl` is `info.url` ("" when the update did
      not change the URL), `tabActive` is `tab.active`. */
  function UpdatedChange(infoUrl: string, tabActive: bool, hasSeenOnboarding: bool,
                         backend: Option<string>): (c: ButtonChange)
    ensures c == Enable <==> infoUrl != "" && tabActive && UrlEnabled(infoUrl, backend)
    ensures c == Disable <==> infoUrl != "" && tabActive && !UrlEnabled(infoUrl, backend) && hasSeenOnboarding
    ensures c == Leave <==> infoUrl == "" || !tabActive || (!UrlEnabled(infoUrl, backend) && !hasSeenOnboarding)
  {
    if infoUrl != "" && tabActive then
      if UrlEnabled(infoUrl, backend) then Enable
      else if hasSeenOnboarding then Disable
      else Leave
    else Leave
  }

  /** Once onboarding is seen, an update of the active tab to a new URL is
      treated exactly as activating a tab showing that URL. */
  lemma UpdatedAgreesWithActivated(url: string, backend: Option<string>)
    ensures UpdatedChange(url, true, true, backend) == ActivatedChange(url, backend)
  {
  }

  /** The button enable state after a change: the map records the last
      `browserAction.enable`/`disable` per tab. */
  function ApplyChange(enabled: map<int, bool>, tabId: int, c: ButtonChange): map<int, bool> {
    match c
    case Enable => enabled[tabId := true]
    case Disable => enabled[tabId := false]
    case Leave => enabled
  }

  // ----- clicks, and the selector toggle behind them -----

  /** The tag `toggleSelector` puts on every failure. */
  const UnshootablePage := "UNSHOOTABLE_PAGE"

  /** A rejection value. `ErrorObject` is an ordinary object such as an
      `Error`, which takes new properties; `Untaggable` is any value a
      strict-mode property assignment throws on: `undefined`, `null`, a
      primitive, or a frozen or non-extensible object. */
  datatype JsError =
    | ErrorObject(message: string, popupMessage: Option<string>)
    | Untaggable(message: string)

  /** The `TypeError` the script's strict mode throws when `popupMessage`
      cannot be set; its message is the engine's and is left abstract. */
  const AssignmentTypeError := ErrorObject("TypeError", None)

  /** `error.popupMessage = "UNSHOOTABLE_PAGE"; throw error;`: what leaves
      the `.catch` of `toggleSelector` for a rejection `e`. */
  function Tag(e: JsError): (thrown: JsError)
    ensures thrown.ErrorObject?
    ensures thrown.popupMessage == Some(UnshootablePage) <==> e.ErrorObject?
    ensures e.ErrorObject? ==> thrown.message == e.message
  {
    match e
    case ErrorObject(message, _) => ErrorObject(message, Some(UnshootablePage))
    case Untaggable(_) => AssignmentTypeError
  }

  /** Whether a rejection carries the tag the toolbar click looks for. */
  predicate IsTagged(e: JsError) {
    e.ErrorObject? && e.popupMessage == Some(UnshootablePage)
  }

  /** How a promise settled. */
  datatype Settled<+T> = Resolved(value: T) | Rejected(error: JsError)

  datatype Tab = Tab(id: int, url: string, active: bool)

  /** What `toggleSelector(tab)` settles with, given how the telemetry
      refresh and then `selectorLoader.toggle` settled: the `.catch` at the
      end tags a failure of either. */
  function ToggleResult(refresh: Settled<()>, toggle: Settled<bool>): (r: Settled<bool>)
    ensures r.Resolved? <==> refresh.Resolved? && toggle.Resolved?
    ensures r.Resolved? ==> r.value == toggle.value
    ensures refresh.Rejected? ==> r == Rejected(Tag(refresh.error))
    ensures refresh.Resolved? && toggle.Rejected? ==> r == Rejected(Tag(toggle.error))
  {
    match refresh
    case Rejected(e) => Rejected(Tag(e))
    case Resolved(_) =>
      match toggle
      case Rejected(e) => Rejected(Tag(e))
      case Resolved(active) => Resolved(active)
  }

  /** The toggle failed with a value the tag cannot be set on. */
  predicate FailsUntaggably(refresh: Settled<()>, toggle: Settled<bool>) {
    (refresh.Rejected? && refresh.error.Untaggable?)
    || (refresh.Resolved? && toggle.Rejected? && toggle.error.Untaggable?)
  }

  /** Every failure leaves `toggleSelector` as an error object, and it is
      tagged exactly when the original rejection could take the tag. */
  lemma ToggleFailureTagged(refresh: Settled<()>, toggle: Settled<bool>)
    requires ToggleResult(refresh, toggle).Rejected?
    ensures ToggleResult(refresh, toggle).error.ErrorObject?
    ensures IsTagged(ToggleResult(refresh, toggle).error) <==> !FailsUntaggably(refresh, toggle)
  {
    if refresh.Rejected? {
      assert ToggleResult(refresh, toggle).error == Tag(refresh.error);
    } else {
      assert ToggleResult(refresh, toggle).error == Tag(toggle.error);
    }
  }

  datatype Event = Event(name: string, source: string)

  /** Where a click leads. `Onboard` sends `event` and then opens a tab at
      `url` and toggles the selector there (`forceOnboarding`);
      `ShowGallery` sends the event in `sent` if there is one, points the
      current tab at the URL in `navigation` if there is one, and hands every error in `reports` to
      `catcher.watchPromise`; `ShotEvent` sends `event`; `Report` hands
      `error` to `catcher.watchPromise`. */
  datatype Reaction =
    | Onboard(event: Event, url: string)
    | ShowGallery(sent: Option<Event>, navigation: Option<string>, reports: seq<JsError>)
    | ShotEvent(event: Event)
    | Report(error: JsError)

  const GotoOnboarding := Event("goto-onboarding", "selection-button")
  const GotoMyShots := Event("goto-myshots", "about-newtab")

  /** The errors of the promises among `outcomes` that were rejected. */
  function Rejections(outcomes: seq<Settled<()>>): (errors: seq<JsError>)
    ensures |errors| <= |outcomes|
    ensures forall e :: e in errors <==> Rejected(e) in outcomes
  {
    if outcomes == [] then []
    else
      (if outcomes[0].Rejected? then [outcomes[0].error] else [])
      + Rejections(outcomes[1..])
  }

  /** A toolbar click on a gallery surface, given how the telemetry
      refresh and `auth.authHeaders()` settled. Before onboarding only the
      refresh is waited on, and onboarding follows it; afterwards the event
      and the navigation wait on the refresh and the auth headers
      independently, and each failure is reported on its own. */
  function GallerySurfaceReaction(hasSeenOnboarding: bool, refresh: Settled<()>, auth: Settled<()>,
                                  backend: Option<string>): (r: Reaction)
    ensures r.Onboard? <==> !hasSeenOnboarding && refresh.Resolved?
    ensures r.Onboard? ==> r == Onboard(GotoOnboarding, OnboardingUrl(backend))
    ensures r.Report? <==> !hasSeenOnboarding && refresh.Rejected?
    ensures r.Report? ==> r.error == refresh.error
    ensures r.ShowGallery? <==> hasSeenOnboarding
    ensures r.ShowGallery? ==> r.sent == if refresh.Resolved? then Some(GotoMyShots) else None
    ensures r.ShowGallery? ==> r.navigation == if auth.Resolved? then Some(GalleryUrl(backend)) else None
    ensures r.ShowGallery? ==>
      forall e :: e in r.reports <==> Rejected(e) == refresh || Rejected(e) == auth
  {
    if !hasSeenOnboarding then
      match refresh
      case Resolved(_) => Onboard(GotoOnboarding, OnboardingUrl(backend))
      case Rejected(e) => Report(e)
    else
      ShowGallery(if refresh.Resolved? then Some(GotoMyShots) else None,
                  if auth.Resolved? then Some(GalleryUrl(backend)) else None,
                  Rejections([refresh, auth]))
  }

  /** A toolbar click on any other page, once `toggleSelector` settled. */
  function AfterToolbarToggle(toggled: Settled<bool>, backend: Option<string>): (r: Reaction)
    ensures r.ShotEvent? <==> toggled.Resolved?
    ensures r.ShotEvent? ==>
      r.event == Event(if toggled.value then "start-shot" else "cancel-shot", "toolbar-button")
    ensures r.Onboard? <==> toggled.Rejected? && IsTagged(toggled.error)
    ensures r.Onboard? ==> r == Onboard(GotoOnboarding, OnboardingUrl(backend))
    ensures r.Report? <==> toggled.Rejected? && !IsTagged(toggled.error)
    ensures r.Report? ==> r.error == toggled.error
  {
    match toggled
    case Resolved(active) =>
      ShotEvent(Event(if active then "start-shot" else "cancel-shot", "toolbar-button"))
    case Rejected(e) =>
      if e.ErrorObject? && e.popupMessage == Some(UnshootablePage) then
        Onboard(GotoOnboarding, OnboardingUrl(backend))
      else Report(e)
  }

  /** Because `toggleSelector` tags every failure it can, a toolbar click
      reports an error only when the rejection could not take the tag, and
      then it reports the `TypeError` the tagging threw; any other failed
      toggle leads to onboarding, and a successful one to a start or cancel
      event. */
  lemma ToolbarToggleReportsOnlyUntaggable(refresh: Settled<()>, toggle: Settled<bool>,
                                           backend: Option<string>)
    ensures AfterToolbarToggle(ToggleResult(refresh, toggle), backend).Report?
        <==> FailsUntaggably(refresh, toggle)
    ensures AfterToolbarToggle(ToggleResult(refresh, toggle), backend).Report? ==>
        AfterToolbarToggle(ToggleResult(refresh, toggle), backend).error == AssignmentTypeError
    ensures AfterToolbarToggle(ToggleResult(refresh, toggle), backend).Onboard?
        <==> (refresh.Rejected? || toggle.Rejected?) && !FailsUntaggably(refresh, toggle)
    ensures refresh.Resolved? && toggle.Resolved? ==>
        AfterToolbarToggle(ToggleResult(refresh, toggle), backend)
        == ShotEvent(Event(if toggle.value then "start-shot" else "cancel-shot", "toolbar-button"))
  {
    if ToggleResult(refresh, toggle).Rejected? {
      ToggleFailureTagged(refresh, toggle);
    }
  }

  /** A context-menu click with a tab, once `toggleSelector` settled. */
  function AfterContextMenuToggle(toggled: Settled<bool>): (r: Reaction)
    ensures !r.Onboard? && !r.ShowGallery?
    ensures r.Report? <==> toggled.Rejected?
    ensures r.Report? ==> r.error == toggled.error
    ensures r.ShotEvent? ==> r.event == Event("start-shot", "context-menu")
  {
    match toggled
    case Resolved(_) => ShotEvent(Event("start-shot", "context-menu"))
    case Rejected(e) => Report(e)
  }

  /** A context-menu click never leads to onboarding: a failed toggle is
      reported, tagged whenever the rejection could take the tag, and a
      successful one is a start event whether the selector was opened or
      closed. */
  lemma ContextMenuNeverOnboards(refresh: Settled<()>, toggle: Settled<bool>)
    ensures !AfterContextMenuToggle(ToggleResult(refresh, toggle)).Onboard?
    ensures AfterContextMenuToggle(ToggleResult(refresh, toggle)).Report?
        <==> refresh.Rejected? || toggle.Rejected?
    ensures AfterContextMenuToggle(ToggleResult(refresh, toggle)).Report? ==>
        (IsTagged(AfterContextMenuToggle(ToggleResult(refresh, toggle)).error)
         <==> !FailsUntaggably(refresh, toggle))
  {
    if ToggleResult(refresh, toggle).Rejected? {
      ToggleFailureTagged(refresh, toggle);
    }
  }

  // ----- the legacy migration step -----

  /** What `sendToBootstrap("getOldDeviceInfo")` resolved with. */
  datatype BootstrapReply = NoBootstrap | Reply(text: string)

  /** What `JSON.parse` makes of a non-empty reply. */
  datatype Parsed = Unparseable | Falsy | NonObject | Object

  /** How `auth.setDeviceInfoFromOldAddon` settled. */
  datatype ImportOutcome = ImportRejected(error: JsError) | ImportNoBootstrap | Imported(updated: bool)

  datatype MigrationStep = Finished | RemoveOldAddon | MigrationReport(reason: string)

  /** The start-up migration, as a decision over the outcomes of its calls.
      `parsed` is read only for a non-empty reply and `imported` only for a
      parsed object. The old add-on is asked to remove itself exactly when a
      non-empty reply parsed to an object and importing it changed the
      device info; a reply that does not parse, a failed import and a
      bootstrap that went away are reported, not passed over. */
  function Migrate(reply: BootstrapReply, parsed: Parsed, imported: ImportOutcome): (step: MigrationStep)
    ensures step == RemoveOldAddon
        <==> reply.Reply? && reply.text != "" && parsed == Object && imported == Imported(true)
    ensures step.MigrationReport?
        <==> reply.Reply? && reply.text != ""
             && (parsed == Unparseable || (parsed == Object && !imported.Imported?))
    ensures reply.Reply? && reply.text != "" && parsed == Object && imported.ImportRejected? ==>
        step == MigrationReport(imported.error.message)
  {
    if reply.NoBootstrap? || reply.text == "" then Finished
    else if parsed == Unparseable then MigrationReport("JSON.parse failed")
    else if parsed != Object then Finished
    else match imported
      case ImportRejected(e) => MigrationReport(e.message)
      case ImportNoBootstrap => MigrationReport("bootstrap.js disappeared unexpectedly")
      case Imported(updated) => if updated then RemoveOldAddon else Finished
  }

  // ----- the background page's own state -----

  /** The module-level state of the background script and what it has told
      the browser: `icons` holds the last icon path set per tab (`None` for
      the window-wide icon set with a null tab id), `enabled` the last
      enable (`true`) or disable (`false`) per tab, `stored` the value kept
      under "hasSeenOnboarding" in the extension's local storage.
      `startStored` is what storage held when the script loaded: the one
      storage read is issued then, so that is what it answers with whenever
      it settles; `loaded` records that it has settled. */
  class BackgroundPage {
    var backend: Option<string>
    var hasSeenOnboarding: bool
    var stored: Option<bool>
    const startStored: Option<bool>
    var loaded: bool
    var icons: map<Option<int>, string>
    var enabled: map<int, bool>

    /** Storage only ever changes by the onboarding message writing `true`,
        and the flag is only set once `true` has been persisted. */
    predicate Valid()
      reads this
    {
      && (stored == startStored || stored == Some(true))
      && (hasSeenOnboarding ==> stored == Some(true))
    }

    /** Start-up: the flag is still undefined (falsy) until storage answers,
        and the manifest's permissions are scanned for the backend. */
    constructor (permissions: seq<string>, stored: Option<bool>)
      ensures Valid()
      ensures backend == FirstHttpBackend(permissions)
      ensures !hasSeenOnboarding && this.stored == stored && startStored == stored && !loaded
      ensures icons == map[] && enabled == map[]
    {
      this.backend := None;
      this.hasSeenOnboarding := false;
      this.stored := stored;
      this.startStored := stored;
      this.loaded := false;
      this.icons := map[];
      this.enabled := map[];
      new;
      ScanPermissions(permissions);
    }

    /** `exports.setBackend` */
    method SetBackend(newBackend: string)
      modifies this`backend
      ensures backend == Some(StripTrailingSlashes(newBackend))
    {
      backend := Some(newBackend);
      backend := Some(StripTrailingSlashes(newBackend));
    }

    /** `exports.getBackend` */
    method GetBackend() returns (b: Option<string>)
      ensures b == backend
    {
      b := backend;
    }

    /** The start-up `for` loop over the manifest's permissions. */
    method ScanPermissions(permissions: seq<string>)
      modifies this`backend
      ensures backend == if FirstHttpBackend(permissions).Some? then FirstHttpBackend(permissions)
                         else old(backend)
    {
      for i := 0 to |permissions|
        invariant backend == old(backend)
        invariant FirstHttpBackend(permissions) == FirstHttpBackend(permissions[i..])
      {
        assert permissions[i..][1..] == permissions[i + 1..];
        if IsHttpPermission(permissions[i]) {
          SetBackend(permissions[i]);
          break;
        }
      }
    }

    /** `setIconActive(active, tabId)` */
    method SetIconActive(active: bool, tabId: Option<int>)
      modifies this`icons
      ensures icons == old(icons)[tabId := IconPath(active, hasSeenOnboarding)]
    {
      icons := icons[tabId := IconPath(active, hasSeenOnboarding)];
    }

    /** The storage read issued at start-up, as written: `read` is how
        `storage.local.get` settled; on success the flag becomes the
        truthiness of what storage held at start-up and, if that is false,
        the window-wide icon is starred. The read settles once. */
    method LoadOnboarding(read: Settled<()>)
      requires Valid() && !loaded
      modifies this`hasSeenOnboarding, this`icons, this`loaded
      ensures Valid() && loaded
      ensures read.Rejected? ==> hasSeenOnboarding == old(hasSeenOnboarding) && icons == old(icons)
      ensures read.Resolved? ==> hasSeenOnboarding == (startStored == Some(true))
      ensures read.Resolved? && !hasSeenOnboarding ==> icons == old(icons)[None := StarredIcon]
      ensures read.Resolved? && hasSeenOnboarding ==> icons == old(icons)
      ensures old(hasSeenOnboarding) && !hasSeenOnboarding ==> read.Resolved? && startStored != Some(true)
    {
      loaded := true;
      if read.Resolved? {
        hasSeenOnboarding := startStored == Some(true);
        if !hasSeenOnboarding {
          SetIconActive(false, None);
        }
      }
    }

    /** The start-up read corrected so that it never unsets a flag the
        onboarding message already set. */
    method LoadOnboardingKeepingFlag(read: Settled<()>)
      requires Valid() && !loaded
      modifies this`hasSeenOnboarding, this`icons, this`loaded
      ensures Valid() && loaded
      ensures old(hasSeenOnboarding) ==> hasSeenOnboarding && icons == old(icons)
      ensures read.Rejected? ==> hasSeenOnboarding == old(hasSeenOnboarding) && icons == old(icons)
      ensures read.Resolved? ==> hasSeenOnboarding == (old(hasSeenOnboarding) || startStored == Some(true))
      ensures read.Resolved? && !hasSeenOnboarding ==> icons == old(icons)[None := StarredIcon]
      ensures read.Resolved? && hasSeenOnboarding ==> icons == old(icons)
      ensures !old(hasSeenOnboarding) && read.Resolved? ==>
        hasSeenOnboarding == (startStored == Some(true))
    {
      loaded := true;
      if read.Resolved? {
        hasSeenOnboarding := hasSeenOnboarding || startStored == Some(true);
        if !hasSeenOnboarding {
          SetIconActive(false, None);
        }
      }
    }

    /** The `hasSeenOnboarding` message: the flag goes to true and is
        persisted, and the window-wide icon loses its star. */
    method HasSeenOnboarding()
      requires Valid()
      modifies this`hasSeenOnboarding, this`stored, this`icons
      ensures Valid()
      ensures old(hasSeenOnboarding) ==> hasSeenOnboarding
      ensures hasSeenOnboarding && stored == Some(true)
      ensures icons == old(icons)[None := DefaultIcon]
    {
      hasSeenOnboarding := true;
      stored := Some(hasSeenOnboarding);
      SetIconActive(false, None);
    }

    /** The `closeSelector` message from a tab. */
    method CloseSelector(senderTabId: int)
      requires Valid()
      modifies this`icons
      ensures Valid()
      ensures icons == old(icons)[Some(senderTabId) := IconPath(false, hasSeenOnboarding)]
    {
      SetIconActive(false, Some(senderTabId));
    }

    /** `tabs.onActivated`, once `tabs.get` gave the tab's URL. */
    method OnActivated(tabId: int, url: string)
      requires Valid()
      modifies this`enabled
      ensures Valid()
      ensures enabled == ApplyChange(old(enabled), tabId, ActivatedChange(url, backend))
    {
      if url == "" {
        return;
      }
      if UrlEnabled(url, backend) {
        enabled := enabled[tabId := true];
      } else {
        enabled := enabled[tabId := false];
      }
    }

    /** `tabs.onUpdated` */
    method OnUpdated(infoUrl: string, tab: Tab)
      requires Valid()
      modifies this`enabled
      ensures Valid()
      ensures enabled == ApplyChange(old(enabled), tab.id,
                                     UpdatedChange(infoUrl, tab.active, hasSeenOnboarding, backend))
    {
      if infoUrl != "" && tab.active {
        if UrlEnabled(infoUrl, backend) {
          enabled := enabled[tab.id := true];
        } else if hasSeenOnboarding {
          enabled := enabled[tab.id := false];
        }
      }
    }

    /** `toggleSelector(tab)`: on success the tab's icon follows the
        selector's new state. */
    method ToggleSelector(tab: Tab, refresh: Settled<()>, toggle: Settled<bool>) returns (r: Settled<bool>)
      requires Valid()
      modifies this`icons
      ensures Valid()
      ensures r == ToggleResult(refresh, toggle)
      ensures icons == if r.Resolved? then old(icons)[Some(tab.id) := IconPath(r.value, hasSeenOnboarding)]
                       else old(icons)
    {
      r := ToggleResult(refresh, toggle);
      if r.Resolved? {
        SetIconActive(r.value, Some(tab.id));
      }
    }

    /** `browserAction.onClicked`. On a gallery surface `refresh` is the
        refresh the click itself starts and `auth` is how `auth.authHeaders()`
        settled; elsewhere `refresh` and `toggle` are the steps of
        `toggleSelector`. */
    method OnToolbarClick(tab: Tab, refresh: Settled<()>, auth: Settled<()>, toggle: Settled<bool>)
      returns (r: Reaction)
      requires Valid()
      modifies this`icons
      ensures Valid()
      ensures ShouldOpenMyShots(tab.url) ==>
        r == GallerySurfaceReaction(hasSeenOnboarding, refresh, auth, backend) && icons == old(icons)
      ensures !ShouldOpenMyShots(tab.url) ==>
        r == AfterToolbarToggle(ToggleResult(refresh, toggle), backend)
      ensures !ShouldOpenMyShots(tab.url) ==>
        icons == if ToggleResult(refresh, toggle).Resolved?
                 then old(icons)[Some(tab.id) := IconPath(toggle.value, hasSeenOnboarding)]
                 else old(icons)
      ensures !ShouldOpenMyShots(tab.url) ==> (r.Report? <==> FailsUntaggably(refresh, toggle))
    {
      if ShouldOpenMyShots(tab.url) {
        r := GallerySurfaceReaction(hasSeenOnboarding, refresh, auth, backend);
        return;
      }
      var toggled := ToggleSelector(tab, refresh, toggle);
      r := AfterToolbarToggle(toggled, backend);
      ToolbarToggleReportsOnlyUntaggable(refresh, toggle, backend);
    }

    /** `contextMenus.onClicked`: nothing happens without a tab. */
    method OnContextMenuClick(tab: Option<Tab>, refresh: Settled<()>, toggle: Settled<bool>)
      returns (r: Option<Reaction>)
      requires Valid()
      modifies this`icons
      ensures Valid()
      ensures tab.None? ==> r.None? && icons == old(icons)
      ensures tab.Some? ==> r == Some(AfterContextMenuToggle(ToggleResult(refresh, toggle)))
      ensures tab.Some? ==>
        icons == if ToggleResult(refresh, toggle).Resolved?
                 then old(icons)[Some(tab.value.id) := IconPath(toggle.value, hasSeenOnboarding)]
                 else old(icons)
    {
      if tab.None? {
        return None;
      }
      var toggled := ToggleSelector(tab.value, refresh, toggle);
      r := Some(AfterContextMenuToggle(toggled));
    }
  }

  /** When the start-up read settles before the onboarding message, the
      flag is set from then on: no later handler unsets it. A page restarted
      from the same storage comes up with the flag set. */
  method OnboardingSurvivesRestart(permissions: seq<string>, stored: Option<bool>, read: Settled<()>,
                                   tab: Tab, refresh: Settled<()>, toggle: Settled<bool>)
    returns (seenAfterLaterClicks: bool, seenAfterRestart: bool)
    ensures seenAfterLaterClicks && seenAfterRestart
  {
    var page := new BackgroundPage(permissions, stored);
    page.LoadOnboarding(read);
    page.HasSeenOnboarding();
    var _ := page.ToggleSelector(tab, refresh, toggle);
    page.CloseSelector(tab.id);
    seenAfterLaterClicks := page.hasSeenOnboarding;
    var restarted := new BackgroundPage(permissions, page.stored);
    restarted.LoadOnboarding(Resolved(()));
    seenAfterRestart := restarted.hasSeenOnboarding;
  }

  /** The start-up read as written, settling after the onboarding message on
      a profile that had no flag stored: the flag is cleared again and the
      window-wide icon starred, although storage now holds `true`. */
  method LateReadClearsFlag() returns (seen: bool, icon: string, persisted: Option<bool>)
    ensures !seen && icon == StarredIcon && persisted == Some(true)
  {
    var page := new BackgroundPage([], None);
    page.HasSeenOnboarding();
    page.LoadOnboarding(Resolved(()));
    seen := page.hasSeenOnboarding;
    icon := page.icons[None];
    persisted := page.stored;
  }

  /** With the corrected read, the same order keeps the flag and the
      default icon. */
  method LateReadKeepsFlag(permissions: seq<string>, stored: Option<bool>, read: Settled<()>)
    returns (seen: bool, icon: string)
    ensures seen && icon == DefaultIcon
  {
    var page := new BackgroundPage(permissions, stored);
    page.HasSeenOnboarding();
    page.LoadOnboardingKeepingFlag(read);
    seen := page.hasSeenOnboarding;
    icon := page.icons[None];
  }
}
