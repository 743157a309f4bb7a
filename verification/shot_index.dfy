/** The rules inside the gallery page ("My Shots"): how a shot's tile is
    classified, titled and given an image, which placeholder an empty list
    shows, and how typing in the search box schedules searches. The markup
    around them is not modelled; a rendered tile is the record of what it
    shows. */
module ShotIndex {
  import opened JsStrings

  // ----- clip shape -----

  /** How many pixels a clip may be off square and still count as square. */
  const SquareBuffer := 50

  datatype Dimensions = Dimensions(x: int, y: int)

  datatype ClipType = Landscape | Portrait | Square

  /** The CSS class a clip type becomes. */
  function ClipTypeName(t: ClipType): string {
    match t
    case Landscape => "landscape"
    case Portrait => "portrait"
    case Square => "square"
  }

  /** Distinct clip types become distinct classes, so the class a tile
      carries tells its shape. */
  lemma ClipTypeNamesDistinct(t: ClipType, u: ClipType)
    ensures ClipTypeName(t) == ClipTypeName(u) ==> t == u
  {
    if t != u {
      assert ClipTypeName(t)[0] != ClipTypeName(u)[0];
    }
  }

  /** `getClipType(dimensions)` */
  function GetClipType(d: Dimensions): (t: ClipType)
    ensures t == Landscape <==> d.x - d.y > SquareBuffer
    ensures t == Portrait <==> d.y - d.x > SquareBuffer
    ensures t == Square <==> -SquareBuffer <= d.x - d.y <= SquareBuffer
  {
    if d.x - SquareBuffer > d.y then Landscape
    else if d.x < d.y - SquareBuffer then Portrait
    else Square
  }

  function Transposed(t: ClipType): ClipType {
    match t
    case Landscape => Portrait
    case Portrait => Landscape
    case Square => Square
  }

  /** Turning a clip on its side swaps landscape and portrait. */
  lemma ClipTypeOfSwappedDimensions(d: Dimensions)
    ensures GetClipType(Dimensions(d.y, d.x)) == Transposed(GetClipType(d))
  {
  }

  // ----- titles -----

  const MaxTitleLength := 140

  /** `displayTitle(title)` */
  function DisplayTitle(title: string): (shown: string)
    ensures |title| <= MaxTitleLength ==> shown == title
    ensures |shown| <= MaxTitleLength + 3
    ensures title[..Min(|title|, MaxTitleLength)] <= shown
    ensures |title| > MaxTitleLength ==> |shown| == MaxTitleLength + 3 && shown[MaxTitleLength..] == "..."
  {
    if |title| > MaxTitleLength then title[..MaxTitleLength] + "..." else title
  }

  function Min(a: int, b: int): int {
    if a <= b then a else b
  }

  /** A shown title is shown as it is: the cut keeps the first 140 code
      units, and those are what a second cut keeps again. */
  lemma DisplayTitleIdempotent(title: string)
    ensures DisplayTitle(DisplayTitle(title)) == DisplayTitle(title)
  {
    if |title| > MaxTitleLength {
      var shown := DisplayTitle(title);
      assert shown[..MaxTitleLength] == title[..MaxTitleLength];
    }
  }

  // ----- shots and their tiles -----

  datatype ClipImage = ClipImage(url: string, dimensions: Dimensions)

  /** A clip; `image` is absent for a clip without an image record. */
  datatype Clip = Clip(image: Option<ClipImage>)

  /** The parts of a shot the tile reads. `clips` follows `clipNames()`;
      `images` holds the URL of each entry of `shot.images`; an empty
      `fullScreenThumbnail` stands for a missing one. */
  datatype Shot = Shot(id: string, title: string, clips: seq<Clip>, images: seq<string>,
                       fullScreenThumbnail: string)

  /** The clip a tile shows: the first one named, if any. */
  function FirstClip(shot: Shot): Option<Clip> {
    if |shot.clips| > 0 then Some(shot.clips[0]) else None
  }

  /** The tile's background image: the first clip's image, else the first
      of `shot.images`, else the full-screen thumbnail, else the placeholder
      (`questionMark`, the host's link to its question-mark image): the
      first available source in preference order. */
  function TileImageUrl(shot: Shot, questionMark: string): (url: string)
    ensures url == FirstAvailable(ImageCandidates(shot), questionMark)
  {
    var c := ImageCandidates(shot);
    assert c[0].None? && c[1].None? && c[2].None? ==> forall i :: 0 <= i < |c| ==> c[i].None?;
    var clip := FirstClip(shot);
    if clip.Some? && clip.value.image.Some? && clip.value.image.value.url != "" then
      clip.value.image.value.url
    else if |shot.images| > 0 then shot.images[0]
    else if shot.fullScreenThumbnail != "" then shot.fullScreenThumbnail
    else questionMark
  }

  /** The image sources in order of preference, each `None` when it is not
      there to use. */
  function ImageCandidates(shot: Shot): seq<Option<string>> {
    var clip := FirstClip(shot);
    [ if clip.Some? && clip.value.image.Some? && clip.value.image.value.url != ""
      then Some(clip.value.image.value.url) else None,
      if |shot.images| > 0 then Some(shot.images[0]) else None,
      if shot.fullScreenThumbnail != "" then Some(shot.fullScreenThumbnail) else None ]
  }

  /** The first available candidate, or `fallback` when none is. */
  function FirstAvailable(candidates: seq<Option<string>>, fallback: string): (r: string)
    ensures (forall i :: 0 <= i < |candidates| ==> candidates[i].None?) ==> r == fallback
    ensures forall i :: 0 <= i < |candidates| && candidates[i].Some?
                          && (forall j :: 0 <= j < i ==> candidates[j].None?)
                        ==> r == candidates[i].value
  {
    if candidates == [] then fallback
    else if candidates[0].Some? then candidates[0].value
    else FirstAvailable(candidates[1..], fallback)
  }

  /** What one tile shows: its React key, its `className`, its image, its
      title and its download link (`None` when `downloadUrls` has none). */
  datatype Tile = Tile(key: string, className: string, imageUrl: string, title: string,
                       downloadUrl: Option<string>)

  /** Rendering a tile reads the first clip's image dimensions whether or not
      there is such a clip or image; without them it throws a TypeError. */
  datatype RenderError = TypeError

  predicate HasClipImage(shot: Shot) {
    FirstClip(shot).Some? && FirstClip(shot).value.image.Some?
  }

  /** `renderShot(shot, downloadUrl)` */
  function RenderShot(shot: Shot, downloadUrl: Option<string>, questionMark: string): (r: Result<Tile, RenderError>)
    ensures r.Ok? <==> HasClipImage(shot)
    ensures r.Ok? ==> r.value.key == shot.id && r.value.downloadUrl == downloadUrl
    ensures r.Ok? ==> r.value.className == "shot " + ClipTypeName(GetClipType(shot.clips[0].image.value.dimensions))
    ensures r.Ok? ==> r.value.imageUrl == FirstAvailable(ImageCandidates(shot), questionMark)
    ensures r.Ok? ==> r.value.title == DisplayTitle(shot.title)
  {
    var imageUrl := TileImageUrl(shot, questionMark);
    var clip := FirstClip(shot);
    if clip.None? || clip.value.image.None? then Failed(TypeError)
    else
      Ok(Tile(shot.id, "shot " + ClipTypeName(GetClipType(clip.value.image.value.dimensions)), imageUrl,
              DisplayTitle(shot.title), downloadUrl))
  }

  // ----- the list of shots -----

  /** The placeholder shown instead of an empty list. */
  datatype Placeholder = NoDeviceId | NoSearchResults | NoShots

  /** `hasDeviceId` is whether the visitor is known; `defaultSearch` the
      search the page was loaded for ("" when there was none). */
  function EmptyPlaceholder(hasDeviceId: bool, defaultSearch: string): (p: Placeholder)
    ensures p == NoDeviceId <==> !hasDeviceId
    ensures p == NoSearchResults <==> hasDeviceId && defaultSearch != ""
    ensures p == NoShots <==> hasDeviceId && defaultSearch == ""
  {
    if !hasDeviceId then NoDeviceId
    else if defaultSearch != "" then NoSearchResults
    else NoShots
  }

  /** `renderShots()` returns either the tiles inside the masonry layout or
      the bare list of children, which then holds the one placeholder. */
  datatype ShotList = Masonry(tiles: seq<Tile>) | Children(placeholders: seq<Placeholder>)

  datatype Props = Props(shots: seq<Shot>, downloadUrls: map<string, string>, hasDeviceId: bool,
                         defaultSearch: string, questionMark: string)

  /** `this.props.downloadUrls[shot.id]` */
  function DownloadUrlFor(props: Props, shot: Shot): Option<string> {
    if shot.id in props.downloadUrls then Some(props.downloadUrls[shot.id]) else None
  }

  /** `renderShots()`: one tile per shot, in order, each with its download
      link; with no shots, exactly one placeholder. Any shot without a clip
      image makes the whole list throw. */
  method RenderShots(props: Props) returns (r: Result<ShotList, RenderError>)
    ensures r.Ok? <==> forall i :: 0 <= i < |props.shots| ==> HasClipImage(props.shots[i])
    ensures r.Ok? && props.shots == [] ==>
      r.value == Children([EmptyPlaceholder(props.hasDeviceId, props.defaultSearch)])
    ensures r.Ok? && props.shots != [] ==>
      r.value.Masonry? && |r.value.tiles| == |props.shots|
      && forall i :: 0 <= i < |props.shots| ==>
           Ok(r.value.tiles[i])
           == RenderShot(props.shots[i], DownloadUrlFor(props, props.shots[i]), props.questionMark)
  {
    var children: seq<Tile> := [];
    for i := 0 to |props.shots|
      invariant |children| == i
      invariant forall j :: 0 <= j < i ==>
        Ok(children[j]) == RenderShot(props.shots[j], DownloadUrlFor(props, props.shots[j]), props.questionMark)
    {
      var shot := props.shots[i];
      var tile := RenderShot(shot, DownloadUrlFor(props, shot), props.questionMark);
      if tile.Failed? {
        return Failed(tile.error);
      }
      children := children + [tile.value];
    }
    if |children| == 0 {
      r := Ok(Children([EmptyPlaceholder(props.hasDeviceId, props.defaultSearch)]));
    } else {
      r := Ok(Masonry(children));
    }
  }

  // ----- the search box -----

  /** Values shorter than this many code units plus one are not searched
      for while typing. */
  const MinTimedSearchLength := 3

  /** A timed search waiting to run: the timer's handle and the value it
      will search for. */
  datatype PendingSearch = PendingSearch(handle: TimerHandle, query: string)

  /** What `setTimeout` returns: a positive integer. */
  type TimerHandle = h: int | h > 0 witness 1

  /** `state.defaultSearch` and the `_keyupTimeout` slot. */
  datatype SearchState = SearchState(defaultSearch: string, keyupTimeout: Option<PendingSearch>)

  /** What one keystroke asks of the outside world: a search to issue now,
      and a timer to clear. */
  datatype SearchEffect = SearchEffect(searchNow: Option<string>, cleared: Option<TimerHandle>)

  /** `onChangeSearch()` as written, for the box's new value `val`; `handle`
      is what `setTimeout` would return. */
  function ChangeSearch(s: SearchState, val: string, handle: TimerHandle): (r: (SearchState, SearchEffect))
    ensures r.0.defaultSearch == val
    ensures r.1.searchNow.Some? <==> val == ""
    ensures r.1.searchNow.Some? ==> r.1.searchNow.value == val
    ensures r.1.cleared.Some? ==> s.keyupTimeout.Some? && r.1.cleared.value == s.keyupTimeout.value.handle
    ensures r.0.keyupTimeout.Some? ==>
      r.0.keyupTimeout == s.keyupTimeout || r.0.keyupTimeout == Some(PendingSearch(handle, val))
  {
    if val == "" then
      (SearchState(val, s.keyupTimeout), SearchEffect(Some(val), None))
    else
      var cleared := if s.keyupTimeout.Some? then Some(s.keyupTimeout.value.handle) else None;
      var pending := if |val| > MinTimedSearchLength then Some(PendingSearch(handle, val)) else None;
      (SearchState(val, pending), SearchEffect(None, cleared))
  }

  /** The slot's intended meaning: whatever is pending searches for what the
      box shows. */
  predicate PendingIsCurrent(s: SearchState) {
    s.keyupTimeout.Some? ==> s.keyupTimeout.value.query == s.defaultSearch
  }

  /** Typing a non-empty value clears the timer that was pending and leaves
      at most one pending search, for the new value, and only when it is
      longer than three code units. */
  lemma TypingReplacesPendingSearch(s: SearchState, val: string, handle: TimerHandle)
    requires val != ""
    ensures PendingIsCurrent(ChangeSearch(s, val, handle).0)
    ensures ChangeSearch(s, val, handle).1.searchNow.None?
    ensures s.keyupTimeout.Some? ==> ChangeSearch(s, val, handle).1.cleared == Some(s.keyupTimeout.value.handle)
    ensures ChangeSearch(s, val, handle).0.keyupTimeout.Some? <==> |val| > MinTimedSearchLength
  {
  }

  /** Emptying the box searches at once but returns before the slot is
      touched: whatever search was pending survives, no timer is cleared, and
      a search pending for any non-empty text is now stale. */
  lemma EmptyingBoxKeepsStaleSearch(s: SearchState, handle: TimerHandle)
    ensures ChangeSearch(s, "", handle).0.keyupTimeout == s.keyupTimeout
    ensures ChangeSearch(s, "", handle).1 == SearchEffect(Some(""), None)
    ensures s.keyupTimeout.Some? && s.keyupTimeout.value.query != "" ==>
      !PendingIsCurrent(ChangeSearch(s, "", handle).0)
  {
  }

  /** The stale search is reached from any state: typing a value longer
      than three code units and then emptying the box leaves the search for
      that value pending, although the box is empty. */
  lemma {:induction false} TypingThenEmptyingLeavesStaleSearch(s: SearchState, val: string,
                                                               typed: TimerHandle, emptied: TimerHandle)
    requires |val| > MinTimedSearchLength
    ensures PendingIsCurrent(ChangeSearch(s, val, typed).0)
    ensures ChangeSearch(ChangeSearch(s, val, typed).0, "", emptied).0
            == SearchState("", Some(PendingSearch(typed, val)))
    ensures !PendingIsCurrent(ChangeSearch(ChangeSearch(s, val, typed).0, "", emptied).0)
  {
    TypingReplacesPendingSearch(s, val, typed);
    EmptyingBoxKeepsStaleSearch(ChangeSearch(s, val, typed).0, emptied);
  }

  /** `onChangeSearch()` with the pending timer also cleared when the box is
      emptied. */
  function ChangeSearchCancelling(s: SearchState, val: string, handle: TimerHandle): (SearchState, SearchEffect) {
    var cleared := if s.keyupTimeout.Some? then Some(s.keyupTimeout.value.handle) else None;
    if val == "" then
      (SearchState(val, None), SearchEffect(Some(val), cleared))
    else
      var pending := if |val| > MinTimedSearchLength then Some(PendingSearch(handle, val)) else None;
      (SearchState(val, pending), SearchEffect(None, cleared))
  }

  /** With the correction, every keystroke leaves the slot current and
      clears the timer it replaces, and it differs from the original only
      when the box is emptied. */
  lemma CancellingKeepsPendingCurrent(s: SearchState, val: string, handle: TimerHandle)
    ensures PendingIsCurrent(ChangeSearchCancelling(s, val, handle).0)
    ensures s.keyupTimeout.Some? ==>
      ChangeSearchCancelling(s, val, handle).1.cleared == Some(s.keyupTimeout.value.handle)
    ensures val != "" ==> ChangeSearchCancelling(s, val, handle) == ChangeSearch(s, val, handle)
  {
  }

  /** The page component's search state. */
  class SearchBox {
    var defaultSearch: string
    var keyupTimeout: Option<PendingSearch>

    /** The constructor copies the search the page was loaded for. */
    constructor (defaultSearch: string)
      ensures this.defaultSearch == defaultSearch && keyupTimeout.None?
    {
      this.defaultSearch := defaultSearch;
      keyupTimeout := None;
    }

    function State(): SearchState
      reads this
    {
      SearchState(defaultSearch, keyupTimeout)
    }

    /** `onChangeSearch()` for the box's new value `val`. */
    method OnChangeSearch(val: string, handle: TimerHandle) returns (effect: SearchEffect)
      modifies this
      ensures (State(), effect) == ChangeSearch(old(State()), val, handle)
    {
      defaultSearch := val;
      if val == "" {
        return SearchEffect(Some(val), None);
      }
      var cleared := None;
      if keyupTimeout.Some? {
        cleared := Some(keyupTimeout.value.handle);
        keyupTimeout := None;
      }
      if |val| > MinTimedSearchLength {
        keyupTimeout := Some(PendingSearch(handle, val));
      }
      effect := SearchEffect(None, cleared);
    }
  }
}
