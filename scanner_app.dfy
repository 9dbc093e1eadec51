/**
  The main front end's handlers: the search button, the debounced game
  preview with its stale-response guard, the region, ping and sort controls,
  and the server list, globe points and counts they re-render.
 */
module App {
  import opened Wrappers
  import opened Strings
  import opened Servers

  /** Game details as the API returns them; a field that is `undefined` is absent. */
  type Details = map<string, string>

  /** The preview's details, tagged with the place id they were fetched for. */
  datatype CachedDetails = CachedDetails(placeId: string, details: Details)

  // ---------------------------------------------------------------------------
  // Search
  // ---------------------------------------------------------------------------

  const InvalidPlaceIdMessage := "Please enter a valid Place ID."

  /**
    `handleSearch`'s check on the trimmed input: it must be non-empty and
    numeric; whether text is numeric (`!isNaN(text)`) is a parameter.
   */
  function ValidateSearch(input: string, isNumeric: string -> bool): (r: Result<string>)
    ensures r.Ok? <==> Trim(input) != "" && isNumeric(Trim(input))
    ensures r.Ok? ==> r.value == Trim(input)
    ensures r.Err? ==> r.message == InvalidPlaceIdMessage
  {
    var placeId := Trim(input);
    if placeId == "" || !isNumeric(placeId) then Err(InvalidPlaceIdMessage) else Ok(placeId)
  }

  /**
    `finalGameDetails`: the search's details, except that the thumbnail and
    the visit count come from the preview's details when those were fetched
    for the same place id (an absent one there makes it absent here).
   */
  function MergeGameDetails(fromSearch: Details, cached: Option<CachedDetails>, placeId: string): (r: Details)
    ensures !(cached.Some? && cached.value.placeId == placeId) ==> r == fromSearch
    ensures cached.Some? && cached.value.placeId == placeId ==>
      && (forall k :: k != "thumbnailUrl" && k != "visits" ==> (k in r <==> k in fromSearch))
      && (forall k :: k != "thumbnailUrl" && k != "visits" && k in r ==> r[k] == fromSearch[k])
      && (forall k :: k == "thumbnailUrl" || k == "visits" ==> (k in r <==> k in cached.value.details))
      && (forall k :: (k == "thumbnailUrl" || k == "visits") && k in r ==> r[k] == cached.value.details[k])
  {
    if cached.Some? && cached.value.placeId == placeId then
      var preview := cached.value.details;
      CopyField(CopyField(fromSearch, preview, "thumbnailUrl"), preview, "visits")
    else fromSearch
  }

  /** `target.key = source.key`, where an `undefined` source value leaves the key absent. */
  function CopyField(target: Details, source: Details, key: string): (r: Details)
    ensures key in r <==> key in source
    ensures key in r ==> r[key] == source[key]
    ensures forall k :: k != key ==> (k in r <==> k in target) && (k in r ==> r[k] == target[k])
  {
    if key in source then target[key := source[key]] else target - {key}
  }

  /** The search's results, as `onComplete` receives them. */
  datatype SearchResults = SearchResults(gameDetails: Details, servers: seq<Server>)

  // ---------------------------------------------------------------------------
  // The preview
  // ---------------------------------------------------------------------------

  /**
    The preview's state: the place id of the armed debounce timer, the
    lookups already issued (in order), the id and details of the preview on
    show, and whether the preview panel is visible.
   */
  datatype PreviewState = PreviewState(
    pending: Option<string>,
    lookups: seq<string>,
    previewId: Option<string>,
    details: Option<CachedDetails>,
    shown: bool)

  /** Input the preview looks up: numeric and at least six characters once trimmed. */
  predicate PreviewInputValid(placeId: string, isNumeric: string -> bool) {
    placeId != "" && isNumeric(placeId) && |placeId| >= 6
  }

  /**
    `handlePreviewInput`: the pending timer is always cancelled; invalid input
    clears the preview; input already on show arms nothing; otherwise a timer
    is armed for the trimmed input.
   */
  function OnPreviewInput(p: PreviewState, input: string, isNumeric: string -> bool): (q: PreviewState)
    ensures q.lookups == p.lookups
    ensures q.pending.Some? <==> PreviewInputValid(Trim(input), isNumeric) && p.previewId != Some(Trim(input))
    ensures q.pending.Some? ==> q.pending.value == Trim(input)
    ensures !PreviewInputValid(Trim(input), isNumeric) ==> q.previewId.None? && q.details.None? && !q.shown
    ensures PreviewInputValid(Trim(input), isNumeric) ==>
      q.previewId == p.previewId && q.details == p.details && q.shown == p.shown
  {
    var placeId := Trim(input);
    var cancelled := p.(pending := None);
    if !PreviewInputValid(placeId, isNumeric) then
      cancelled.(previewId := None, details := None, shown := false)
    else if p.previewId == Some(placeId) then cancelled
    else cancelled.(pending := Some(placeId))
  }

  /** The timer fires: the panel is hidden and the lookup for its place id is issued. */
  function OnPreviewTimer(p: PreviewState): (q: PreviewState)
    requires p.pending.Some?
    ensures q.pending.None? && !q.shown
    ensures q.lookups == p.lookups + [p.pending.value]
    ensures q.previewId == p.previewId && q.details == p.details
  {
    p.(pending := None, lookups := p.lookups + [p.pending.value], shown := false)
  }

  /**
    A lookup answers: the preview takes the data only when there is data and
    the input still reads the requested id; otherwise the preview id and
    details are cleared. The pending timer and the lookups are left alone.
   */
  function OnPreviewResolved(p: PreviewState, requested: string, data: Option<Details>, input: string): (q: PreviewState)
    ensures q.pending == p.pending && q.lookups == p.lookups
    ensures q.previewId.Some? <==> data.Some? && Trim(input) == requested
    ensures q.previewId.Some? ==>
      q.previewId == Some(requested) && q.details == Some(CachedDetails(requested, data.value)) && q.shown
    ensures q.previewId.None? ==> q.details.None? && q.shown == p.shown
  {
    if data.Some? && Trim(input) == requested then
      p.(previewId := Some(requested), details := Some(CachedDetails(requested, data.value)), shown := true)
    else p.(previewId := None, details := None)
  }

  /**
    The stale-response guard: an answer for an id the input no longer reads
    never becomes the preview, and afterwards the search merge uses no
    preview details at all.
   */
  lemma StaleAnswerDiscarded(p: PreviewState, requested: string, data: Option<Details>, input: string,
                             fromSearch: Details, placeId: string)
    requires Trim(input) != requested
    ensures OnPreviewResolved(p, requested, data, input).previewId.None?
    ensures MergeGameDetails(fromSearch, OnPreviewResolved(p, requested, data, input).details, placeId) == fromSearch
  {
  }

  /**
    Retyping the id already on show cancels the timer and arms none, while
    the preview and its details stay.
   */
  lemma SameInputArmsNothing(p: PreviewState, input: string, isNumeric: string -> bool)
    requires PreviewInputValid(Trim(input), isNumeric) && p.previewId == Some(Trim(input))
    ensures OnPreviewInput(p, input, isNumeric) == p.(pending := None)
  {
  }

  // ---------------------------------------------------------------------------
  // Filters, sorting and the rendered list
  // ---------------------------------------------------------------------------

  /** A running ping-ceiling animation from its start value to its target. */
  datatype Tween = Tween(from: int, to: int)

  predicate Between(v: int, a: int, b: int) {
    (a <= v <= b) || (b <= v <= a)
  }

  /**
    The filter and sort state: the scanned servers, the selected region and
    ping ceiling, the animated ceiling the list is filtered with, the running
    animation, and the sort field and order.
   */
  datatype FilterState = FilterState(
    allServers: seq<Server>,
    region: string,
    maxPing: int,
    animatedMaxPing: int,
    tween: Option<Tween>,
    sort: SortSpec)

  /** What the server list shows: the filtered servers, or the servers of a clicked globe point. */
  datatype ListSource = Filtered | AtLocation(servers: seq<Server>)

  /** The rendered output: the list, the globe points and the `shown of total` counts. */
  datatype ServerView = ServerView(source: ListSource, listed: seq<Server>, globePoints: seq<Server>,
                                   shownCount: nat, totalCount: nat)

  /**
    `applyFiltersAndRender` (or, for a clicked point, the point's servers): the
    globe shows the visible servers unsorted, the counts are the visible and
    the total number, and the list holds the listed servers in sort order.
   */
  function ViewOf(f: FilterState, source: ListSource): (v: ServerView)
    ensures v.source == source
    ensures v.globePoints == VisibleServers(f.allServers, f.region, f.animatedMaxPing)
    ensures v.shownCount == |v.globePoints| && v.totalCount == |f.allServers| && v.shownCount <= v.totalCount
    ensures source.Filtered? ==> multiset(v.listed) == multiset(v.globePoints)
    ensures source.AtLocation? ==> multiset(v.listed) == multiset(source.servers)
    ensures Sorted(v.listed, f.sort)
  {
    var filtered := VisibleServers(f.allServers, f.region, f.animatedMaxPing);
    var listed := if source.Filtered? then SortServers(filtered, f.sort) else SortServers(source.servers, f.sort);
    ServerView(source, listed, filtered, |filtered|, |f.allServers|)
  }

  /** The session: the join id, the searches issued, the status line and the game-info panel. */
  datatype Session = Session(
    placeIdForJoin: Option<string>,
    searches: seq<string>,
    status: string,
    progressText: string,
    gameInfo: Details,
    listTitle: string)

  class ScannerApp {
    var input: string
    var session: Session
    var preview: PreviewState
    var filters: FilterState
    var view: ServerView
    var sortButtonTitle: string

    /** Whatever was rendered last is what the current filters give. */
    ghost predicate Valid()
      reads this
    {
      view == ViewOf(filters, view.source)
    }

    constructor (maxPing: int, sort: SortSpec)
      ensures Valid()
      ensures input == "" && filters == FilterState([], "all", maxPing, maxPing, None, sort)
      ensures preview == PreviewState(None, [], None, None, false)
      ensures session == Session(None, [], "", "", map[], "") && view.source == Filtered
    {
      input := "";
      session := Session(None, [], "", "", map[], "");
      preview := PreviewState(None, [], None, None, false);
      filters := FilterState([], "all", maxPing, maxPing, None, sort);
      view := ViewOf(FilterState([], "all", maxPing, maxPing, None, sort), Filtered);
      sortButtonTitle := "";
    }

    method Render()
      modifies this`view
      ensures Valid() && view == ViewOf(filters, Filtered)
    {
      view := ViewOf(filters, Filtered);
    }

    /**
      `handleSearch`: invalid input shows the error and changes nothing else;
      valid input records the join id and issues the search for it.
     */
    method HandleSearch(isNumeric: string -> bool)
      requires Valid()
      modifies this`session
      ensures Valid()
      ensures ValidateSearch(input, isNumeric).Err? ==>
        session == old(session).(status := InvalidPlaceIdMessage)
      ensures ValidateSearch(input, isNumeric).Ok? ==>
        var placeId := ValidateSearch(input, isNumeric).value;
        session == old(session).(placeIdForJoin := Some(placeId), searches := old(session.searches) + [placeId],
                                 status := "Searching for servers...")
    {
      match ValidateSearch(input, isNumeric)
      case Err(message) =>
        session := session.(status := message);
      case Ok(placeId) =>
        session := session.(placeIdForJoin := Some(placeId), searches := session.searches + [placeId],
                            status := "Searching for servers...");
    }

    /**
      `onComplete` of search `k`: the game info merges the preview's details,
      the servers are stored, the animated ceiling snaps to the selected one
      and the list is rendered; an empty result retitles the list.
     */
    method SearchCompleted(k: nat, results: SearchResults)
      requires Valid() && k < |session.searches|
      modifies this`session, this`filters, this`view
      ensures Valid()
      ensures session == old(session).(
        gameInfo := MergeGameDetails(results.gameDetails, old(preview.details), old(session.searches[k])),
        listTitle := if results.servers == [] then "No Servers Found" else old(session.listTitle))
      ensures filters == old(filters).(allServers := results.servers, animatedMaxPing := old(filters.maxPing))
      ensures view == ViewOf(filters, Filtered)
    {
      var placeId := session.searches[k];
      session := session.(gameInfo := MergeGameDetails(results.gameDetails, preview.details, placeId));
      filters := filters.(allServers := results.servers, animatedMaxPing := filters.maxPing);
      Render();
      if results.servers == [] {
        session := session.(listTitle := "No Servers Found");
      }
    }

    /** `onError`: the error status and the failed-scan progress text, with the message cut to 50 characters. */
    method SearchFailed(message: string)
      requires Valid()
      modifies this`session
      ensures Valid()
      ensures session == old(session).(status := "Error: " + message,
        progressText := "Scan failed: " + message[..if |message| < 50 then |message| else 50] + "...")
    {
      var shortened := message[..if |message| < 50 then |message| else 50];
      session := session.(status := "Error: " + message, progressText := "Scan failed: " + shortened + "...");
    }

    method PreviewInput(raw: string, isNumeric: string -> bool)
      requires Valid()
      modifies this`input, this`preview
      ensures Valid()
      ensures input == raw && preview == OnPreviewInput(old(preview), raw, isNumeric)
    {
      input := raw;
      preview := OnPreviewInput(preview, raw, isNumeric);
    }

    method PreviewTimerFired()
      requires Valid() && preview.pending.Some?
      modifies this`preview
      ensures Valid()
      ensures preview == OnPreviewTimer(old(preview))
    {
      preview := OnPreviewTimer(preview);
    }

    /**
      Lookup `k` answers with `data` (`None` for an empty answer). A rejected
      fetch throws out of the timer callback and changes nothing, so it is no
      event here. Each lookup answers at most once; the model does not record
      which have answered, and a second answer steps the state again.
     */
    method PreviewLookupResolved(k: nat, data: Option<Details>)
      requires Valid() && k < |preview.lookups|
      modifies this`preview
      ensures Valid()
      ensures preview == OnPreviewResolved(old(preview), old(preview.lookups[k]), data, input)
    {
      preview := OnPreviewResolved(preview, preview.lookups[k], data, input);
    }

    method RegionChanged(region: string)
      requires Valid()
      modifies this`filters, this`view
      ensures Valid()
      ensures filters == old(filters).(region := region) && view == ViewOf(filters, Filtered)
    {
      filters := filters.(region := region);
      Render();
    }

    /**
      The ping slider settles on `target`: the selected ceiling becomes the
      target and any running animation is replaced by one from the current
      animated value to the target; nothing is re-rendered yet.
     */
    method MaxPingChanged(target: int)
      requires Valid()
      modifies this`filters
      ensures Valid()
      ensures filters == old(filters).(maxPing := target, tween := Some(Tween(old(filters.animatedMaxPing), target)))
    {
      filters := filters.(maxPing := target, tween := Some(Tween(filters.animatedMaxPing, target)));
    }

    /** An animation frame: the animated ceiling takes a value on the way to the target and the list re-renders. */
    method TweenTick(value: int)
      requires Valid() && filters.tween.Some?
      requires Between(value, filters.tween.value.from, filters.tween.value.to)
      modifies this`filters, this`view
      ensures Valid()
      ensures filters == old(filters).(animatedMaxPing := value) && view == ViewOf(filters, Filtered)
    {
      filters := filters.(animatedMaxPing := value);
      Render();
    }

    /** The last frame: the animated ceiling reaches the target and the animation ends. */
    method TweenEnd()
      requires Valid() && filters.tween.Some?
      modifies this`filters, this`view
      ensures Valid()
      ensures filters == old(filters).(animatedMaxPing := old(filters.tween.value.to), tween := None)
      ensures view == ViewOf(filters, Filtered)
    {
      filters := filters.(animatedMaxPing := filters.tween.value.to, tween := None);
      Render();
    }

    method SortByChanged(field: string)
      requires Valid()
      modifies this`filters, this`view
      ensures Valid()
      ensures filters == old(filters).(sort := SortSpec(field, old(filters.sort.order)))
      ensures view == ViewOf(filters, Filtered)
    {
      filters := filters.(sort := SortSpec(field, filters.sort.order));
      Render();
    }

    /** The sort-order button: the order toggles, the button title follows it and the list re-renders. */
    method SortOrderClicked()
      requires Valid()
      modifies this`filters, this`sortButtonTitle, this`view
      ensures Valid()
      ensures filters == old(filters).(sort := SortSpec(old(filters.sort.sortBy), ToggleOrder(old(filters.sort.order))))
      ensures sortButtonTitle == if filters.sort.order == "asc" then "Sort Ascending" else "Sort Descending"
      ensures view == ViewOf(filters, Filtered)
    {
      filters := filters.(sort := SortSpec(filters.sort.sortBy, ToggleOrder(filters.sort.order)));
      sortButtonTitle := if filters.sort.order == "asc" then "Sort Ascending" else "Sort Descending";
      Render();
    }

    /** A click on a globe point lists that location's servers, sorted the same way. */
    method PointClicked(servers: seq<Server>)
      requires Valid()
      modifies this`view
      ensures Valid()
      ensures view == ViewOf(filters, AtLocation(servers))
      ensures view.globePoints == old(view.globePoints)
    {
      view := ViewOf(filters, AtLocation(servers));
    }

    /** A click on the globe itself re-renders the filtered list. */
    method GlobeClicked()
      requires Valid()
      modifies this`view
      ensures Valid()
      ensures view == ViewOf(filters, Filtered)
    {
      Render();
    }
  }
}
