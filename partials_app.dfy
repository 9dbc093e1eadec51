/**
  The component-based front end's handlers: the digit-only Place ID input with
  its debounced preview, the server search with its session reset, empty-list
  exit, geolocation progress and error path, and the region, ping and sort
  controls. Panels are drawn through the components manager.
 */
module AppPartials {
  import opened Wrappers
  import opened Strings
  import opened Servers
  import opened Partials
  import opened Components
  import opened App

  // ---------------------------------------------------------------------------
  // The search
  // ---------------------------------------------------------------------------

  const EmptyInputMessage := "Please enter a Place ID."
  const NonPositiveIdMessage := "Please enter a valid numeric Place ID."
  const NoServersMessage := "No servers found for this Place ID."

  /**
    `findServers`'s check. The input field only ever holds digits (the input
    listener strips everything else), so `parseInt` reads it as a decimal
    number: an empty field and an id of zero (`"0"`, `"000"`) are refused.
   */
  function ValidatePlaceId(input: string): (r: Result<nat>)
    requires AllDigits(input)
    ensures input == [] ==> r == Err(EmptyInputMessage)
    ensures input != [] && (forall i :: 0 <= i < |input| ==> input[i] == '0') ==> r == Err(NonPositiveIdMessage)
    ensures r.Ok? <==> exists i :: 0 <= i < |input| && input[i] != '0'
    ensures r.Ok? ==> r.value == ParseDigits(input) && r.value > 0
  {
    var text := Trim(input);
    ParseDigitsZero(text);
    if text == [] then Err(EmptyInputMessage)
    else
      var placeId := ParseDigits(text);
      if placeId <= 0 then Err(NonPositiveIdMessage) else Ok(placeId)
  }

  /**
    `Math.round(processed / total * 100)` in exact arithmetic: the nearest
    integer to the percentage, a half rounding up.
   */
  function BatchProgress(processed: nat, total: nat): (p: int)
    requires total > 0
    ensures total * (2 * p - 1) <= 200 * processed < total * (2 * p + 1)
  {
    var p := (200 * processed + total) / (2 * total);
    DivBounds(200 * processed + total, 2 * total);
    p
  }

  lemma DivBounds(a: nat, b: nat)
    requires b > 0
    ensures b * (a / b) <= a < b * (a / b) + b
  {
  }

  /** The progress stays within 0..100, starts at 0 and reaches 100 exactly on the last batch. */
  lemma {:induction false} BatchProgressBounds(processed: nat, total: nat)
    requires 0 < total && processed <= total
    ensures 0 <= BatchProgress(processed, total) <= 100
    ensures processed == 0 ==> BatchProgress(processed, total) == 0
    ensures BatchProgress(processed, total) == 100 <==> 200 * processed >= 199 * total
  {
    var p := BatchProgress(processed, total);
    MulCancelLt(total, 0, 2 * p + 1);
    MulCancelLe(total, 2 * p - 1, 200);
    if processed == 0 {
      MulCancelLe(total, 2 * p - 1, 0);
    }
    if 200 * processed >= 199 * total {
      MulCancelLt(total, 199, 2 * p + 1);
    }
  }

  lemma MulCancelLe(a: nat, b: int, c: int)
    requires a > 0 && a * b <= a * c
    ensures b <= c
  {
    assert a * (c + 1) == a * c + a;
    MulCancelLt(a, b, c + 1);
  }

  lemma MulCancelLt(a: nat, b: int, c: int)
    requires a > 0 && a * b < a * c
    ensures b < c
  {
  }

  /** More processed servers never lower the progress. */
  lemma {:induction false} BatchProgressMonotone(p1: nat, p2: nat, total: nat)
    requires 0 < total && p1 <= p2
    ensures BatchProgress(p1, total) <= BatchProgress(p2, total)
  {
    var a, b := BatchProgress(p1, total), BatchProgress(p2, total);
    MulCancelLt(total, 2 * a - 1, 2 * b + 1);
  }

  /** In digits, a slash, then anything, the first slash comes right after the digits. */
  lemma SlashAfterDigits(p: string, t: string)
    requires AllDigits(p)
    ensures '/' in p + "/" + t && FirstIndex(p + "/" + t, '/') == |p|
    ensures (p + "/" + t)[..|p|] == p && (p + "/" + t)[|p| + 1..] == t
  {
    var counts := p + "/" + t;
    assert counts[|p|] == '/';
    var i := FirstIndex(counts, '/');
    assert i <= |p|;
    assert forall j :: 0 <= j < |p| ==> counts[j] == p[j];
  }

  const BatchPrefix := "Processing server locations... ("

  /**
    The loader text during geolocation: `Processing server locations...
    (processed/total)`. Between the parentheses, the text before the first
    slash reads back as `processed` and the text after it as `total`.
   */
  function BatchMessage(processed: nat, total: nat): (r: string)
    ensures |r| > |BatchPrefix| && r[..|BatchPrefix|] == BatchPrefix && r[|r| - 1] == ')'
    ensures var counts := r[|BatchPrefix|..|r| - 1];
      && '/' in counts
      && var slash := FirstIndex(counts, '/');
      && AllDigits(counts[..slash]) && ParseDigits(counts[..slash]) == processed
      && AllDigits(counts[slash + 1..]) && ParseDigits(counts[slash + 1..]) == total
  {
    var p, t := DecimalString(processed), DecimalString(total);
    var counts := p + "/" + t;
    assert FirstIndex(counts, '/') == |p| && counts[..|p|] == p && counts[|p| + 1..] == t by {
      SlashAfterDigits(p, t);
    }
    var r := BatchPrefix + counts + ")";
    assert r[|BatchPrefix|..|r| - 1] == counts;
    r
  }

  // ---------------------------------------------------------------------------
  // The preview
  // ---------------------------------------------------------------------------

  /** The placeholder shown while the preview loads. */
  const LoadingGame := GameData(Some("Loading..."), Some(""), Some(Text("...")), Some(Text("...")))

  /** The placeholder shown when the preview lookup fails. */
  const FailedGame := GameData(Some("Failed to load"), Some(""), Some(Text("N/A")), Some(Text("N/A")))

  /** What the preview panel receives for each placeholder. */
  lemma PlaceholderPatches(toLocale: int -> string)
    ensures GamePreviewPatch(LoadingGame, toLocale) ==
      map["thumbnailUrl" := "", "gameName" := "Loading...", "playing" := "...", "visits" := "..."]
    ensures GamePreviewPatch(FailedGame, toLocale) ==
      map["thumbnailUrl" := "", "gameName" := "Failed to load", "playing" := "N/A", "visits" := "N/A"]
  {
  }

  /**
    The input listener: every non-digit is dropped, and a preview timer is
    armed (for the parsed id) exactly when at least six digits remain.
   */
  function DebounceTarget(raw: string): (r: Option<nat>)
    ensures r.Some? <==> |StripNonDigits(raw)| >= 6
    ensures r.Some? ==> r.value == ParseDigits(StripNonDigits(raw))
  {
    var value := StripNonDigits(raw);
    if |value| >= 6 then Some(ParseDigits(value)) else None
  }

  /** The listener's filter is idempotent: what it leaves in the field passes through it unchanged. */
  lemma StripIdempotent(raw: string)
    ensures StripNonDigits(StripNonDigits(raw)) == StripNonDigits(raw)
  {
  }

  // ---------------------------------------------------------------------------
  // Filters and the rendered list
  // ---------------------------------------------------------------------------

  /** What `applyFiltersAndRender` shows: the sorted visible servers and the `shown of total` counts. */
  datatype ListView = ListView(listed: seq<Server>, shownCount: nat, totalCount: nat)

  function ListViewOf(f: FilterState): (v: ListView)
    ensures multiset(v.listed) == multiset(VisibleServers(f.allServers, f.region, f.animatedMaxPing))
    ensures Sorted(v.listed, f.sort)
    ensures v.shownCount == |v.listed| <= v.totalCount == |f.allServers|
  {
    var sorted := SortServers(VisibleServers(f.allServers, f.region, f.animatedMaxPing), f.sort);
    assert |sorted| == |multiset(sorted)|;
    ListView(sorted, |sorted|, |f.allServers|)
  }

  /**
    The search session: the current id, the searches issued (a search is
    known by its index here), the status line, the views on show, the
    searches whose geolocation pass is still running, and the search whose
    server array is the stored list (none after a reset).
   */
  datatype SearchSession = SearchSession(
    currentPlaceId: Option<nat>,
    searches: seq<nat>,
    status: string,
    loaderShown: bool,
    mainView: bool,
    globeReady: bool,
    geolocating: set<nat>,
    listOwner: Option<nat>)

  /**
    What a geolocation pass may do to the stored records in place: each
    record may gain its region name and its ping, while the list keeps its
    length, its order, every id and every other field.
   */
  predicate LocatedFrom(before: seq<Server>, after: seq<Server>) {
    && |after| == |before|
    && forall i :: 0 <= i < |before| ==>
         after[i].id == before[i].id && after[i].fields - {"ping"} == before[i].fields - {"ping"}
  }

  /** Successive batches compose: the records after a later batch are located from those first stored. */
  lemma LocatedFromChains(a: seq<Server>, b: seq<Server>, c: seq<Server>)
    requires LocatedFrom(a, b) && LocatedFrom(b, c)
    ensures LocatedFrom(a, c)
    ensures forall i :: 0 <= i < |a| ==> c[i].id == a[i].id
  {
  }

  /**
    `findServers` up to the search call: a refused id shows its message and
    changes nothing else; an accepted one resets the session (region to all,
    animated ceiling to 500, and a fresh empty server list that no search
    owns) and issues the search, leaving the sort, the selected ceiling and
    the geolocation passes of earlier searches as they are.
   */
  function OnFindServers(s: SearchSession, f: FilterState, input: string): (r: (SearchSession, FilterState))
    requires AllDigits(input)
    ensures ValidatePlaceId(input).Err? ==> r == (s.(status := ValidatePlaceId(input).message), f)
    ensures ValidatePlaceId(input).Ok? ==>
      var placeId := ValidatePlaceId(input).value;
      && r.0 == s.(currentPlaceId := Some(placeId), searches := s.searches + [placeId],
                   loaderShown := true, mainView := true, globeReady := true, listOwner := None)
      && r.1.allServers == [] && r.1.region == "all" && r.1.animatedMaxPing == 500
      && r.1.sort == f.sort && r.1.maxPing == f.maxPing && r.1.tween == f.tween
  {
    match ValidatePlaceId(input)
    case Err(message) => (s.(status := message), f)
    case Ok(placeId) =>
      (s.(currentPlaceId := Some(placeId), searches := s.searches + [placeId],
          loaderShown := true, mainView := true, globeReady := true, listOwner := None),
       f.(allServers := [], region := "all", animatedMaxPing := 500))
  }

  class PartialsScannerApp {
    const components: ComponentsManager
    var input: string
    var pendingPreview: Option<nat>
    var lookups: seq<nat>
    var previewShown: bool
    var session: SearchSession
    var filters: FilterState
    var view: ListView

    /** The components manager is consistent and the input field holds digits only. */
    ghost predicate Valid()
      reads this, components, components.partials
    {
      components.Valid() && AllDigits(input)
    }

    constructor (components: ComponentsManager, maxPing: int, sort: SortSpec)
      requires components.Valid()
      ensures Valid() && this.components == components
      ensures input == "" && pendingPreview.None? && lookups == [] && !previewShown
      ensures session == SearchSession(None, [], "", false, false, false, {}, None)
      ensures filters == FilterState([], "all", maxPing, maxPing, None, sort)
      ensures view == ListView([], 0, 0)
    {
      this.components := components;
      input := "";
      pendingPreview := None;
      lookups := [];
      previewShown := false;
      session := SearchSession(None, [], "", false, false, false, {}, None);
      filters := FilterState([], "all", maxPing, maxPing, None, sort);
      view := ListView([], 0, 0);
    }

    method Render()
      modifies this`view
      ensures view == ListViewOf(filters)
    {
      view := ListViewOf(filters);
    }

    /**
      The input listener: the field keeps only its digits, the pending timer is
      cancelled, and a new one is armed when six or more digits remain;
      otherwise the preview panel is hidden.
     */
    method Input(raw: string)
      requires Valid()
      modifies this`input, this`pendingPreview, this`previewShown
      ensures Valid()
      ensures input == StripNonDigits(raw) && pendingPreview == DebounceTarget(raw)
      ensures previewShown == (old(previewShown) && pendingPreview.Some?)
    {
      input := StripNonDigits(raw);
      pendingPreview := None;
      if |input| >= 6 {
        pendingPreview := Some(ParseDigits(input));
      } else {
        previewShown := false;
      }
    }

    /** The preview timer fires: the panel shows the loading placeholder and the lookup is issued. */
    method PreviewTimerFired(toLocale: int -> string, source: Source)
      requires Valid() && pendingPreview.Some?
      modifies this`pendingPreview, this`lookups, this`previewShown, components.partials, components.page
      ensures Valid()
      ensures components.Rendered("game-preview", GamePreviewPatch(LoadingGame, toLocale),
                                  old(components.partials.cache), old(components.page.regions), source)
      ensures previewShown && pendingPreview.None? && lookups == old(lookups) + [old(pendingPreview.value)]
    {
      components.UpdateGamePreview(LoadingGame, toLocale, source);
      previewShown := true;
      lookups := lookups + [pendingPreview.value];
      pendingPreview := None;
    }

    /**
      A preview lookup ends: data is drawn into the panel, no data leaves it
      as it is, and a failure draws the failure placeholder. The answer is
      used whatever the field now holds.
     */
    method PreviewLookupDone(answer: Result<Option<GameData>>, toLocale: int -> string, source: Source)
      requires Valid()
      modifies components.partials, components.page
      ensures Valid()
      ensures answer.Ok? && answer.value.Some? ==>
        components.Rendered("game-preview", GamePreviewPatch(answer.value.value, toLocale),
                            old(components.partials.cache), old(components.page.regions), source)
      ensures answer.Ok? && answer.value.None? ==>
        components.partials.cache == old(components.partials.cache) && components.page.regions == old(components.page.regions)
      ensures answer.Err? ==>
        components.Rendered("game-preview", GamePreviewPatch(FailedGame, toLocale),
                            old(components.partials.cache), old(components.page.regions), source)
    {
      match answer
      case Ok(Some(g)) => components.UpdateGamePreview(g, toLocale, source);
      case Ok(None) =>
      case Err(_) => components.UpdateGamePreview(FailedGame, toLocale, source);
    }

    /** `findServers`: the session and filters step by `OnFindServers`; nothing else changes. */
    method FindServers()
      requires Valid()
      modifies this`session, this`filters
      ensures Valid()
      ensures (session, filters) == OnFindServers(old(session), old(filters), input)
    {
      var (s, f) := OnFindServers(session, filters, input);
      session, filters := s, f;
    }

    /** The game details arrive: when there are any, the info panel is drawn with them. */
    method GameDetailsArrived(data: Option<GameData>, toLocale: int -> string, source: Source)
      requires Valid()
      modifies components.partials, components.page
      ensures Valid()
      ensures data.Some? ==>
        components.Rendered("game-info", GameInfoPatch(data.value, toLocale),
                            old(components.partials.cache), old(components.page.regions), source)
      ensures data.None? ==>
        components.partials.cache == old(components.partials.cache) && components.page.regions == old(components.page.regions)
    {
      if data.Some? {
        components.UpdateGameInfo(data.value, toLocale, source);
      }
    }

    /** A progress report while the server list is fetched goes to the loader as it is. */
    method ScanProgress(progress: int, message: string, source: Source)
      requires Valid()
      modifies components.partials, components.page
      ensures Valid()
      ensures components.Rendered("loader", LoaderPatch(message, progress),
                                  old(components.partials.cache), old(components.page.regions), source)
    {
      components.UpdateLoader(message, progress, source);
    }

    /**
      The server list of search `k` arrives: an empty one hides the loader,
      shows the no-servers status and stops there, so search `k` runs no
      geolocation pass; otherwise its array becomes the stored list and its
      pass starts.
     */
    method ServerListArrived(k: nat, servers: seq<Server>)
      requires Valid() && k < |session.searches|
      modifies this`session, this`filters
      ensures Valid()
      ensures servers == [] ==>
        && session == old(session).(loaderShown := false, status := NoServersMessage,
                                    geolocating := old(session.geolocating) - {k})
        && filters == old(filters)
      ensures servers != [] ==>
        && session == old(session).(geolocating := old(session.geolocating) + {k}, listOwner := Some(k))
        && filters == old(filters).(allServers := servers)
      ensures k in session.geolocating <==> servers != []
    {
      if servers == [] {
        session := session.(loaderShown := false, status := NoServersMessage, geolocating := session.geolocating - {k});
        return;
      }
      filters := filters.(allServers := servers);
      session := session.(geolocating := session.geolocating + {k}, listOwner := Some(k));
    }

    /**
      A batch of search `k`'s geolocation pass ends. The pass updates search
      `k`'s own array in place, now holding `located`; that shows in the
      stored list only while the stored list is still that array. The loader
      shows the rounded percentage and the count, and the stored list is
      rendered, whichever search it belongs to.
     */
    method GeoBatch(k: nat, located: seq<Server>, processed: nat, total: nat, source: Source)
      requires Valid() && total > 0 && k in session.geolocating
      requires session.listOwner == Some(k) ==> LocatedFrom(filters.allServers, located)
      modifies this`filters, this`view, components.partials, components.page
      ensures Valid()
      ensures components.Rendered("loader", LoaderPatch(BatchMessage(processed, total), BatchProgress(processed, total)),
                                  old(components.partials.cache), old(components.page.regions), source)
      ensures session.listOwner == Some(k) ==> filters == old(filters).(allServers := located)
      ensures session.listOwner != Some(k) ==> filters == old(filters)
      ensures view == ListViewOf(filters)
    {
      if session.listOwner == Some(k) {
        filters := filters.(allServers := located);
      }
      components.UpdateLoader(BatchMessage(processed, total), BatchProgress(processed, total), source);
      Render();
    }

    /**
      Search `k`'s geolocation pass is complete: the final render of the
      stored list (located as for a batch), the loader is hidden, and search
      `k`'s pass, only that one, is over.
     */
    method GeoComplete(k: nat, located: seq<Server>)
      requires Valid() && k in session.geolocating
      requires session.listOwner == Some(k) ==> LocatedFrom(filters.allServers, located)
      modifies this`session, this`filters, this`view
      ensures Valid()
      ensures old(session.listOwner) == Some(k) ==> filters == old(filters).(allServers := located)
      ensures old(session.listOwner) != Some(k) ==> filters == old(filters)
      ensures view == ListViewOf(filters)
      ensures session == old(session).(loaderShown := false, geolocating := old(session.geolocating) - {k})
    {
      if session.listOwner == Some(k) {
        filters := filters.(allServers := located);
      }
      Render();
      session := session.(loaderShown := false, geolocating := session.geolocating - {k});
    }

    /**
      Anything thrown during search `k` hides the loader and shows the error
      message; a pass of that search, if one was running, is over.
     */
    method SearchFailed(k: nat, message: string)
      requires Valid() && k < |session.searches|
      modifies this`session
      ensures Valid()
      ensures session == old(session).(loaderShown := false, status := "Error: " + message,
                                       geolocating := old(session.geolocating) - {k})
    {
      session := session.(loaderShown := false, status := "Error: " + message, geolocating := session.geolocating - {k});
    }

    method RegionChanged(region: string)
      requires Valid()
      modifies this`filters, this`view
      ensures Valid()
      ensures filters == old(filters).(region := region) && view == ListViewOf(filters)
    {
      filters := filters.(region := region);
      Render();
    }

    /**
      The ping slider moves to `target`: the animated ceiling starts moving
      from its current value to the target; the selected ceiling is not changed.
     */
    method MaxPingInput(target: int)
      requires Valid()
      modifies this`filters
      ensures Valid()
      ensures filters == old(filters).(tween := Some(Tween(old(filters.animatedMaxPing), target)))
    {
      filters := filters.(tween := Some(Tween(filters.animatedMaxPing, target)));
    }

    /** An animation frame: the animated ceiling takes a value on the way to the target and the list re-renders. */
    method TweenTick(value: int)
      requires Valid() && filters.tween.Some?
      requires Between(value, filters.tween.value.from, filters.tween.value.to)
      modifies this`filters, this`view
      ensures Valid()
      ensures filters == old(filters).(animatedMaxPing := value) && view == ListViewOf(filters)
    {
      filters := filters.(animatedMaxPing := value);
      Render();
    }

    method SortByChanged(field: string)
      requires Valid()
      modifies this`filters, this`view
      ensures Valid()
      ensures filters == old(filters).(sort := SortSpec(field, old(filters.sort.order)))
      ensures view == ListViewOf(filters)
    {
      filters := filters.(sort := SortSpec(field, filters.sort.order));
      Render();
    }

    method ToggleSortOrder()
      requires Valid()
      modifies this`filters, this`view
      ensures Valid()
      ensures filters == old(filters).(sort := SortSpec(old(filters.sort.sortBy), ToggleOrder(old(filters.sort.order))))
      ensures view == ListViewOf(filters)
    {
      filters := filters.(sort := SortSpec(filters.sort.sortBy, ToggleOrder(filters.sort.order)));
      Render();
    }
  }
}
