/**
  The component orchestrator: a fixed registry of ten page components, each
  rendered from the partial of the same name into its own container, a table
  of default data per component, and the helpers that turn game details,
  loader progress and filter values into the text a partial is filled with.
 */
module Components {
  import opened Wrappers
  import opened Strings
  import opened Partials

  // ---------------------------------------------------------------------------
  // The registry and the default data
  // ---------------------------------------------------------------------------

  /** The components, in the order `init` preloads and renders them. */
  const ComponentNames: seq<string> := [
    "header", "game-preview", "search-panel", "advanced-settings", "game-info",
    "sidebar-tabs", "filters-panel", "server-list-panel", "ad-banner", "loader"
  ]

  /** The container selector of each known component. */
  const ContainerMap: map<string, string> := map[
    "header" := "#app-header-container",
    "game-preview" := "#game-preview-container",
    "search-panel" := "#search-panel-container",
    "advanced-settings" := "#advanced-settings-container",
    "game-info" := "#game-info-container",
    "sidebar-tabs" := "#sidebar-tabs-container",
    "filters-panel" := "#filters-panel-container",
    "server-list-panel" := "#server-list-container",
    "ad-banner" := "#ad-banner-container",
    "loader" := "#loader-container"
  ]

  const HeaderDefaults: map<string, string> := map["title" := "Roblox Region Scanner"]
  const GamePreviewDefaults: map<string, string> :=
    map["thumbnailUrl" := "", "gameName" := "Game Name", "playing" := "0", "visits" := "0"]
  const SearchPanelDefaults: map<string, string> :=
    map["placeholder" := "Enter Roblox Place ID (e.g., 920587237)", "buttonText" := "Find Servers"]
  const AdvancedSettingsDefaults: map<string, string> :=
    map["maxServers" := "100", "batchSize" := "5", "delay" := "500"]
  const GameInfoDefaults: map<string, string> :=
    map["thumbnailUrl" := "", "gameName" := "Game Name", "playing" := "N/A", "visits" := "N/A"]
  const FiltersPanelDefaults: map<string, string> := map["maxPing" := "500"]
  const AdBannerDefaults: map<string, string> :=
    map["adContent" := "Your Ad Here", "adDescription" := "300 x 250 Banner Space"]
  const LoaderDefaults: map<string, string> := map["message" := "Loading...", "progress" := "0"]

  /** The default data table; its keys are camelCase. */
  const DefaultData: map<string, map<string, string>> := map[
    "header" := HeaderDefaults,
    "gamePreview" := GamePreviewDefaults,
    "searchPanel" := SearchPanelDefaults,
    "advancedSettings" := AdvancedSettingsDefaults,
    "gameInfo" := GameInfoDefaults,
    "filtersPanel" := FiltersPanelDefaults,
    "adBanner" := AdBannerDefaults,
    "loader" := LoaderDefaults
  ]

  /** One `partials.render(name, container, data)` call. */
  datatype RenderCall = RenderCall(name: string, container: string, data: map<string, string>)

  /** The renders `renderAll` issues: two components get no data at all. */
  const RenderAllPlan: seq<RenderCall> := [
    RenderCall("header", "#app-header-container", HeaderDefaults),
    RenderCall("game-preview", "#game-preview-container", GamePreviewDefaults),
    RenderCall("search-panel", "#search-panel-container", SearchPanelDefaults),
    RenderCall("advanced-settings", "#advanced-settings-container", AdvancedSettingsDefaults),
    RenderCall("game-info", "#game-info-container", GameInfoDefaults),
    RenderCall("sidebar-tabs", "#sidebar-tabs-container", map[]),
    RenderCall("filters-panel", "#filters-panel-container", FiltersPanelDefaults),
    RenderCall("server-list-panel", "#server-list-container", map[]),
    RenderCall("ad-banner", "#ad-banner-container", AdBannerDefaults),
    RenderCall("loader", "#loader-container", LoaderDefaults)
  ]

  predicate DistinctContainers(plan: seq<RenderCall>) {
    forall i, j :: 0 <= i < j < |plan| ==> plan[i].container != plan[j].container
  }

  /** `renderAll` renders every registered component, in registry order. */
  lemma RenderAllPlanFollowsRegistry()
    ensures |RenderAllPlan| == |ComponentNames| == 10
    ensures forall i :: 0 <= i < |RenderAllPlan| ==> RenderAllPlan[i].name == ComponentNames[i]
    ensures forall n :: n in ContainerMap <==> n in ComponentNames
  {
  }

  /** Each render targets the container the registry gives its component. */
  lemma RenderAllPlanUsesContainerMap()
    ensures forall i :: 0 <= i < |RenderAllPlan| ==>
      && RenderAllPlan[i].name in ContainerMap
      && ContainerMap[RenderAllPlan[i].name] == RenderAllPlan[i].container
  {
  }

  /** No container is rendered twice, and the two panels without defaults get empty data. */
  lemma RenderAllPlanContainers()
    ensures DistinctContainers(RenderAllPlan)
    ensures RenderAllPlan[5].name == "sidebar-tabs" && RenderAllPlan[5].data == map[]
    ensures RenderAllPlan[7].name == "server-list-panel" && RenderAllPlan[7].data == map[]
  {
  }

  // ---------------------------------------------------------------------------
  // Default-key derivation and the merge
  // ---------------------------------------------------------------------------

  /** The position of the first `c` in `s`. */
  function FirstIndex(s: string, c: char): (i: nat)
    requires c in s
    ensures i < |s| && s[i] == c
    ensures forall j :: 0 <= j < i ==> s[j] != c
  {
    if s[0] == c then 0
    else
      assert c in s[1..] by { assert s == [s[0]] + s[1..]; }
      FirstIndex(s[1..], c) + 1
  }

  /**
    `s.replace(c, '')` with a string pattern: only the first occurrence of `c`
    goes, and everything before and after it is kept in order.
   */
  function RemoveFirst(s: string, c: char): (r: string)
    ensures c !in s ==> r == s
    ensures c in s ==> r == s[..FirstIndex(s, c)] + s[FirstIndex(s, c) + 1..]
  {
    if s == [] then []
    else if s[0] == c then s[1..]
    else
      assert c in s ==> [s[0]] + RemoveFirst(s[1..], c) == s[..FirstIndex(s, c)] + s[FirstIndex(s, c) + 1..] by {
        if c in s {
          var j := FirstIndex(s[1..], c);
          assert FirstIndex(s, c) == j + 1;
          assert s[..j + 1] == [s[0]] + s[1..][..j];
          assert s[j + 2..] == s[1..][j + 1..];
        }
      }
      assert c !in s ==> c !in s[1..] by {
        assert s == [s[0]] + s[1..];
      }
      [s[0]] + RemoveFirst(s[1..], c)
  }

  /** Removing the first `c` of a sequence that does not start with `c` keeps its head. */
  lemma RemoveFirstCons(x: char, q: string, c: char)
    requires x != c
    ensures RemoveFirst([x] + q, c) == [x] + RemoveFirst(q, c)
  {
    assert ([x] + q)[1..] == q;
  }

  /** Removing the first `c` skips a prefix that holds none. */
  lemma {:induction false} RemoveFirstSkips(p: string, q: string, c: char)
    requires c !in p
    ensures RemoveFirst(p + q, c) == p + RemoveFirst(q, c)
  {
    if p != [] {
      var t := p[1..];
      assert p + q == [p[0]] + (t + q) by { assert p == [p[0]] + t; }
      RemoveFirstCons(p[0], t + q, c);
      RemoveFirstSkips(t, q, c);
      assert p == [p[0]] + t;
    } else {
      assert p + q == q;
    }
  }

  /**
    `name.replace('-', '').replace('-', '')`: the text before the first hyphen
    is kept, that hyphen is dropped, and the rest loses its own first hyphen
    (`RemoveFirst`); every other character stays, in order and in its case.
   */
  function DefaultKey(name: string): (key: string)
    ensures '-' !in name ==> key == name
    ensures '-' in name ==>
      key == name[..FirstIndex(name, '-')] + RemoveFirst(name[FirstIndex(name, '-') + 1..], '-')
  {
    var once := RemoveFirst(name, '-');
    if '-' in name then
      var i := FirstIndex(name, '-');
      assert '-' !in name[..i];
      RemoveFirstSkips(name[..i], name[i + 1..], '-');
      RemoveFirst(once, '-')
    else
      RemoveFirst(once, '-')
  }

  /** `getDefaultData(name)`: the defaults under the derived key, or `{}`. */
  function GetDefaultData(name: string): (d: map<string, string>)
    ensures DefaultKey(name) !in DefaultData ==> d == map[]
    ensures DefaultKey(name) in DefaultData ==> d == DefaultData[DefaultKey(name)]
  {
    var key := DefaultKey(name);
    if key in DefaultData then DefaultData[key] else map[]
  }

  /**
    The data `updateComponent` renders with: the defaults spread first and the
    patch second, so the patch wins on every key it holds.
   */
  function MergedData(name: string, patch: map<string, string>): (data: map<string, string>)
    ensures data.Keys == GetDefaultData(name).Keys + patch.Keys
    ensures forall k :: k in patch ==> data[k] == patch[k]
    ensures forall k :: k in GetDefaultData(name) && k !in patch ==> data[k] == GetDefaultData(name)[k]
  {
    GetDefaultData(name) + patch
  }

  /** Lower-case letters and hyphens only, as every registered name. */
  predicate LowerKebab(name: string) {
    forall i :: 0 <= i < |name| ==> name[i] == '-' || 'a' <= name[i] <= 'z'
  }

  /**
    The table's keys are either camelCase or only six characters long, so no
    lower-case hyphenated key longer than six characters is among them.
   */
  lemma LowerKebabKeyMisses(key: string)
    requires LowerKebab(key) && |key| > 6
    ensures key !in DefaultData
  {
    assert key[2] != 'B' && key[4] != 'P' && key[4] != 'I' && key[6] != 'P';
    assert |key| > 8 ==> key[7] != 'P' && key[8] != 'S';
  }

  /**
    A lower-case hyphenated name longer than eight characters finds no
    defaults: its key keeps only the name's characters and loses at most two.
   */
  lemma LowerKebabMissesDefaults(name: string)
    requires LowerKebab(name) && |name| > 8
    ensures DefaultKey(name) !in DefaultData
  {
    var once := RemoveFirst(name, '-');
    RemoveFirstKeepsLowerKebab(name, '-');
    RemoveFirstKeepsLowerKebab(once, '-');
    assert DefaultKey(name) == RemoveFirst(once, '-');
    LowerKebabKeyMisses(RemoveFirst(once, '-'));
  }

  /** Dropping one character keeps a lower-kebab text lower-kebab and shortens it by at most one. */
  lemma {:induction false} RemoveFirstKeepsLowerKebab(s: string, c: char)
    requires LowerKebab(s)
    ensures LowerKebab(RemoveFirst(s, c)) && |RemoveFirst(s, c)| >= |s| - 1
  {
    if s != [] && s[0] != c {
      assert s == [s[0]] + s[1..];
      RemoveFirstCons(s[0], s[1..], c);
      RemoveFirstKeepsLowerKebab(s[1..], c);
    }
  }

  /**
    Only `header` and `loader` find defaults; for the other registered names
    the defaults are `{}` and the merged data is exactly the patch.
   */
  lemma DefaultsOnlyForHeaderAndLoader(name: string, patch: map<string, string>)
    requires name in ContainerMap
    ensures DefaultKey(name) in DefaultData <==> name == "header" || name == "loader"
    ensures name != "header" && name != "loader" ==> GetDefaultData(name) == map[] && MergedData(name, patch) == patch
  {
    if name == "header" || name == "loader" {
      UnhyphenatedKeys(name);
    } else {
      HyphenatedNameMerge(name, patch);
    }
  }

  lemma HyphenatedNameMerge(name: string, patch: map<string, string>)
    requires name in ContainerMap && name != "header" && name != "loader"
    ensures DefaultKey(name) !in DefaultData
    ensures GetDefaultData(name) == map[] && MergedData(name, patch) == patch
  {
    RegisteredNamesAreLowerKebab(name);
    LowerKebabMissesDefaults(name);
    NoDefaultsMergeIsPatch(name, patch);
  }

  /** Without defaults, the spread of `{}` leaves the merged data equal to the patch. */
  lemma NoDefaultsMergeIsPatch(name: string, patch: map<string, string>)
    requires GetDefaultData(name) == map[]
    ensures MergedData(name, patch) == patch
  {
    assert map[] + patch == patch;
  }

  /** `header` and `loader` have no hyphen, so they are their own keys. */
  lemma UnhyphenatedKeys(name: string)
    requires name == "header" || name == "loader"
    ensures DefaultKey(name) == name && name in DefaultData
  {
    assert '-' !in name by {
      assert forall i :: 0 <= i < |name| ==> name[i] != '-';
    }
    assert RemoveFirst(name, '-') == name;
  }

  lemma RegisteredNamesAreLowerKebab(name: string)
    requires name in ContainerMap && name != "header" && name != "loader"
    ensures LowerKebab(name) && |name| > 8
  {
  }

  // ---------------------------------------------------------------------------
  // The formatting helpers behind the update methods
  // ---------------------------------------------------------------------------

  /** JavaScript `v || fallback` on a possibly missing string: missing or empty text falls back. */
  function OrElse(v: Option<string>, fallback: string): (r: string)
    ensures v.Some? && v.value != "" ==> r == v.value
    ensures v.None? || v.value == "" ==> r == fallback
  {
    if v.Some? && v.value != "" then v.value else fallback
  }

  /** A `playing` or `visits` figure: a number, or text such as `'...'` shown while loading. */
  datatype Display = Num(n: int) | Text(s: string)

  /**
    `value?.toLocaleString()`: numbers go through the locale formatter (a
    parameter of the model); a string formats as itself; a missing value stays missing.
   */
  function LocaleText(d: Option<Display>, toLocale: int -> string): (r: Option<string>)
    ensures d.None? <==> r.None?
    ensures d.Some? && d.value.Text? ==> r == Some(d.value.s)
    ensures d.Some? && d.value.Num? ==> r == Some(toLocale(d.value.n))
  {
    match d
    case None => None
    case Some(Num(n)) => Some(toLocale(n))
    case Some(Text(s)) => Some(s)
  }

  /** The game fields the preview and info panels read; any of them may be missing. */
  datatype GameData = GameData(
    name: Option<string>,
    thumbnailUrl: Option<string>,
    playing: Option<Display>,
    visits: Option<Display>)

  const NoGame := GameData(None, None, None, None)

  /** The patch `updateGamePreview` and `updateGameInfo` build, with the panel's figure fallback. */
  function GamePatch(g: GameData, figureFallback: string, toLocale: int -> string): (p: map<string, string>)
    ensures p.Keys == {"thumbnailUrl", "gameName", "playing", "visits"}
    ensures p["gameName"] != ""
    ensures g.name.Some? && g.name.value != "" ==> p["gameName"] == g.name.value
    ensures g.name.None? || g.name.value == "" ==> p["gameName"] == "Game Name"
    ensures g.thumbnailUrl.None? ==> p["thumbnailUrl"] == ""
    ensures g.thumbnailUrl.Some? ==> p["thumbnailUrl"] == g.thumbnailUrl.value
    ensures g.playing.None? ==> p["playing"] == figureFallback
    ensures g.playing.Some? ==>
      var t := LocaleText(g.playing, toLocale).value; p["playing"] == if t == "" then figureFallback else t
    ensures g.visits.None? ==> p["visits"] == figureFallback
    ensures g.visits.Some? ==>
      var t := LocaleText(g.visits, toLocale).value; p["visits"] == if t == "" then figureFallback else t
  {
    map[
      "thumbnailUrl" := OrElse(g.thumbnailUrl, ""),
      "gameName" := OrElse(g.name, "Game Name"),
      "playing" := OrElse(LocaleText(g.playing, toLocale), figureFallback),
      "visits" := OrElse(LocaleText(g.visits, toLocale), figureFallback)
    ]
  }

  function GamePreviewPatch(g: GameData, toLocale: int -> string): (p: map<string, string>)
    ensures p.Keys == GamePreviewDefaults.Keys
    ensures g.playing.None? ==> p["playing"] == "0"
    ensures g.visits.None? ==> p["visits"] == "0"
    ensures g == NoGame ==> p == GamePreviewDefaults
  {
    GamePatch(g, "0", toLocale)
  }

  function GameInfoPatch(g: GameData, toLocale: int -> string): (p: map<string, string>)
    ensures p.Keys == GameInfoDefaults.Keys
    ensures g.playing.None? ==> p["playing"] == "N/A"
    ensures g.visits.None? ==> p["visits"] == "N/A"
    ensures g == NoGame ==> p == GameInfoDefaults
  {
    GamePatch(g, "N/A", toLocale)
  }

  /**
    The preview and the info panel show the same name and thumbnail for the
    same game, and the same figures whenever the figures are present and format
    to non-empty text; they differ only in the fallback for a missing figure.
   */
  lemma PreviewAndInfoAgree(g: GameData, toLocale: int -> string)
    ensures GamePreviewPatch(g, toLocale)["gameName"] == GameInfoPatch(g, toLocale)["gameName"]
    ensures GamePreviewPatch(g, toLocale)["thumbnailUrl"] == GameInfoPatch(g, toLocale)["thumbnailUrl"]
    ensures LocaleText(g.playing, toLocale).Some? && LocaleText(g.playing, toLocale).value != "" ==>
      GamePreviewPatch(g, toLocale)["playing"] == GameInfoPatch(g, toLocale)["playing"]
    ensures LocaleText(g.visits, toLocale).Some? && LocaleText(g.visits, toLocale).value != "" ==>
      GamePreviewPatch(g, toLocale)["visits"] == GameInfoPatch(g, toLocale)["visits"]
  {
  }

  /** `updateLoader(message, progress)`: the message as given, the progress as its decimal numeral. */
  function LoaderPatch(message: string, progress: int): (p: map<string, string>)
    ensures p.Keys == LoaderDefaults.Keys
    ensures p["message"] == message
    ensures progress >= 0 ==> AllDigits(p["progress"]) && ParseDigits(p["progress"]) == progress
    ensures p["progress"] != ""
  {
    map["message" := message, "progress" := DecimalString(progress)]
  }

  /** `updateFilters(data)`: a missing ceiling shows `'500'`; any present one, `0` included, its numeral. */
  function FiltersPatch(maxPing: Option<int>): (p: map<string, string>)
    ensures p.Keys == FiltersPanelDefaults.Keys
    ensures maxPing.None? ==> p == FiltersPanelDefaults
    ensures maxPing.Some? && maxPing.value >= 0 ==>
      AllDigits(p["maxPing"]) && ParseDigits(p["maxPing"]) == maxPing.value
  {
    map["maxPing" := if maxPing.Some? then DecimalString(maxPing.value) else "500"]
  }

  /**
    The loader is the one updated component whose defaults are found, and its
    patch covers every default key, so the merged data is the patch.
   */
  lemma LoaderMergeIsPatch(message: string, progress: int)
    ensures MergedData("loader", LoaderPatch(message, progress)) == LoaderPatch(message, progress)
  {
    LoaderFindsDefaults();
    CoveringPatchWins("loader", LoaderPatch(message, progress));
  }

  /** A patch that holds every default key is rendered exactly as given. */
  lemma CoveringPatchWins(name: string, patch: map<string, string>)
    requires GetDefaultData(name).Keys <= patch.Keys
    ensures MergedData(name, patch) == patch
  {
  }

  lemma LoaderFindsDefaults()
    ensures GetDefaultData("loader") == LoaderDefaults
  {
    UnhyphenatedKeys("loader");
  }

  /** The default call `updateLoader('Loading...')` reproduces the loader's defaults. */
  lemma LoaderDefaultCall()
    ensures LoaderPatch("Loading...", 0) == LoaderDefaults
  {
    assert DecimalString(0) == "0";
  }

  // ---------------------------------------------------------------------------
  // Rendering a plan
  // ---------------------------------------------------------------------------

  /** The page regions and the template cache together. */
  datatype View = View(regions: map<string, string>, cache: map<string, string>)

  /** What one `partials.render` call does to the regions and the cache. */
  function RenderStep(v: View, call: RenderCall, source: Source): (w: View)
    ensures w.regions.Keys == v.regions.Keys
    ensures call.container !in v.regions ==> w == v
    ensures call.container in v.regions ==>
      w.regions[call.container] == Interpolate(TextFor(w.cache, call.name), call.data)
    ensures forall k :: k in v.regions && k != call.container ==> w.regions[k] == v.regions[k]
    ensures call.container in v.regions ==> w.cache == PreloadStep(v.cache, call.name, source)
  {
    if call.container !in v.regions then v
    else
      var cache := PreloadStep(v.cache, call.name, source);
      View(v.regions[call.container := Interpolate(TextFor(cache, call.name), call.data)], cache)
  }

  /** The renders of a plan issued one after the other. */
  function RenderSteps(v: View, plan: seq<RenderCall>, source: Source): (w: View)
    ensures w.regions.Keys == v.regions.Keys
    ensures forall k :: k in v.regions && (forall i :: 0 <= i < |plan| ==> plan[i].container != k) ==>
      w.regions[k] == v.regions[k]
    decreases |plan|
  {
    if plan == [] then v
    else RenderStep(RenderSteps(v, plan[..|plan| - 1], source), plan[|plan| - 1], source)
  }

  /**
    Rendering after a preload of the plan's names fetches nothing new, and each
    mounted container of the plan ends up holding its partial's cached text
    filled in with its data.
   */
  lemma {:induction false} RenderStepsAfterPreload(v: View, plan: seq<RenderCall>, source: Source)
    requires forall i :: 0 <= i < |plan| ==> plan[i].name in v.cache || source(plan[i].name).None?
    requires DistinctContainers(plan)
    ensures RenderSteps(v, plan, source).cache == v.cache
    ensures forall i :: 0 <= i < |plan| && plan[i].container in v.regions ==>
      RenderSteps(v, plan, source).regions[plan[i].container]
        == Interpolate(TextFor(v.cache, plan[i].name), plan[i].data)
  {
    if plan != [] {
      var init := plan[..|plan| - 1];
      var last := plan[|plan| - 1];
      RenderStepsAfterPreload(v, init, source);
      var u := RenderSteps(v, init, source);
      var w := RenderSteps(v, plan, source);
      assert w == RenderStep(u, last, source);
      assert PreloadStep(u.cache, last.name, source) == u.cache;
      forall i | 0 <= i < |plan| && plan[i].container in v.regions
        ensures w.regions[plan[i].container] == Interpolate(TextFor(v.cache, plan[i].name), plan[i].data)
      {
        if i < |plan| - 1 {
          assert plan[i] == init[i];
          assert plan[i].container != last.container;
        }
      }
    }
  }

  /**
    The state a preload of `names` followed by the renders of `plan` leaves:
    the cache is the preload; each mounted container of the plan holds its
    partial's cached text filled with its data; no other region changed.
   */
  ghost predicate PreloadedAndRendered(cache0: map<string, string>, regions0: map<string, string>,
                                       names: seq<string>, plan: seq<RenderCall>, source: Source,
                                       cache: map<string, string>, regions: map<string, string>)
  {
    && cache == Preloaded(cache0, names, source)
    && regions.Keys == regions0.Keys
    && (forall i :: 0 <= i < |plan| && plan[i].container in regions0 ==>
          regions[plan[i].container] == Interpolate(TextFor(cache, plan[i].name), plan[i].data))
    && (forall k :: k in regions0 && (forall i :: 0 <= i < |plan| ==> plan[i].container != k) ==>
          regions[k] == regions0[k])
  }

  /** Rendering a plan after preloading its names leaves the state described above. */
  lemma PreloadThenRender(cache0: map<string, string>, regions0: map<string, string>,
                          names: seq<string>, plan: seq<RenderCall>, source: Source,
                          cache: map<string, string>, regions: map<string, string>)
    requires |plan| == |names| && forall i :: 0 <= i < |plan| ==> plan[i].name == names[i]
    requires DistinctContainers(plan)
    requires View(regions, cache) == RenderSteps(View(regions0, Preloaded(cache0, names, source)), plan, source)
    ensures PreloadedAndRendered(cache0, regions0, names, plan, source, cache, regions)
  {
    var preloaded := Preloaded(cache0, names, source);
    assert forall i :: 0 <= i < |plan| ==> plan[i].name in names;
    RenderStepsAfterPreload(View(regions0, preloaded), plan, source);
  }

  // ---------------------------------------------------------------------------
  // The manager
  // ---------------------------------------------------------------------------

  class ComponentsManager {
    var initialized: bool
    const partials: PartialsManager
    const page: Page

    ghost predicate Valid()
      reads this, partials
    {
      partials.Valid()
    }

    constructor (partials: PartialsManager, page: Page)
      requires partials.Valid()
      ensures Valid()
      ensures !initialized && this.partials == partials && this.page == page
    {
      initialized := false;
      this.partials := partials;
      this.page := page;
    }

    /** `renderAll()`: the ten renders of the plan, in order. */
    method RenderAll(source: Source)
      requires Valid()
      modifies partials, page
      ensures Valid()
      ensures View(page.regions, partials.cache)
        == RenderSteps(View(old(page.regions), old(partials.cache)), RenderAllPlan, source)
    {
      RenderPlan(RenderAllPlan, source);
    }

    /** The renders of `plan`, issued one after the other as `renderAll` awaits them together. */
    method RenderPlan(plan: seq<RenderCall>, source: Source)
      requires Valid()
      modifies partials, page
      ensures Valid()
      ensures View(page.regions, partials.cache)
        == RenderSteps(View(old(page.regions), old(partials.cache)), plan, source)
    {
      for i := 0 to |plan|
        invariant Valid()
        invariant View(page.regions, partials.cache)
          == RenderSteps(View(old(page.regions), old(partials.cache)), plan[..i], source)
      {
        var call := plan[i];
        var _ := partials.Render(call.name, call.container, call.data, page, source);
        assert plan[..i + 1][..i] == plan[..i];
      }
      assert plan[..|plan|] == plan;
    }

    /**
      `init()`: a second call does nothing. The first preloads every registered
      partial, then renders each mounted container with its partial and
      defaults; nothing is fetched twice and the other regions are untouched.
     */
    method Init(source: Source)
      requires Valid()
      modifies this, partials, page
      ensures Valid()
      ensures old(initialized) ==>
        && initialized
        && partials.cache == old(partials.cache) && partials.loadedPartials == old(partials.loadedPartials)
        && page.regions == old(page.regions)
      ensures !old(initialized) ==> initialized && Initialized(old(partials.cache), old(page.regions), source)
    {
      if initialized {
        return;
      }
      partials.Preload(ComponentNames, source);
      ghost var preloaded := partials.cache;
      RenderAll(source);
      RenderAllPlanFollowsRegistry();
      RenderAllPlanContainers();
      PreloadThenRender(old(partials.cache), old(page.regions), ComponentNames, RenderAllPlan, source,
                        partials.cache, page.regions);
      initialized := true;
    }

    /** The state a first `init` leaves, from the cache and regions it started with. */
    ghost predicate Initialized(cache0: map<string, string>, regions0: map<string, string>, source: Source)
      reads this, partials, page
    {
      PreloadedAndRendered(cache0, regions0, ComponentNames, RenderAllPlan, source, partials.cache, page.regions)
    }

    /**
      `updateComponent(name, patch)`: an unknown name renders nothing; a known
      one renders its partial into its container with the merged data.
     */
    method UpdateComponent(name: string, patch: map<string, string>, source: Source)
      requires Valid()
      modifies partials, page
      ensures Valid()
      ensures name !in ContainerMap ==>
        && partials.cache == old(partials.cache) && partials.loadedPartials == old(partials.loadedPartials)
        && page.regions == old(page.regions)
      ensures name in ContainerMap ==> Rendered(name, MergedData(name, patch), old(partials.cache), old(page.regions), source)
    {
      if name !in ContainerMap {
        return;
      }
      var _ := partials.Render(name, ContainerMap[name], MergedData(name, patch), page, source);
    }

    /** The state one `render(name, ContainerMap[name], data)` leaves behind. */
    ghost predicate Rendered(name: string, data: map<string, string>, cache0: map<string, string>,
                             regions0: map<string, string>, source: Source)
      requires name in ContainerMap
      reads this, partials, page
    {
      var container := ContainerMap[name];
      if container !in regions0 then
        partials.cache == cache0 && page.regions == regions0
      else
        && partials.cache == PreloadStep(cache0, name, source)
        && page.regions == regions0[container := Interpolate(TextFor(partials.cache, name), data)]
    }

    method UpdateGamePreview(g: GameData, toLocale: int -> string, source: Source)
      requires Valid()
      modifies partials, page
      ensures Valid()
      ensures Rendered("game-preview", GamePreviewPatch(g, toLocale), old(partials.cache), old(page.regions), source)
    {
      UpdateComponent("game-preview", GamePreviewPatch(g, toLocale), source);
      DefaultsOnlyForHeaderAndLoader("game-preview", GamePreviewPatch(g, toLocale));
    }

    method UpdateGameInfo(g: GameData, toLocale: int -> string, source: Source)
      requires Valid()
      modifies partials, page
      ensures Valid()
      ensures Rendered("game-info", GameInfoPatch(g, toLocale), old(partials.cache), old(page.regions), source)
    {
      UpdateComponent("game-info", GameInfoPatch(g, toLocale), source);
      DefaultsOnlyForHeaderAndLoader("game-info", GameInfoPatch(g, toLocale));
    }

    method UpdateLoader(message: string, progress: int, source: Source)
      requires Valid()
      modifies partials, page
      ensures Valid()
      ensures Rendered("loader", LoaderPatch(message, progress), old(partials.cache), old(page.regions), source)
    {
      UpdateComponent("loader", LoaderPatch(message, progress), source);
      LoaderMergeIsPatch(message, progress);
    }

    method UpdateFilters(maxPing: Option<int>, source: Source)
      requires Valid()
      modifies partials, page
      ensures Valid()
      ensures Rendered("filters-panel", FiltersPatch(maxPing), old(partials.cache), old(page.regions), source)
    {
      UpdateComponent("filters-panel", FiltersPatch(maxPing), source);
      DefaultsOnlyForHeaderAndLoader("filters-panel", FiltersPatch(maxPing));
    }

    function IsInitialized(): (b: bool)
      reads this
      ensures b <==> initialized
    {
      initialized
    }

    /**
      `reinit()`: the cache is cleared and `init` runs from scratch, so every
      registered partial is fetched again and every mounted container re-rendered.
     */
    method Reinit(source: Source)
      requires Valid()
      modifies this, partials, page
      ensures Valid()
      ensures initialized && Initialized(map[], old(page.regions), source)
    {
      initialized := false;
      partials.ClearCache();
      Init(source);
    }
  }
}
