# Roblox region scanner — a Dafny model of its front-end core

The Roblox region scanner is a browser front end. It looks up the public servers of a Roblox place, finds where each server runs, and shows them on a globe and in a list. Users can filter the list by region and by a ping ceiling, and sort it by any numeric field. This project models that front end's core and proves properties of the model:

- **The template store** (`PartialsManager`) caches HTML partials by name and keeps the set of loaded names. It renders a partial into a page container, substituting `{{key}}` placeholders from a data object, and can preload, clear and list what it holds. The fetch of a partial's text is the `source` parameter; a failed fetch is `None`.
- **The component orchestrator** (`ComponentsManager`) knows ten named components, each with its container and sometimes default data. `init` preloads every partial and renders all ten. `updateComponent(name, patch)` renders one component with `{...defaults, ...patch}`; the `update*` helpers build the patch with their fallbacks (`'Game Name'`, `'0'`, `'N/A'`, `'500'`).

  The defaults are looked up under the name with its first two hyphens removed. That gives `gamepreview`, never `gamePreview`, so only `header` and `loader` ever find defaults. The model follows the code here: `Components.DefaultsOnlyForHeaderAndLoader` proves it, and the helpers send full patches, so what they render is not affected.
- **The filter and sort engine** is the same in both front ends. A server is visible when the region filter is `all` or matches its region, and its ping (a missing ping counts as 0) is at most the animated ceiling. The list is sorted by a comparator that puts servers missing the sort field last and reverses the direction for `playing`.
- **The two front ends' handlers:**
  - `app.js` — the search, the debounced game preview with its stale-response guard, and the region, ping and sort controls.
  - `app-partials.js` — the digit-only input with its debounced preview, the search with its session reset, the empty-result exit, the geolocation progress and the error path, and the same controls.

  Each front end is a class. Its fields are the state the handlers mutate, and it has one method per event. Timers and network answers are explicit events: a timer fires, a lookup answers, a geolocation batch ends with the records located so far. The list a handler renders is specified by a function of the filter state (`App.ViewOf`, `AppPartials.ListViewOf`). In `app.js` the class invariant is that what was rendered last is what the current filters give.

Files:

- `wrappers.dfy` — `Option`, `Result`.
- `strings.dfy` — the JavaScript string built-ins the core uses: the digit filter, `parseInt` on digits, `toString` on integers, `trim`.
- `partials.dfy` — the template store.
- `components.dfy` — the component orchestrator.
- `servers.dfy` — the filter, both comparators and the stable sort.
- `scanner_app.dfy` — the `app.js` handlers.
- `partials_app.dfy` — the `app-partials.js` handlers.

## Model

| member | source | states |
|---|---|---|
| Strings.StripNonDigits | public/js/app-partials.js:180 | the result is all digits, no longer than the input; each digit occurs as often as in the input and every other character is gone; digit-only text is unchanged |
| Strings.StripNonDigitsAppend | public/js/app-partials.js:180 | stripping works piece by piece, so the kept digits stay in their input order |
| Strings.ParseDigits | public/js/app-partials.js:96 | `n` digits read as a number below ten to the `n`; `Strings.ParseDigitsZero` and `Strings.DecimalString` state when it reads zero and that it inverts `toString` |
| Strings.ParseDigitsZero | public/js/app-partials.js:96-97 | a digit string reads as 0 exactly when every digit is `0` (`"0"`, `"000"`) |
| Strings.DecimalString | public/js/components.js:160 | `n.toString()` is non-empty and reads back as `n`; it has no leading zero except `"0"` itself; negatives carry a leading `-` |
| Strings.Trim | public/js/app.js:64 | the result is the contiguous middle of the input: it neither starts nor ends with white space, and everything cut off is white space; digit-only text is unchanged |
| Partials.PlaceholderAt | public/js/partials.js:112 | a `{{key}}` match starts the text iff the key is a non-empty run of word characters closed by `}}`, and then no other length matches |
| Partials.Interpolate | public/js/partials.js:111-115 | one left-to-right replacement pass. It has no ensures of its own; its properties are stated by `Partials.InterpolateWithoutData`, `Partials.InterpolateWithoutOpening`, `Partials.InterpolatePlaceholder` and `Partials.InterpolateKeepsPlainText` below |
| Partials.InterpolateWithoutData | public/js/partials.js:111-115 | with no data every placeholder stays as written: the text is unchanged |
| Partials.InterpolateWithoutOpening | public/js/partials.js:111-115 | text without `{{` is unchanged whatever the data |
| Partials.InterpolatePlaceholder | public/js/partials.js:112-114 | a leading placeholder becomes `data[key]` when the key is present and stays verbatim otherwise; the rest is interpolated after it |
| Partials.InterpolateKeepsPlainText | public/js/partials.js:112 | a prefix without `{` passes through unchanged |
| Partials.MalformedPlaceholderVerbatim | public/js/partials.js:112 | `{{…}}` around anything but word characters is never replaced |
| Partials.Preloaded | public/js/partials.js:122-125 | the cache after preloading: old entries are kept; every name is cached unless its fetch fails; each new entry is a listed name with its fetched text |
| Partials.PreloadedUnchanged | public/js/partials.js:122-125 | names already cached or not fetchable leave the cache as it was |
| Partials.PreloadTwice | public/js/partials.js:122-125 | preloading the same names twice gives the same cache as once |
| Partials.PartialsManager.constructor | public/js/partials.js:5-8 | empty cache and empty loaded set |
| Partials.PartialsManager.Load | public/js/partials.js:16-36 | a cached name is returned from the cache with nothing changed; otherwise a fetched text is cached and its name added once, and a failed fetch yields `""` and changes nothing |
| Partials.PartialsManager.Render | public/js/partials.js:45-66 | a missing container yields nothing and changes nothing; otherwise the partial is loaded with the cache, only that container's content becomes the interpolated text, and the container is returned |
| Partials.PartialsManager.Preload | public/js/partials.js:122-125 | the cache becomes `Preloaded` of the old cache; earlier loaded names keep their places |
| Partials.PartialsManager.ClearCache | public/js/partials.js:130-133 | cache and loaded set are both empty |
| Partials.PartialsManager.LoadedPartials | public/js/partials.js:139-141 | exactly the cached names, each once |
| Components.RenderAllPlanFollowsRegistry | public/js/components.js:56-67 | `renderAll` renders the ten preloaded names in preload order, and they are exactly the names `updateComponent` knows |
| Components.RenderAllPlanUsesContainerMap | public/js/components.js:84-93 | each render of `renderAll` targets the container `updateComponent` maps its name to |
| Components.RenderAllPlanContainers | public/js/components.js:84-93 | the ten containers are distinct; `sidebar-tabs` and `server-list-panel` are rendered with no data |
| Components.RemoveFirst | public/js/components.js:177 | `replace('-', '')` with a string pattern: with no hyphen the text is unchanged; otherwise exactly the first hyphen goes, and the text before and after it is kept in order |
| Components.DefaultKey | public/js/components.js:177 | with no hyphen the key is the name; otherwise the text before the first hyphen is kept, that hyphen goes, and the rest loses its own first hyphen; every other character stays in order and in its case |
| Components.GetDefaultData | public/js/components.js:176-179 | the defaults stored under the derived key, or no fields when there are none |
| Components.MergedData | public/js/components.js:122-125 | the merge has the keys of both; the patch wins where both have a key; defaults fill the rest |
| Components.LowerKebabKeyMisses | public/js/components.js:9-45 | a lower-case hyphenated key longer than six characters is none of the default keys |
| Components.LowerKebabMissesDefaults | public/js/components.js:177-178 | a lower-case hyphenated name longer than eight characters finds no defaults |
| Components.RegisteredNamesAreLowerKebab | public/js/components.js:104-115 | every registered name other than `header` and `loader` is lower-case, hyphenated and longer than eight characters |
| Components.UnhyphenatedKeys | public/js/components.js:177 | `header` and `loader` are their own keys and have defaults |
| Components.DefaultsOnlyForHeaderAndLoader | public/js/components.js:122-125 | a registered name finds defaults iff it is `header` or `loader`; for every other one the merge is the patch alone |
| Components.HyphenatedNameMerge | public/js/components.js:122-125 | a registered hyphenated name merges to its patch alone |
| Components.NoDefaultsMergeIsPatch | public/js/components.js:122-125 | with no defaults the merge is the patch |
| Components.CoveringPatchWins | public/js/components.js:122-125 | a patch that covers every default key is the merge |
| Components.LoaderFindsDefaults | public/js/components.js:176-179 | the loader's defaults are `message: 'Loading...'`, `progress: '0'` |
| Components.OrElse | public/js/components.js:135 | the fallback operator on text: non-empty text is kept; missing or empty text falls back |
| Components.LocaleText | public/js/components.js:137-138 | `?.toLocaleString()`: missing stays missing; a number gives the locale formatter's text for it; text formats as itself |
| Components.GamePatch | public/js/components.js:134-139 | four fields; a present non-empty name is kept and a missing or empty one becomes `Game Name`; a present thumbnail is kept and a missing one is `''`; a present figure shows its locale text unless that is empty, and a missing or empty one shows the panel's fallback |
| Components.GamePreviewPatch | public/js/components.js:133-140 | the preview's fields, with `'0'` for missing figures; no data gives exactly the preview defaults |
| Components.GameInfoPatch | public/js/components.js:145-152 | the info panel's fields, with `'N/A'` for missing figures; no data gives exactly the info defaults |
| Components.PreviewAndInfoAgree | public/js/components.js:133-152 | the two panels show the same name and thumbnail, and the same figures whenever the data has them |
| Components.LoaderPatch | public/js/components.js:157-162 | the message as given; a non-negative progress as digits that read back as it |
| Components.LoaderMergeIsPatch | public/js/components.js:157-162 | the loader's patch covers its defaults, so it is exactly what is rendered |
| Components.LoaderDefaultCall | public/js/components.js:157-162 | `updateLoader('Loading...', 0)` renders exactly the loader defaults |
| Components.FiltersPatch | public/js/components.js:167-171 | no ceiling gives the defaults (`'500'`); a non-negative ceiling is rendered as its digits |
| Components.RenderStep | public/js/partials.js:45-66 | a missing container changes nothing; otherwise the cache becomes the one `load` leaves, the container holds that cached text interpolated with the data, and every other container keeps its text |
| Components.RenderSteps | public/js/components.js:82-97 | a sequence of renders keeps the containers and leaves every container it does not target as it was |
| Components.RenderStepsAfterPreload | public/js/components.js:51-77 | after a preload the renders fetch nothing, and every mounted container holds its partial's text interpolated with its data |
| Components.PreloadThenRender | public/js/components.js:56-70 | preloading then rendering a plan leaves the state `PreloadedAndRendered` describes |
| Components.ComponentsManager.constructor | public/js/components.js:7-46 | not initialized, over the given store and page |
| Components.ComponentsManager.RenderAll | public/js/components.js:82-97 | the page and cache are the ten renders applied in order |
| Components.ComponentsManager.Init | public/js/components.js:51-77 | a second call changes nothing; a first call sets the flag, preloads the ten names, and fills each mounted container with its partial and data |
| Components.ComponentsManager.UpdateComponent | public/js/components.js:102-128 | an unknown name changes nothing; a known one renders its partial into its container with the merged data |
| Components.ComponentsManager.UpdateGamePreview | public/js/components.js:133-140 | the preview is rendered with `GamePreviewPatch` alone (no defaults are merged in) |
| Components.ComponentsManager.UpdateGameInfo | public/js/components.js:145-152 | the info panel is rendered with `GameInfoPatch` alone |
| Components.ComponentsManager.UpdateLoader | public/js/components.js:157-162 | the loader is rendered with `LoaderPatch` |
| Components.ComponentsManager.UpdateFilters | public/js/components.js:167-171 | the filters panel is rendered with `FiltersPatch` |
| Components.ComponentsManager.IsInitialized | public/js/components.js:184-186 | the flag |
| Components.ComponentsManager.Reinit | public/js/components.js:191-195 | from an empty cache every partial is fetched again and every mounted container re-rendered; the flag is set |
| Servers.VisibleServers | public/js/app.js:47-55 | no more servers than given, each visible (region `all` or equal, ping or 0 within the ceiling), and every visible server kept as often as it occurs |
| Servers.VisibleServersAppend | public/js/app.js:47-55 | the filter works piece by piece, so it keeps the input order |
| Servers.KeyOf | public/js/app.js:32-35 | the sort key is missing exactly when the field is |
| Servers.CompareAsWritten | public/js/app.js:30-40 | the comparator as written answers -1, 0 or 1; a record missing the field answers 1 (after) whatever the other; a present field against a missing one answers -1; between present values it answers 0 exactly on equal values, and "before" exactly when the value is smaller (ascending: `asc` except for `playing`) or larger (descending) |
| Servers.AsWrittenInconsistent | public/js/app.js:34 | the comparator as written answers "after" both ways for two servers missing the field |
| Servers.CompareKeys | public/js/app.js:34-40 | equal keys compare 0 and only they; a missing key sorts last in both orders; present keys compare by value, reversed for `desc` and again for `playing` |
| Servers.CompareAntisymmetric | public/js/app.js:31-41 | the intended comparator is antisymmetric |
| Servers.CompareMatchesAsWritten | public/js/app.js:34-40 | it agrees with the comparator as written unless both servers miss the field, where it answers 0 |
| Servers.KeyLeTotalOrder | public/js/app.js:37-40 | the induced order is total, antisymmetric and transitive |
| Servers.SortServers | public/js/app.js:27-44 | a new sequence that is a permutation of the input and sorted by the comparator |
| Servers.SortedOrder | public/js/app.js:34-40 | in a sorted list servers missing the field come last; the present values rise for `asc` and fall for `desc`, the other way round for `playing` |
| Servers.SortStable | public/js/app.js:31-41 | servers with equal values keep their input order |
| Servers.SortDependsOnlyOnKeys | public/js/app.js:32-33 | the comparator reads nothing of a server but the sort field |
| Servers.ToggleOrder | public/js/app.js:209-210 | `asc` becomes `desc`, and anything else becomes `asc` |
| Servers.ToggleTwice | public/js/app-partials.js:240-241 | two toggles from `asc` or `desc` restore it, and each toggle reverses the direction |
| App.ValidateSearch | public/js/app.js:64-80 | the trimmed input is accepted iff it is non-empty and numeric; otherwise the fixed error message |
| App.MergeGameDetails | public/js/app.js:98-105 | thumbnail and visits come from the preview's details iff those were fetched for the searched id; every other field comes from the search |
| App.OnPreviewInput | public/js/app.js:142-168 | the timer is always cancelled and re-armed only for valid input that is not already on show; invalid input clears the preview id and details |
| App.OnPreviewTimer | public/js/app.js:155-157 | the panel is hidden and a lookup for the timer's id is issued |
| App.OnPreviewResolved | public/js/app.js:157-166 | the preview takes the answer iff there is data and the trimmed input still equals the requested id; otherwise id and details are cleared |
| App.StaleAnswerDiscarded | public/js/app.js:158-166 | an answer for an id the input no longer holds never becomes the preview, and the search then merges no preview details |
| App.SameInputArmsNothing | public/js/app.js:153 | retyping the id on show only cancels the timer |
| App.ViewOf | public/js/app.js:46-61 | the globe gets the visible servers; the counts are visible and total; the list is the visible (or the clicked location's) servers, sorted |
| App.ScannerApp.Render | public/js/app.js:46-61 | the rendered view becomes the filtered one and nothing else changes |
| App.ScannerApp.HandleSearch | public/js/app.js:63-95 | refused input shows the error and changes nothing else (no search, same join id); accepted input sets the join id and issues one search for it |
| App.ScannerApp.SearchCompleted | public/js/app.js:97-127 | the game info is the merge; the servers are stored; the animated ceiling is reset to the selected one; the list is rendered; an empty result retitles the list |
| App.ScannerApp.SearchFailed | public/js/app.js:132-138 | `Error: ` plus the message as status; the progress text shows the first 50 characters |
| App.ScannerApp.PreviewInput | public/js/app.js:142-154 | the preview state steps by `OnPreviewInput` |
| App.ScannerApp.PreviewTimerFired | public/js/app.js:155-157 | the preview state steps by `OnPreviewTimer` |
| App.ScannerApp.PreviewLookupResolved | public/js/app.js:157-166 | the preview state steps by `OnPreviewResolved` against the input as it is now |
| App.ScannerApp.PointClicked | public/js/app.js:170-174 | the list shows the location's servers sorted, the globe and counts stay |
| App.ScannerApp.GlobeClicked | public/js/app.js:176-178 | the filtered list is rendered again |
| App.ScannerApp.RegionChanged | public/js/app.js:182-185 | the region filter changes and the list is rendered |
| App.ScannerApp.MaxPingChanged | public/js/app.js:191-201 | the selected ceiling becomes the target; the running animation is replaced by one from the animated value to the target |
| App.ScannerApp.TweenTick | public/js/app.js:195-200 | the animated ceiling takes an intermediate value and the list is rendered |
| App.ScannerApp.TweenEnd | public/js/app.js:195-200 | the animated ceiling reaches the target and the list is rendered |
| App.ScannerApp.SortByChanged | public/js/app.js:203-206 | the sort field changes, the order stays, and the list is rendered |
| App.ScannerApp.SortOrderClicked | public/js/app.js:208-221 | the order toggles, the button title names the new order, and the list is rendered |
| AppPartials.ValidatePlaceId | public/js/app-partials.js:90-100 | empty input gives the Place ID message; an all-zero id gives the numeric-id message; otherwise the positive parsed id |
| AppPartials.BatchMessage | public/js/app-partials.js:148 | the loader text starts with `Processing server locations... (` and ends with `)`; between them the text before the first slash reads back as `processed` and the text after it as `total` |
| AppPartials.BatchProgress | public/js/app-partials.js:147 | the nearest integer to `processed/total*100`, halves rounding up |
| AppPartials.BatchProgressBounds | public/js/app-partials.js:147 | for `0 <= processed <= total` the progress lies in 0..100, is 0 at the start and 100 on the last batch |
| AppPartials.BatchProgressMonotone | public/js/app-partials.js:147 | more processed servers never lower the progress |
| AppPartials.PlaceholderPatches | public/js/app-partials.js:63-87 | the loading placeholder shows `Loading...` and `...`, the failure one `Failed to load` and `N/A` |
| AppPartials.DebounceTarget | public/js/app-partials.js:179-191 | a timer is armed iff six or more digits remain, for the id they read as |
| AppPartials.StripIdempotent | public/js/app-partials.js:180-181 | what the listener leaves in the field passes through it unchanged |
| AppPartials.ListViewOf | public/js/app-partials.js:43-61 | the list is the visible servers, sorted; the counts are shown and total |
| AppPartials.PartialsScannerApp.Render | public/js/app-partials.js:43-61 | the rendered view becomes `ListViewOf` of the filters and nothing else changes |
| AppPartials.PartialsScannerApp.Input | public/js/app-partials.js:179-191 | the field keeps only its digits; the timer is cancelled and re-armed by `DebounceTarget`; otherwise the panel is hidden |
| AppPartials.PartialsScannerApp.PreviewTimerFired | public/js/app-partials.js:63-74 | the preview panel renders the loading placeholder and the lookup is issued |
| AppPartials.PartialsScannerApp.PreviewLookupDone | public/js/app-partials.js:74-86 | data is rendered, no data leaves the panel as it is, and a failure renders the failure placeholder, whatever the field now holds |
| AppPartials.OnFindServers | public/js/app-partials.js:89-109 | a refused id shows its message and resets nothing; an accepted one sets the id, appends it to the searches issued, shows the loader and the main view, empties the servers into a fresh list no search owns, sets the region to all and the animated ceiling to 500, and leaves sort, selected ceiling and the geolocation passes of earlier searches alone |
| AppPartials.PartialsScannerApp.FindServers | public/js/app-partials.js:89-109 | only the session and the filters change, and they take the values `OnFindServers` gives for the current input |
| AppPartials.PartialsScannerApp.GameDetailsArrived | public/js/app-partials.js:118-122 | details, when any, render the info panel |
| AppPartials.PartialsScannerApp.ScanProgress | public/js/app-partials.js:124-131 | the loader renders the reported progress and message |
| AppPartials.PartialsScannerApp.ServerListArrived | public/js/app-partials.js:133-139 | for search `k`: an empty list hides the loader, shows the no-servers status, stores nothing and leaves `k` with no geolocation pass, so no batch or completion of `k` can follow; otherwise `k`'s servers become the stored list and `k`'s pass starts; `k` has a running pass exactly when its list was non-empty |
| AppPartials.LocatedFromChains | public/js/app-partials.js:139-154 | geolocation batches compose: after any number of batches each record keeps the id and the non-ping fields it arrived with |
| AppPartials.PartialsScannerApp.GeoBatch | public/js/app-partials.js:141-154 | only while search `k`'s pass runs: if the stored list is still `k`'s array its records become the ones located so far (same ids, order and other fields), otherwise the stored list is untouched; the loader shows `BatchProgress` and the count message, and the stored list is rendered |
| AppPartials.PartialsScannerApp.GeoComplete | public/js/app-partials.js:156-161 | only while search `k`'s pass runs: the stored records become the located ones if the stored list is still `k`'s array, the final render uses the stored list, the loader is hidden and only `k`'s pass ends |
| AppPartials.PartialsScannerApp.SearchFailed | public/js/app-partials.js:163-167 | the loader is hidden, `Error: ` plus the message is shown, and search `k` has no geolocation pass running any more; other searches' passes go on |
| AppPartials.PartialsScannerApp.RegionChanged | public/js/app-partials.js:224-227 | the region filter changes and the list is rendered |
| AppPartials.PartialsScannerApp.MaxPingInput | public/js/app-partials.js:229-232 | an animation of the animated ceiling towards the target starts; the selected ceiling is not changed |
| AppPartials.PartialsScannerApp.TweenTick | public/js/app-partials.js:229-232 | the animated ceiling takes an intermediate value and the list is rendered |
| AppPartials.PartialsScannerApp.SortByChanged | public/js/app-partials.js:235-238 | the sort field changes and the list is rendered |
| AppPartials.PartialsScannerApp.ToggleSortOrder | public/js/app-partials.js:240-244 | the order toggles and the list is rendered |

## Left out

- `append` (public/js/partials.js:75-103) is not modelled: it splits the interpolated markup into top-level child nodes, which needs an HTML parser.
- The DOM is not modelled:
  - containers are selectors that are mounted or not, and a container given as an element is not modelled;
  - the `partialRendered` event and all console logging are left out;
  - button enabling and tab switches are left out;
  - the loader and progress-bar views of `ui.js` are reduced to the fields named in the model.
- `ui.js`, `globe.js`, `api.js`, `state.js` and `dom.js` are not part of this model:
  - network answers are parameters or event arguments, and the geolocation pass's in-place update of the stored records arrives as the located records of each batch event;
  - the partial fetch is the `source` parameter, the same answer for a name within one call;
  - `ui.setUIState`'s callback runs at once.
- `Promise.all` in `preload` and `renderAll` runs its loads one after another. In the model, `init`'s `catch` branch cannot be reached, because a load never throws.
- Animations are not modelled:
  - gsap tweens and `ui.animateFilterValue` are start, frame and end events, and every frame value is an integer between the start and the target;
  - in `app-partials.js` the animation is taken to drive `animatedFilters.maxPing`;
  - the input shake, the icon rotation and the panel slides are left out.
- Locale and number coercion are reduced:
  - `toLocaleString` is a parameter;
  - `isNaN` on the trimmed `app.js` input is the `isNumeric` parameter;
  - `parseInt` is modelled on digit-only text only, which is all the `app-partials.js` field can hold.
- Servers carry integer fields only. Sorting by a text field (such as `regionName`) and a `NaN` ping are not modelled.
- `data[key]` and `containerMap[name]` are plain finite maps, so inherited keys such as `constructor` are not modelled.
- `AppPartials.BatchProgress` uses exact arithmetic. Floating-point division can round a `.5` case down (57 of 200 gives 28, not 29), so only the bounds and monotonicity carry over.
- The order among servers that are all missing the sort field is not claimed. `Servers.SortStable` is stated for present values only (see Findings).
- Lines 103, 104 and 139 of public/js/app-partials.js assign to an imported module namespace, which throws in a real ES module. They are modelled as the assignments they were evidently meant to be.
- `ui.populateRegionFilter` (the region drop-down filled after geolocation) is not modelled: it only builds DOM options.
- Not modelled:
  - the title link, the advanced-settings inputs and their persistence;
  - the sidebar tabs, the join buttons, `showPartialsInfo` and `toggleAdBanner`.
- Searches may overlap and their answers interleave freely; neither front end has a stale-search guard. In `app-partials.js` each search's geolocation pass is tracked on its own: a later search neither stops an earlier pass nor lets it write into the new list, because a new search replaces the stored array instead of clearing the one the earlier pass updates in place; the earlier pass still moves the loader and re-renders the list.
- `app-partials.js` has no stale guard on its preview path either.
- App.ScannerApp.PreviewLookupResolved does not record which lookups have answered. A lookup answers at most once, but the model allows a second answer for the same lookup and steps the state again.
- Strings.DecimalString, Strings.ParseDigits, AppPartials.DebounceTarget and AppPartials.ValidatePlaceId use exact integers. JavaScript numbers lose precision above 2^53, so a place id of 16 or more digits may read as a nearby number. `toString` also switches to exponent form from 1e21 on. Neither effect is modelled.
- The `onError` message is taken to be a string, and `results.servers` is always present.

## Findings

| source | as written | input that shows it | evidently intended | confidence | as-written member | corrected member |
|---|---|---|---|---|---|---|
| public/js/app.js:34 | when both servers miss the sort field, the comparator returns 1 for `(a, b)` and for `(b, a)`; the same code is at public/js/app-partials.js:31 | two servers without a `playing` field, sorted by `playing` | two missing fields compare equal (0): the comparator is antisymmetric, and missing values sort last in a well-defined order | not executed | Servers.AsWrittenInconsistent | Servers.CompareAntisymmetric |
