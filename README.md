# Climate data dashboard: application state

This project is a Dafny model of the state logic of a climate-data dashboard (a React
single-page application). The model covers:

- the catalog of STAC datasets, with their favourite flags;
- the local copies fetched from the catalog;
- the visualization layers built from those copies;
- the colormaps (eight built-in ones plus custom ones);
- the points of interest;
- a month-by-month timeline with playback.

The modules follow the source files:

- `AppState` and `Dashboard` (the `App` component). `AppState` holds, for each handler, the pure
  list update it hands to React. `Dashboard.App` is the state holder: one field per piece of state,
  and one method per handler that stores the updated list. Where the handler writes to storage, the
  method also returns the value written.
- `Timeline`. Month stepping and the playback tick, with dates as integer month indices
  (`year * 12 + month - 1`, so 2024-06 is `2024 * 12 + 5`).
- `LayerBuilder`. The layer-creation form: the `canCreate` rule, the request `handleCreate` emits,
  and the form reset.
- `ColormapEditor`. The colormap dialog: the custom colour-stop list (never fewer than two stops)
  and the guards on "create" and "apply".
- `CatalogBrowser`. The catalog search and facet filters, and the lists of distinct ECV and source
  values.
- `LocalDataExplorer`. The three sections of the local-data panel and its empty-state message.
- `PoiManager`. The point-of-interest form: its add and rename guards, and the resets they perform.
- `Seqs` and `Types`. Generic sequence helpers (`filter`, `map`, an update-where-id-matches, `find`,
  first-occurrence de-duplication) and the records of `src/app/types.ts`.

Inputs the source takes from its environment become parameters:

- the time-stamped ids made from `Date.now()`. A layer, custom colormap or point id is one parameter standing for the whole `layer-`, `custom-` or `poi-` id (src/app/App.tsx:152, :225, :262). Only a fetched dataset's id keeps its `local-` prefix as a constant, followed by a stamp parameter (src/app/App.tsx:127), because the favourites observation below depends on that prefix;
- the answer to the rename prompt, as `Option<string>` (None when cancelled);
- `parseFloat`, as a function `string -> Option<real>` where `None` stands for NaN;
- the creation clock reading of a point.

Two observations come out of the proofs:

- **The favourites section of the local-data panel stays empty.** The panel's favourite ids are
  catalog ids (src/app/App.tsx:417). A fetched copy always gets a fresh `local-` id
  (src/app/App.tsx:127). So unless some catalog id starts with `local-`, nothing lands in that
  section (`LocalDataExplorer.NoFavoritesAmongLocalCopies`). The dashboard's invariant keeps every
  local id prefixed with `local-`, so the section it feeds the panel is empty
  (`Dashboard.App.LocalFavoritesSection`).
- **The create handler's own guard is weaker than the button rule.** `handleCreate` checks only
  that the name and the first input are non-empty. So a `delta` request with no second input is
  stopped only by the disabled button (`LayerBuilder.GuardAdmitsIncompleteDelta`).

## Model

| member | source | states |
|---|---|---|
| Seqs.Distinct | src/app/components/STACCatalogBrowser.tsx:25-26 | `Array.from(new Set(xs))`: every value of `xs` exactly once, no duplicates, in order of first occurrence |
| Types.BuiltInColormaps | src/app/data/mockData.ts:144-193 | eight built-in colormaps with distinct ids, each with at least two stops, `viridis` first |
| AppState.ToggleFavorite | src/app/App.tsx:111-115 | same length; only `isFavorite` can change, and it flips exactly on the datasets with the given id |
| AppState.ToggleFavoriteTwice | src/app/App.tsx:111-115 | toggling the same id twice restores the catalog |
| AppState.Favorites | src/app/App.tsx:116 | the favourite datasets as an order-preserving subsequence, each kept as often as it occurs in the catalog |
| AppState.FavoriteIds | src/app/App.tsx:116-117 | the stored ids are exactly the ids of favourite datasets, one per favourite dataset and in its position, as a subsequence of the catalog's ids (list order) |
| AppState.FetchDataset | src/app/App.tsx:122-137 | nothing when no catalog entry has the id; otherwise a `fetched` copy of the first match, with its title, unit and time range, under the id `local-` followed by the stamp |
| AppState.DeleteLocalDataset | src/app/App.tsx:140-143 | no dataset with the id remains; every other dataset is kept, in order, as often as it occurred |
| AppState.CreateLayer | src/app/App.tsx:150-168 | exactly one layer appended, with earlier layers untouched; it is visible, has opacity 1, inputs and reference ids copied from the request, colormap1 `viridis`, and no second colormap and no bounds |
| AppState.DeleteUndoesCreateLayer | src/app/App.tsx:150-187 | deleting a just-created layer by its fresh id restores the previous list |
| AppState.ToggleVisibility | src/app/App.tsx:170-176 | same length; only `visible` can change, and it flips exactly on the layers with the id |
| AppState.ToggleVisibilityTwice | src/app/App.tsx:170-176 | toggling twice restores the list |
| AppState.SetOpacity | src/app/App.tsx:178-182 | same length; matching layers get the opacity with every other field unchanged; other layers are unchanged |
| AppState.SetOpacityIdempotent | src/app/App.tsx:178-182 | setting the same opacity twice equals setting it once |
| AppState.DeleteLayer | src/app/App.tsx:184-187 | no layer with the id remains; all others are kept, in relative order and as often as they occurred, and nothing is added |
| AppState.RenameLayer | src/app/App.tsx:189-198 | no change when the id is absent or the answer is empty or cancelled; otherwise only `name` changes, and only on the matching layers |
| AppState.ApplyColormap | src/app/App.tsx:202-221 | matching layers get colormap1 and the bounds exactly as given; every other config field, `colormap2` included, and every other layer are unchanged |
| AppState.CustomColormaps | src/app/App.tsx:233-234 | the stored colormaps are exactly the non-built-in ones, in list order, each as often as it occurs |
| AppState.CreateColormap | src/app/App.tsx:223-238 | one custom colormap with the given name and stops is appended; earlier entries are untouched |
| AppState.CreateColormapPersists | src/app/App.tsx:231-235 | after a create, storage holds the previous custom colormaps followed by the new one, and the built-ins are unchanged |
| AppState.DeleteColormap | src/app/App.tsx:240-248 | no colormap with the id remains; all others are kept, in order and as often as they occurred (the handler does not check `isBuiltIn`) |
| AppState.DeleteCustomKeepsBuiltIns | src/app/App.tsx:240-248 | deleting an id that no built-in carries leaves the built-in colormaps as they were |
| AppState.AddPoi | src/app/App.tsx:260-272 | one point appended with the given id, name, coordinates and time; earlier points are untouched |
| AppState.DeleteUndoesAddPoi | src/app/App.tsx:260-292 | deleting a just-added point by its fresh id restores the previous list |
| AppState.DeletePoi | src/app/App.tsx:285-292 | no point with the id remains; all others are kept, in order and as often as they occurred |
| AppState.RenamePoi | src/app/App.tsx:294-300 | same length; only `name` changes, on the matching points, empty names included |
| Timeline.StepBackward | src/app/App.tsx:464-468 | one month earlier exactly when that is not before the start, otherwise unchanged; a date in range stays in range |
| Timeline.StepForward | src/app/App.tsx:469-473 | one month later exactly when that is not past the end, otherwise unchanged; a date in range stays in range |
| Timeline.PlaybackTick | src/app/App.tsx:96-104 | one month later while that is within the end, and playback continues; otherwise back to the start and playback stops; a date in range stays in range |
| Timeline.RunStaysInRange | src/app/App.tsx:92-108 | for any sequence of step, play/pause and tick events, a date inside the range never leaves it |
| Dashboard.App.constructor | src/app/App.tsx:43-62 | initial state: 2024-06, range 1979-01 to 2024-12, not playing, the given catalog, no local data, no layers, no points, the built-in colormaps, no layer selected for the colormap editor |
| Dashboard.App.ToggleFavorite | src/app/App.tsx:111-119 | stores the toggled catalog and returns the favourite ids written to storage |
| Dashboard.App.FetchDataset | src/app/App.tsx:122-137 | appends the fetched copy, or changes nothing when the id is unknown; keeps every local id prefixed with `local-` |
| Dashboard.App.DeleteLocalDataset | src/app/App.tsx:140-143 | stores the filtered local datasets; keeps every local id prefixed with `local-` |
| Dashboard.App.LocalFavoritesSection | src/app/App.tsx:415-418 | the favourites section the dashboard passes to the local data panel is empty whenever no catalog id starts with `local-` |
| Dashboard.App.CreateLayer | src/app/App.tsx:150-168 | stores the list with the new layer appended |
| Dashboard.App.ToggleLayerVisibility | src/app/App.tsx:170-176 | stores the toggled layer list |
| Dashboard.App.SetLayerOpacity | src/app/App.tsx:178-182 | stores the updated layer list |
| Dashboard.App.DeleteLayer | src/app/App.tsx:184-187 | stores the filtered layer list |
| Dashboard.App.RenameLayer | src/app/App.tsx:189-198 | stores the renamed layer list |
| Dashboard.App.ConfigureColormap | src/app/App.tsx:429 | selects the layer whose colormap is being edited |
| Dashboard.App.CloseColormapEditor | src/app/App.tsx:483 | clears the selected layer |
| Dashboard.App.ApplyColormap | src/app/App.tsx:202-221 | stores the layer list with the colormap applied |
| Dashboard.App.ApplyFromEditor | src/app/components/ColormapEditor.tsx:35-40 | when the editor's guard holds, applies its colormap and bounds to the selected layer and then closes the editor (deselects the layer); otherwise nothing changes |
| Dashboard.App.CreateColormap | src/app/App.tsx:223-238 | stores the extended colormap list and returns the stored custom colormaps: the old custom ones plus the new one |
| Dashboard.App.DeleteColormap | src/app/App.tsx:240-248 | stores the filtered colormaps and returns the remaining custom ones |
| Dashboard.App.AddPoi | src/app/App.tsx:260-283 | stores the extended point list and returns it as stored |
| Dashboard.App.DeletePoi | src/app/App.tsx:285-292 | stores the filtered point list and returns it as stored |
| Dashboard.App.RenamePoi | src/app/App.tsx:294-301 | stores the renamed point list and returns it as stored |
| Dashboard.App.StepBackward | src/app/App.tsx:464-468 | moves the date as `Timeline.StepBackward` does and keeps it in range |
| Dashboard.App.StepForward | src/app/App.tsx:469-473 | moves the date as `Timeline.StepForward` does and keeps it in range |
| Dashboard.App.PlayPause | src/app/App.tsx:463 | flips `isPlaying` |
| Dashboard.App.PlaybackTick | src/app/App.tsx:92-108 | while playing, one `Timeline.PlaybackTick`; while paused, nothing; the date stays in range |
| LayerBuilder.CanCreate | src/app/components/LayerBuilder.tsx:53-57 | `canCreate`: name and first input non-empty, and in addition a second input for delta and bivariate, a mean and a standard-deviation dataset for zscore, nothing more for raw |
| LayerBuilder.CreateGuard | src/app/components/LayerBuilder.tsx:34 | `handleCreate`'s early return: it proceeds exactly when the name and the first input are non-empty |
| LayerBuilder.BuildRequest | src/app/components/LayerBuilder.tsx:36-43 | the request carries the name, type and first input; the second input only for delta and bivariate, the reference ids only for zscore; it has every input its type needs exactly when `canCreate` holds |
| LayerBuilder.CanCreateImpliesGuard | src/app/components/LayerBuilder.tsx:33-57 | whatever `canCreate` allows passes `handleCreate`'s guard |
| LayerBuilder.GuardAdmitsIncompleteDelta | src/app/components/LayerBuilder.tsx:34 | the handler's guard admits a delta request with an empty second input that `canCreate` rejects |
| LayerBuilder.Form.constructor | src/app/components/LayerBuilder.tsx:26-31 | empty fields, type `raw` |
| LayerBuilder.Form.Create | src/app/components/LayerBuilder.tsx:33-51 | nothing emitted and nothing changed when the name or first input is empty; otherwise emits the built request and clears the five text fields, keeping the type |
| LayerBuilder.CreateWhenEnabled | src/app/components/LayerBuilder.tsx:248 | a create with the button enabled emits a request carrying every input its type needs |
| ColormapEditor.CanCreateCustom | src/app/components/ColormapEditor.tsx:43 | `handleCreateCustom`'s guard: a non-empty name and at least two stops |
| ColormapEditor.CanApply | src/app/components/ColormapEditor.tsx:36 | `handleApply`'s guard: a selected layer id that is neither null nor empty, and a non-empty colormap id |
| ColormapEditor.AddStop | src/app/components/ColormapEditor.tsx:51-53 | one stop longer, `#808080` at the end, earlier stops unchanged |
| ColormapEditor.SetStop | src/app/components/ColormapEditor.tsx:55-59 | same length, the new colour at the index, every other stop unchanged |
| ColormapEditor.RemoveStop | src/app/components/ColormapEditor.tsx:61-65 | with more than two stops, the stop at the index is removed and the rest shift down; otherwise, or for an index that is not a position, unchanged; never below two |
| ColormapEditor.Editor.constructor | src/app/components/ColormapEditor.tsx:28-33 | the first colormap (or none) selected, bounds -10 and 10, the creator closed, no name, the two default stops |
| ColormapEditor.Editor.AddColorStop | src/app/components/ColormapEditor.tsx:51-53 | stores `AddStop` of the stops and keeps at least two |
| ColormapEditor.Editor.UpdateColor | src/app/components/ColormapEditor.tsx:55-59 | copies the stops into an array, overwrites one cell and stores the copy, which equals `SetStop` of the old stops |
| ColormapEditor.Editor.RemoveColor | src/app/components/ColormapEditor.tsx:61-65 | stores `RemoveStop` of the stops and keeps at least two |
| ColormapEditor.Editor.CreateCustom | src/app/components/ColormapEditor.tsx:42-49 | emits the name and stops exactly when the name is non-empty and there are at least two stops, then closes the creator and restores the empty name and default stops; otherwise changes nothing |
| ColormapEditor.Editor.Apply | src/app/components/ColormapEditor.tsx:35-40 | emits exactly when a non-empty layer id and a colormap are selected, with `[minValue, maxValue]` unchanged and unordered |
| ColormapEditor.Editor.OpenCreator | src/app/components/ColormapEditor.tsx:121 | opens the custom colormap creator |
| ColormapEditor.Editor.CancelCreator | src/app/components/ColormapEditor.tsx:250 | closes the creator, keeping the name and stops |
| ColormapEditor.CreateCustomNeedsOnlyName | src/app/components/ColormapEditor.tsx:43 | with the two-stop invariant, only the name decides the create guard |
| ColormapEditor.EditsKeepTwoStops | src/app/components/ColormapEditor.tsx:51-65 | any sequence of add, update and remove edits starting from two or more stops keeps at least two |
| CatalogBrowser.Lower | src/app/components/STACCatalogBrowser.tsx:30-31 | same length, each character lower-cased |
| CatalogBrowser.Includes | src/app/components/STACCatalogBrowser.tsx:30-31 | true exactly when the needle occurs at some position of the haystack |
| CatalogBrowser.MatchesSearch | src/app/components/STACCatalogBrowser.tsx:30-31 | `matchesSearch`: the lower-cased title or the lower-cased description contains the lower-cased search term |
| CatalogBrowser.MatchesEcv | src/app/components/STACCatalogBrowser.tsx:32 | `matchesECV`: the filter is `all` or equals the dataset's ECV |
| CatalogBrowser.MatchesSource | src/app/components/STACCatalogBrowser.tsx:33 | `matchesSource`: the filter is `all` or equals the dataset's data source |
| CatalogBrowser.Matches | src/app/components/STACCatalogBrowser.tsx:34 | a dataset is kept exactly when all three criteria hold |
| CatalogBrowser.FilteredDatasets | src/app/components/STACCatalogBrowser.tsx:29-35 | an order-preserving subsequence of the catalog that keeps exactly the datasets matching search, ECV and source, every copy of each |
| CatalogBrowser.UnfilteredShowsAll | src/app/components/STACCatalogBrowser.tsx:29-35 | an empty search with both filters on `all` shows the whole catalog |
| CatalogBrowser.RelaxEcvFilter | src/app/components/STACCatalogBrowser.tsx:32 | switching the ECV filter to `all` only adds datasets |
| CatalogBrowser.RelaxSourceFilter | src/app/components/STACCatalogBrowser.tsx:33 | switching the source filter to `all` only adds datasets |
| CatalogBrowser.NarrowSearch | src/app/components/STACCatalogBrowser.tsx:30-31 | a search term containing another one shows a subsequence of what the shorter one shows |
| CatalogBrowser.Ecvs | src/app/components/STACCatalogBrowser.tsx:25 | exactly the ECVs occurring in the catalog, without duplicates, in first-occurrence order |
| CatalogBrowser.Sources | src/app/components/STACCatalogBrowser.tsx:26 | exactly the data sources occurring in the catalog, without duplicates, in first-occurrence order |
| LocalDataExplorer.FavoritesSection | src/app/components/LocalDataExplorer.tsx:16 | the order-preserving sublist of datasets whose id is a favourite id, each kept as often as it occurs |
| LocalDataExplorer.FetchedSection | src/app/components/LocalDataExplorer.tsx:17 | the order-preserving sublist of fetched datasets that are not favourites, each kept as often as it occurs |
| LocalDataExplorer.ComputedSection | src/app/components/LocalDataExplorer.tsx:18 | the order-preserving sublist of all computed datasets, favourites included, each kept as often as it occurs |
| LocalDataExplorer.ShowEmptyState | src/app/components/LocalDataExplorer.tsx:127 | the "No local datasets yet" message shows exactly when the dataset list is empty |
| LocalDataExplorer.FavoritesAndFetchedDisjoint | src/app/components/LocalDataExplorer.tsx:16-17 | no dataset is in both the favourites and the fetched section |
| LocalDataExplorer.EverySectionCovered | src/app/components/LocalDataExplorer.tsx:16-18 | every dataset is in at least one section |
| LocalDataExplorer.ComputedFavoriteShownTwice | src/app/components/LocalDataExplorer.tsx:16-18 | a computed favourite is in the favourites and the computed section, not the fetched one |
| LocalDataExplorer.EmptyStateIffNoSections | src/app/components/LocalDataExplorer.tsx:127 | the empty-state message shows exactly when all three sections are empty |
| LocalDataExplorer.NoFavoritesAmongLocalCopies | src/app/App.tsx:417 | when the local ids start with `local-` and no favourite id does, the favourites section is empty |
| PoiManager.CanAdd | src/app/components/POIManager.tsx:30 | `handleAddPOI`'s guard: a non-empty name and both coordinate strings parse to a number (not NaN) |
| PoiManager.AddEnabled | src/app/components/POIManager.tsx:177 | the add button is enabled exactly when name, longitude and latitude are all non-empty |
| PoiManager.CanRename | src/app/components/POIManager.tsx:40 | `handleRename`'s guard: a non-empty edit name |
| PoiManager.CanAddNeedsEnabled | src/app/components/POIManager.tsx:177 | since an empty string does not parse, whatever `handleAddPOI` accepts the enabled add button allows |
| PoiManager.Form.constructor | src/app/components/POIManager.tsx:19-24 | the dialogs closed and every field empty |
| PoiManager.Form.OpenAddDialog | src/app/components/POIManager.tsx:52 | opens the add dialog |
| PoiManager.Form.CancelAdd | src/app/components/POIManager.tsx:170 | closes the add dialog, keeping the fields |
| PoiManager.Form.Add | src/app/components/POIManager.tsx:26-37 | emits exactly when the name is non-empty and both coordinates parse, with `[lng, lat]` in that order; then closes the dialog and clears the three fields, so it cannot emit again; otherwise changes nothing |
| PoiManager.Form.StartEdit | src/app/components/POIManager.tsx:94-97 | the point's id is edited and its current name is the edit name |
| PoiManager.Form.CancelRename | src/app/components/POIManager.tsx:205 | closes the rename dialog |
| PoiManager.Form.Rename | src/app/components/POIManager.tsx:39-45 | emits for the id exactly when the edit name is non-empty, then clears the edited id and name; otherwise changes nothing |
| PoiManager.Form.ConfirmRename | src/app/components/POIManager.tsx:211 | renames the edited point only when one is being edited and the name is non-empty |

## Left out

- Map rendering, tile streaming and colormap evaluation. These are calls into an external shader-layer library that is not part of this model. MapLibre setup, markers and the globe animation are left out for the same reason.
- Loading favourites, custom colormaps and points from local storage at start-up. This is JSON parsing of browser storage; the values the handlers write are returned by the `Dashboard.App` methods instead.
- Toast messages, the `setInterval` scheduling and the playback speed. The model has one method per firing of the interval; timing is not modelled.
- The `size` string of a fetched dataset. It comes from `Math.random()`.
- JavaScript `Date` arithmetic. `setMonth` overflow and day-of-month rollover are not modelled, because dates are month indices.
- The timeline slider's `onDateChange` and its progress arithmetic (floating point over milliseconds). `Dashboard.App` has no method for jumping to an arbitrary date.
- The colormap editor's `parseFloat` of the bounds inputs and their NaN values. `minValue` and `maxValue` are reals set only by the constructor. The other form `onChange` setters (text fields, select boxes) are plain field assignments and are not modelled as methods.
- CatalogBrowser.Lower: lower-cases ASCII letters only, whereas `toLowerCase` folds all of Unicode, so `CatalogBrowser.MatchesSearch` and `CatalogBrowser.FilteredDatasets` are case-insensitive for ASCII letters only.
- `ColormapEditor.Editor.UpdateColor`: requires an index inside the stop list, because the dialog only offers existing positions. JavaScript would grow the array for a larger index.
- Time-series plots, export, the basemap toggles, the sidebar and the other presentational components. They are outside the state logic modelled here.
- Ordering of colormap bounds. Nothing orders or validates the bounds: `handleApply` and `handleApplyColormap` pass `[minValue, maxValue]` through unchecked, so a minimum at or above the maximum is accepted. The model does the same (`ColormapEditor.Editor.Apply`, `AppState.ApplyColormap`).
- Display-only catalog fields: `sensor`, `temporalResolution`, `aggregationType`, `license` and `cdsLink` of `STACDataset` (src/app/types.ts:11-20). No modelled handler reads them. `LocalDataset.size` is covered above.
