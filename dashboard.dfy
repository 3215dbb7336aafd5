/**
 * The dashboard's state holder (the `App` component of src/app/App.tsx): the
 * state fields its handlers replace, and one method per handler. Each method
 * stores the list computed by the matching function of `AppState` and returns
 * what the source writes to storage, where it writes anything.
 */
module Dashboard {
  import opened Seqs
  import opened Types
  import AppState
  import Timeline
  import ColormapEditor
  import LocalDataExplorer

  class App {
    var currentDate: Month
    const dateRange: TimeRange
    var isPlaying: bool
    var stacDatasets: seq<StacDataset>
    var localDatasets: seq<LocalDataset>
    var visualizationLayers: seq<VisualizationLayer>
    var colormaps: seq<Colormap>
    var pois: seq<Poi>
    var selectedColormapLayerId: Option<Id>

    /**
     * The current date lies in the date range, and every local dataset is a
     * fetched copy with a `local-` id.
     */
    ghost predicate Valid()
      reads this`currentDate, this`localDatasets
    {
      && Timeline.InRange(currentDate, dateRange)
      && forall i :: 0 <= i < |localDatasets| ==>
           localDatasets[i].kind == Fetched && LocalIdPrefix <= localDatasets[i].id
    }

    constructor (catalog: seq<StacDataset>)
      ensures Valid()
      ensures currentDate == Timeline.InitialDate && !isPlaying
      ensures dateRange == TimeRange(Timeline.RangeStart, Timeline.RangeEnd)
      ensures stacDatasets == catalog && localDatasets == [] && visualizationLayers == []
      ensures colormaps == BuiltInColormaps() && pois == [] && selectedColormapLayerId.None?
    {
      currentDate := Timeline.InitialDate;
      dateRange := TimeRange(Timeline.RangeStart, Timeline.RangeEnd);
      isPlaying := false;
      stacDatasets := catalog;
      localDatasets := [];
      visualizationLayers := [];
      colormaps := BuiltInColormaps();
      pois := [];
      selectedColormapLayerId := None;
    }

    // -------------------------------------------------------------- catalog

    /** Returns the favourite ids the source stores. */
    method ToggleFavorite(datasetId: Id) returns (persisted: seq<Id>)
      modifies this`stacDatasets
      ensures stacDatasets == AppState.ToggleFavorite(old(stacDatasets), datasetId)
      ensures persisted == AppState.FavoriteIds(stacDatasets)
    {
      stacDatasets := AppState.ToggleFavorite(stacDatasets, datasetId);
      persisted := AppState.FavoriteIds(stacDatasets);
    }

    method FetchDataset(datasetId: Id, stamp: string)
      requires Valid()
      modifies this`localDatasets
      ensures Valid()
      ensures match AppState.FetchDataset(stacDatasets, datasetId, stamp)
        case None => localDatasets == old(localDatasets)
        case Some(d) => localDatasets == old(localDatasets) + [d]
    {
      var fetched := AppState.FetchDataset(stacDatasets, datasetId, stamp);
      if fetched.Some? {
        localDatasets := localDatasets + [fetched.value];
      }
    }

    method DeleteLocalDataset(datasetId: Id)
      requires Valid()
      modifies this`localDatasets
      ensures Valid()
      ensures localDatasets == AppState.DeleteLocalDataset(old(localDatasets), datasetId)
    {
      localDatasets := AppState.DeleteLocalDataset(localDatasets, datasetId);
    }

    /**
     * The favourites section of the local data panel as the dashboard feeds
     * it (the favourite catalog ids against the local copies): empty as long
     * as no catalog id itself starts with `local-`.
     */
    method LocalFavoritesSection() returns (section: seq<LocalDataset>)
      requires Valid()
      requires forall i :: 0 <= i < |stacDatasets| ==> !(LocalIdPrefix <= stacDatasets[i].id)
      ensures section == LocalDataExplorer.FavoritesSection(localDatasets, AppState.FavoriteIds(stacDatasets))
      ensures section == []
    {
      var favoriteIds := AppState.FavoriteIds(stacDatasets);
      assert forall k :: 0 <= k < |favoriteIds| ==> !(LocalIdPrefix <= favoriteIds[k]) by {
        forall k | 0 <= k < |favoriteIds| ensures !(LocalIdPrefix <= favoriteIds[k]) {
          assert favoriteIds[k] in favoriteIds;
        }
      }
      LocalDataExplorer.NoFavoritesAmongLocalCopies(localDatasets, favoriteIds);
      section := LocalDataExplorer.FavoritesSection(localDatasets, favoriteIds);
    }

    // --------------------------------------------------------------- layers

    method CreateLayer(layerId: Id, req: LayerRequest)
      modifies this`visualizationLayers
      ensures visualizationLayers == AppState.CreateLayer(old(visualizationLayers), layerId, req)
    {
      visualizationLayers := AppState.CreateLayer(visualizationLayers, layerId, req);
    }

    method ToggleLayerVisibility(layerId: Id)
      modifies this`visualizationLayers
      ensures visualizationLayers == AppState.ToggleVisibility(old(visualizationLayers), layerId)
    {
      visualizationLayers := AppState.ToggleVisibility(visualizationLayers, layerId);
    }

    method SetLayerOpacity(layerId: Id, opacity: real)
      modifies this`visualizationLayers
      ensures visualizationLayers == AppState.SetOpacity(old(visualizationLayers), layerId, opacity)
    {
      visualizationLayers := AppState.SetOpacity(visualizationLayers, layerId, opacity);
    }

    method DeleteLayer(layerId: Id)
      modifies this`visualizationLayers
      ensures visualizationLayers == AppState.DeleteLayer(old(visualizationLayers), layerId)
    {
      visualizationLayers := AppState.DeleteLayer(visualizationLayers, layerId);
    }

    /** `answer` is the result of the name prompt; None when it was cancelled. */
    method RenameLayer(layerId: Id, answer: Option<string>)
      modifies this`visualizationLayers
      ensures visualizationLayers == AppState.RenameLayer(old(visualizationLayers), layerId, answer)
    {
      visualizationLayers := AppState.RenameLayer(visualizationLayers, layerId, answer);
    }

    /** Opens the colormap editor for a layer (the layer list's colormap button). */
    method ConfigureColormap(layerId: Id)
      modifies this`selectedColormapLayerId
      ensures selectedColormapLayerId == Some(layerId)
    {
      selectedColormapLayerId := Some(layerId);
    }

    /** The colormap editor's `onClose`. */
    method CloseColormapEditor()
      modifies this`selectedColormapLayerId
      ensures selectedColormapLayerId.None?
    {
      selectedColormapLayerId := None;
    }

    method ApplyColormap(layerId: Id, colormapId: Id, bounds: Bounds)
      modifies this`visualizationLayers
      ensures visualizationLayers == AppState.ApplyColormap(old(visualizationLayers), layerId, colormapId, bounds)
    {
      visualizationLayers := AppState.ApplyColormap(visualizationLayers, layerId, colormapId, bounds);
    }

    /**
     * The editor's apply button as the dashboard wires it: when the editor
     * emits a request for the selected layer, the colormap is applied and the
     * editor's `onClose` deselects the layer; otherwise nothing changes.
     */
    method ApplyFromEditor(editor: ColormapEditor.Editor) returns (emitted: Option<ColormapEditor.ApplyRequest>)
      modifies this`visualizationLayers, this`selectedColormapLayerId
      ensures emitted.Some? <==> ColormapEditor.CanApply(old(selectedColormapLayerId), editor.selectedColormap)
      ensures emitted.Some? ==>
        && emitted.value == ColormapEditor.ApplyRequest(old(selectedColormapLayerId).value, editor.selectedColormap,
                                                        Bounds(editor.minValue, editor.maxValue))
        && visualizationLayers == AppState.ApplyColormap(old(visualizationLayers), emitted.value.layerId,
                                                         emitted.value.colormapId, emitted.value.bounds)
        && selectedColormapLayerId.None?
      ensures emitted.None? ==>
        visualizationLayers == old(visualizationLayers) && selectedColormapLayerId == old(selectedColormapLayerId)
    {
      emitted := editor.Apply(selectedColormapLayerId);
      if emitted.Some? {
        ApplyColormap(emitted.value.layerId, emitted.value.colormapId, emitted.value.bounds);
        CloseColormapEditor();
      }
    }

    // ------------------------------------------------------------ colormaps

    /** Returns the custom colormaps the source stores. */
    method CreateColormap(colormapId: Id, name: string, colors: seq<string>) returns (persisted: seq<Colormap>)
      modifies this`colormaps
      ensures colormaps == AppState.CreateColormap(old(colormaps), colormapId, name, colors)
      ensures persisted == AppState.CustomColormaps(old(colormaps)) + [Colormap(colormapId, name, false, colors)]
    {
      AppState.CreateColormapPersists(colormaps, colormapId, name, colors);
      colormaps := AppState.CreateColormap(colormaps, colormapId, name, colors);
      persisted := AppState.CustomColormaps(colormaps);
    }

    /** Returns the custom colormaps the source stores. */
    method DeleteColormap(colormapId: Id) returns (persisted: seq<Colormap>)
      modifies this`colormaps
      ensures colormaps == AppState.DeleteColormap(old(colormaps), colormapId)
      ensures persisted == AppState.CustomColormaps(colormaps)
    {
      colormaps := AppState.DeleteColormap(colormaps, colormapId);
      persisted := AppState.CustomColormaps(colormaps);
    }

    // ----------------------------------------------------------------- POIs

    /** Returns the point list the source stores; `createdAt` stands for the clock reading. */
    method AddPoi(poiId: Id, name: string, coordinates: Coordinates, createdAt: int) returns (persisted: seq<Poi>)
      modifies this`pois
      ensures pois == AppState.AddPoi(old(pois), poiId, name, coordinates, createdAt)
      ensures persisted == pois
    {
      pois := AppState.AddPoi(pois, poiId, name, coordinates, createdAt);
      persisted := pois;
    }

    method DeletePoi(poiId: Id) returns (persisted: seq<Poi>)
      modifies this`pois
      ensures pois == AppState.DeletePoi(old(pois), poiId)
      ensures persisted == pois
    {
      pois := AppState.DeletePoi(pois, poiId);
      persisted := pois;
    }

    method RenamePoi(poiId: Id, newName: string) returns (persisted: seq<Poi>)
      modifies this`pois
      ensures pois == AppState.RenamePoi(old(pois), poiId, newName)
      ensures persisted == pois
    {
      pois := AppState.RenamePoi(pois, poiId, newName);
      persisted := pois;
    }

    // ------------------------------------------------------------- timeline

    method StepBackward()
      requires Valid()
      modifies this`currentDate
      ensures Valid()
      ensures currentDate == Timeline.StepBackward(old(currentDate), dateRange)
    {
      currentDate := Timeline.StepBackward(currentDate, dateRange);
    }

    method StepForward()
      requires Valid()
      modifies this`currentDate
      ensures Valid()
      ensures currentDate == Timeline.StepForward(old(currentDate), dateRange)
    {
      currentDate := Timeline.StepForward(currentDate, dateRange);
    }

    method PlayPause()
      modifies this`isPlaying
      ensures isPlaying == !old(isPlaying)
    {
      isPlaying := !isPlaying;
    }

    /** One firing of the playback interval, which exists only while playing. */
    method PlaybackTick()
      requires Valid()
      modifies this`currentDate, this`isPlaying
      ensures Valid()
      ensures old(isPlaying) ==>
        Timeline.Playback(currentDate, isPlaying) == Timeline.PlaybackTick(old(currentDate), dateRange)
      ensures !old(isPlaying) ==> currentDate == old(currentDate) && !isPlaying
    {
      if isPlaying {
        var next := Timeline.PlaybackTick(currentDate, dateRange);
        currentDate, isPlaying := next.date, next.playing;
      }
    }
  }
}
