/**
 * The list updates behind the dashboard's handlers (src/app/App.tsx). Each
 * handler hands React a new list computed from the previous one; these are
 * those computations. The state holder that stores the results is
 * `Dashboard.App`.
 */
module AppState {
  import opened Seqs
  import opened Types

  // ---------------------------------------------------------------- catalog

  /** `handleToggleFavorite`: flips `isFavorite` on the datasets with that id only. */
  function ToggleFavorite(ds: seq<StacDataset>, datasetId: Id): (r: seq<StacDataset>)
    ensures |r| == |ds|
    ensures forall i :: 0 <= i < |ds| ==>
      && r[i].(isFavorite := ds[i].isFavorite) == ds[i]
      && (r[i].isFavorite != ds[i].isFavorite <==> ds[i].id == datasetId)
  {
    UpdateWhere(ds, (d: StacDataset) => d.id == datasetId, (d: StacDataset) => d.(isFavorite := !d.isFavorite))
  }

  lemma ToggleFavoriteTwice(ds: seq<StacDataset>, datasetId: Id)
    ensures ToggleFavorite(ToggleFavorite(ds, datasetId), datasetId) == ds
  {
    var r := ToggleFavorite(ToggleFavorite(ds, datasetId), datasetId);
    assert forall i :: 0 <= i < |ds| ==> r[i] == ds[i];
  }

  function DatasetIds(ds: seq<StacDataset>): (ids: seq<Id>)
    ensures |ids| == |ds| && forall i :: 0 <= i < |ds| ==> ids[i] == ds[i].id
  {
    Map(ds, (d: StacDataset) => d.id)
  }

  /** `ds.filter(ds => ds.isFavorite)`: the favourite datasets, every copy, in list order. */
  function Favorites(ds: seq<StacDataset>): (r: seq<StacDataset>)
    ensures IsSubsequence(r, ds)
    ensures forall i :: 0 <= i < |r| ==> r[i] in ds && r[i].isFavorite
    ensures forall i :: 0 <= i < |ds| && ds[i].isFavorite ==> multiset(r)[ds[i]] == multiset(ds)[ds[i]]
  {
    var keep := (d: StacDataset) => d.isFavorite;
    FilterKeepsCopies(ds, keep);
    Filter(ds, keep)
  }

  /**
   * The ids written to storage after a toggle (and passed to the local data
   * explorer): the id of each favourite dataset, one per dataset, in list order.
   */
  function FavoriteIds(ds: seq<StacDataset>): (ids: seq<Id>)
    ensures forall x :: x in ids <==> exists i :: 0 <= i < |ds| && ds[i].isFavorite && ds[i].id == x
    ensures IsSubsequence(ids, DatasetIds(ds))
    ensures |ids| == |Favorites(ds)| && forall k :: 0 <= k < |ids| ==> ids[k] == Favorites(ds)[k].id
  {
    var favs := Favorites(ds);
    SubsequenceMap(favs, ds, (d: StacDataset) => d.id);
    assert forall i :: 0 <= i < |ds| && ds[i].isFavorite ==> ds[i] in favs by {
      forall i | 0 <= i < |ds| && ds[i].isFavorite ensures ds[i] in favs {
        assert multiset(favs)[ds[i]] == multiset(ds)[ds[i]];
      }
    }
    DatasetIds(favs)
  }

  /**
   * `handleFetchDataset`: the local copy of the first catalog entry with that
   * id, or nothing when there is none. The copy's id is `local-` followed by
   * `stamp`, which stands for the clock reading the source appends.
   */
  function FetchDataset(ds: seq<StacDataset>, datasetId: Id, stamp: string): (r: Option<LocalDataset>)
    ensures r.None? <==> forall i :: 0 <= i < |ds| ==> ds[i].id != datasetId
    ensures r.Some? ==> exists k :: (0 <= k < |ds| && ds[k].id == datasetId
      && (forall j :: 0 <= j < k ==> ds[j].id != datasetId)
      && r.value == LocalDataset(LocalIdPrefix + stamp, ds[k].title, Fetched, ds[k].unit, Some(ds[k].timeRange)))
  {
    match FindIndex(ds, (d: StacDataset) => d.id == datasetId)
    case None => None
    case Some(k) =>
      var d := ds[k];
      Some(LocalDataset(LocalIdPrefix + stamp, d.title, Fetched, d.unit, Some(d.timeRange)))
  }

  // ---------------------------------------------------------- local datasets

  /** `handleDeleteLocalDataset`: drops every dataset with that id, keeps the rest in order. */
  function DeleteLocalDataset(ls: seq<LocalDataset>, datasetId: Id): (r: seq<LocalDataset>)
    ensures forall i :: 0 <= i < |r| ==> r[i].id != datasetId
    ensures forall i :: 0 <= i < |ls| && ls[i].id != datasetId ==> ls[i] in r
    ensures IsSubsequence(r, ls)
    ensures forall i :: 0 <= i < |ls| && ls[i].id != datasetId ==> multiset(r)[ls[i]] == multiset(ls)[ls[i]]
  {
    var keep := (d: LocalDataset) => d.id != datasetId;
    FilterKeepsCopies(ls, keep);
    Filter(ls, keep)
  }

  // ------------------------------------------------------------------ layers

  /** The layer `handleCreateLayer` builds from a request. */
  function NewLayer(layerId: Id, req: LayerRequest): VisualizationLayer
  {
    VisualizationLayer(layerId, req.name, req.vtype, true, 1.0,
      LayerConfig(req.input1, req.input2, req.referenceMean, req.referenceStdDev,
        Some(DefaultLayerColormap), None, None))
  }

  /**
   * `handleCreateLayer`: one new, visible, fully opaque layer at the end, with
   * the request's inputs and the default colormap; earlier layers untouched.
   */
  function CreateLayer(ls: seq<VisualizationLayer>, layerId: Id, req: LayerRequest): (r: seq<VisualizationLayer>)
    ensures |r| == |ls| + 1 && r[..|ls|] == ls
    ensures var l := r[|ls|];
      && l.id == layerId && l.name == req.name && l.vtype == req.vtype
      && l.visible && l.opacity == 1.0
      && l.config.input1 == req.input1 && l.config.input2 == req.input2
      && l.config.referenceMean == req.referenceMean
      && l.config.referenceStdDev == req.referenceStdDev
      && l.config.colormap1 == Some(DefaultLayerColormap)
      && l.config.colormap2.None? && l.config.colormapBounds.None?
  {
    ls + [NewLayer(layerId, req)]
  }

  /** Deleting a freshly created layer by its id gives back the list from before. */
  lemma DeleteUndoesCreateLayer(ls: seq<VisualizationLayer>, layerId: Id, req: LayerRequest)
    requires forall i :: 0 <= i < |ls| ==> ls[i].id != layerId
    ensures DeleteLayer(CreateLayer(ls, layerId, req), layerId) == ls
  {
    var keep := (l: VisualizationLayer) => l.id != layerId;
    FilterConcat(ls, [NewLayer(layerId, req)], keep);
    FilterKeepsAll(ls, keep);
  }

  /** `handleToggleLayerVisibility`: flips `visible` on the layers with that id only. */
  function ToggleVisibility(ls: seq<VisualizationLayer>, layerId: Id): (r: seq<VisualizationLayer>)
    ensures |r| == |ls|
    ensures forall i :: 0 <= i < |ls| ==>
      && r[i].(visible := ls[i].visible) == ls[i]
      && (r[i].visible != ls[i].visible <==> ls[i].id == layerId)
  {
    UpdateWhere(ls, (l: VisualizationLayer) => l.id == layerId, (l: VisualizationLayer) => l.(visible := !l.visible))
  }

  lemma ToggleVisibilityTwice(ls: seq<VisualizationLayer>, layerId: Id)
    ensures ToggleVisibility(ToggleVisibility(ls, layerId), layerId) == ls
  {
    var r := ToggleVisibility(ToggleVisibility(ls, layerId), layerId);
    assert forall i :: 0 <= i < |ls| ==> r[i] == ls[i];
  }

  /** `handleLayerOpacityChange`: the new opacity on the layers with that id, nothing else. */
  function SetOpacity(ls: seq<VisualizationLayer>, layerId: Id, opacity: real): (r: seq<VisualizationLayer>)
    ensures |r| == |ls|
    ensures forall i :: 0 <= i < |ls| ==>
      && r[i].(opacity := ls[i].opacity) == ls[i]
      && (ls[i].id == layerId ==> r[i].opacity == opacity)
      && (ls[i].id != layerId ==> r[i] == ls[i])
  {
    UpdateWhere(ls, (l: VisualizationLayer) => l.id == layerId, (l: VisualizationLayer) => l.(opacity := opacity))
  }

  lemma SetOpacityIdempotent(ls: seq<VisualizationLayer>, layerId: Id, opacity: real)
    ensures SetOpacity(SetOpacity(ls, layerId, opacity), layerId, opacity) == SetOpacity(ls, layerId, opacity)
  {
    var once := SetOpacity(ls, layerId, opacity);
    var twice := SetOpacity(once, layerId, opacity);
    assert forall i :: 0 <= i < |ls| ==> twice[i] == once[i];
  }

  /** `handleDeleteLayer`: no layer with that id remains; the others keep their order. */
  function DeleteLayer(ls: seq<VisualizationLayer>, layerId: Id): (r: seq<VisualizationLayer>)
    ensures forall i :: 0 <= i < |r| ==> r[i].id != layerId
    ensures forall i :: 0 <= i < |ls| && ls[i].id != layerId ==> ls[i] in r
    ensures forall i :: 0 <= i < |r| ==> r[i] in ls
    ensures IsSubsequence(r, ls)
    ensures forall i :: 0 <= i < |ls| && ls[i].id != layerId ==> multiset(r)[ls[i]] == multiset(ls)[ls[i]]
  {
    var keep := (l: VisualizationLayer) => l.id != layerId;
    FilterKeepsCopies(ls, keep);
    Filter(ls, keep)
  }

  /**
   * `handleRenameLayer`: `answer` is what the name prompt returned (None when
   * cancelled). Nothing happens when no layer has the id or the answer is
   * empty; otherwise the matching layers get the new name and nothing else.
   */
  function RenameLayer(ls: seq<VisualizationLayer>, layerId: Id, answer: Option<string>): (r: seq<VisualizationLayer>)
    ensures (forall i :: 0 <= i < |ls| ==> ls[i].id != layerId) ==> r == ls
    ensures (answer.None? || answer.value == "") ==> r == ls
    ensures |r| == |ls|
    ensures forall i :: 0 <= i < |ls| ==>
      && r[i].(name := ls[i].name) == ls[i]
      && (ls[i].id == layerId && answer.Some? && answer.value != "" ==> r[i].name == answer.value)
      && (ls[i].id != layerId ==> r[i] == ls[i])
  {
    if FindIndex(ls, (l: VisualizationLayer) => l.id == layerId).None? then ls
    else if answer.None? || answer.value == "" then ls
    else UpdateWhere(ls, (l: VisualizationLayer) => l.id == layerId, (l: VisualizationLayer) => l.(name := answer.value))
  }

  /**
   * `handleApplyColormap`: the matching layers get the colormap id and the
   * bounds exactly as given (no ordering check); all their other settings,
   * the second colormap included, and all other layers stay as they were.
   */
  function ApplyColormap(ls: seq<VisualizationLayer>, layerId: Id, colormapId: Id, bounds: Bounds): (r: seq<VisualizationLayer>)
    ensures |r| == |ls|
    ensures forall i :: 0 <= i < |ls| ==>
      && r[i].(config := ls[i].config) == ls[i]
      && (ls[i].id != layerId ==> r[i] == ls[i])
      && (ls[i].id == layerId ==>
            && r[i].config.colormap1 == Some(colormapId)
            && r[i].config.colormapBounds == Some(bounds)
            && r[i].config.(colormap1 := ls[i].config.colormap1,
                            colormapBounds := ls[i].config.colormapBounds) == ls[i].config)
  {
    UpdateWhere(ls, (l: VisualizationLayer) => l.id == layerId,
      (l: VisualizationLayer) => l.(config := l.config.(colormap1 := Some(colormapId), colormapBounds := Some(bounds))))
  }

  // --------------------------------------------------------------- colormaps

  /** What the dashboard writes to storage after a colormap change: the custom ones, in order. */
  function CustomColormaps(cms: seq<Colormap>): (r: seq<Colormap>)
    ensures forall i :: 0 <= i < |r| ==> !r[i].isBuiltIn && r[i] in cms
    ensures forall i :: 0 <= i < |cms| && !cms[i].isBuiltIn ==> cms[i] in r
    ensures IsSubsequence(r, cms)
    ensures forall i :: 0 <= i < |cms| && !cms[i].isBuiltIn ==> multiset(r)[cms[i]] == multiset(cms)[cms[i]]
  {
    var keep := (cm: Colormap) => !cm.isBuiltIn;
    FilterKeepsCopies(cms, keep);
    Filter(cms, keep)
  }

  function BuiltInsOf(cms: seq<Colormap>): seq<Colormap>
  {
    Filter(cms, (cm: Colormap) => cm.isBuiltIn)
  }

  /** `handleCreateColormap`: appends a custom colormap with the given stops. */
  function CreateColormap(cms: seq<Colormap>, colormapId: Id, name: string, colors: seq<string>): (r: seq<Colormap>)
    ensures |r| == |cms| + 1 && r[..|cms|] == cms
    ensures r[|cms|] == Colormap(colormapId, name, false, colors)
  {
    cms + [Colormap(colormapId, name, false, colors)]
  }

  /**
   * After a create, storage holds the previous custom colormaps followed by
   * the new one, and the built-in colormaps are the same as before.
   */
  lemma CreateColormapPersists(cms: seq<Colormap>, colormapId: Id, name: string, colors: seq<string>)
    ensures CustomColormaps(CreateColormap(cms, colormapId, name, colors))
         == CustomColormaps(cms) + [Colormap(colormapId, name, false, colors)]
    ensures BuiltInsOf(CreateColormap(cms, colormapId, name, colors)) == BuiltInsOf(cms)
  {
    var cm := Colormap(colormapId, name, false, colors);
    FilterConcat(cms, [cm], (c: Colormap) => !c.isBuiltIn);
    FilterConcat(cms, [cm], (c: Colormap) => c.isBuiltIn);
  }

  /**
   * `handleDeleteColormap`: drops the colormaps with that id. The handler does
   * not look at `isBuiltIn`; only the editor's missing delete button protects
   * the built-in ones.
   */
  function DeleteColormap(cms: seq<Colormap>, colormapId: Id): (r: seq<Colormap>)
    ensures forall i :: 0 <= i < |r| ==> r[i].id != colormapId && r[i] in cms
    ensures forall i :: 0 <= i < |cms| && cms[i].id != colormapId ==> cms[i] in r
    ensures IsSubsequence(r, cms)
    ensures forall i :: 0 <= i < |cms| && cms[i].id != colormapId ==> multiset(r)[cms[i]] == multiset(cms)[cms[i]]
  {
    var keep := (cm: Colormap) => cm.id != colormapId;
    FilterKeepsCopies(cms, keep);
    Filter(cms, keep)
  }

  /** Deleting a custom colormap leaves the built-in colormaps as they were. */
  lemma {:induction false} DeleteCustomKeepsBuiltIns(cms: seq<Colormap>, colormapId: Id)
    requires forall i :: 0 <= i < |cms| && cms[i].id == colormapId ==> !cms[i].isBuiltIn
    ensures BuiltInsOf(DeleteColormap(cms, colormapId)) == BuiltInsOf(cms)
  {
    if cms != [] {
      DeleteCustomKeepsBuiltIns(cms[1..], colormapId);
      var keep := (cm: Colormap) => cm.id != colormapId;
      var bi := (cm: Colormap) => cm.isBuiltIn;
      assert Filter(cms, keep) == (if keep(cms[0]) then [cms[0]] else []) + Filter(cms[1..], keep);
      FilterConcat(if keep(cms[0]) then [cms[0]] else [], Filter(cms[1..], keep), bi);
    }
  }

  // -------------------------------------------------------------------- POIs

  /** `handleAddPOI`: appends the new point; the whole list is what gets stored. */
  function AddPoi(pois: seq<Poi>, poiId: Id, name: string, coordinates: Coordinates, createdAt: int): (r: seq<Poi>)
    ensures |r| == |pois| + 1 && r[..|pois|] == pois
    ensures r[|pois|] == Poi(poiId, name, coordinates, createdAt)
  {
    pois + [Poi(poiId, name, coordinates, createdAt)]
  }

  /** Deleting a freshly added point by its id gives back the list from before. */
  lemma DeleteUndoesAddPoi(pois: seq<Poi>, poiId: Id, name: string, coordinates: Coordinates, createdAt: int)
    requires forall i :: 0 <= i < |pois| ==> pois[i].id != poiId
    ensures DeletePoi(AddPoi(pois, poiId, name, coordinates, createdAt), poiId) == pois
  {
    var keep := (p: Poi) => p.id != poiId;
    FilterConcat(pois, [Poi(poiId, name, coordinates, createdAt)], keep);
    FilterKeepsAll(pois, keep);
  }

  /** `handleDeletePOI`: drops the points with that id, keeps the rest in order. */
  function DeletePoi(pois: seq<Poi>, poiId: Id): (r: seq<Poi>)
    ensures forall i :: 0 <= i < |r| ==> r[i].id != poiId && r[i] in pois
    ensures forall i :: 0 <= i < |pois| && pois[i].id != poiId ==> pois[i] in r
    ensures IsSubsequence(r, pois)
    ensures forall i :: 0 <= i < |pois| && pois[i].id != poiId ==> multiset(r)[pois[i]] == multiset(pois)[pois[i]]
  {
    var keep := (p: Poi) => p.id != poiId;
    FilterKeepsCopies(pois, keep);
    Filter(pois, keep)
  }

  /** `handleRenamePOI`: the new name on the points with that id, nothing else (empty names included). */
  function RenamePoi(pois: seq<Poi>, poiId: Id, newName: string): (r: seq<Poi>)
    ensures |r| == |pois|
    ensures forall i :: 0 <= i < |pois| ==>
      && r[i].(name := pois[i].name) == pois[i]
      && (pois[i].id == poiId ==> r[i].name == newName)
      && (pois[i].id != poiId ==> r[i] == pois[i])
  {
    UpdateWhere(pois, (p: Poi) => p.id == poiId, (p: Poi) => p.(name := newName))
  }
}
