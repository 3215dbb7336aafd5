/**
 * The records of the climate dashboard (src/app/types.ts). Dates are whole
 * months counted from year 0 (`year * 12 + month - 1`); identifiers are strings.
 */
module Types {
  import opened Seqs

  type Id = string
  type Month = int

  datatype VisualizationType = Raw | Delta | ZScore | Bivariate

  datatype TimeRange = TimeRange(start: Month, end: Month)

  /** A catalog entry; `isFavorite` absent in the source reads as false here. */
  datatype StacDataset = StacDataset(
    id: Id,
    title: string,
    description: string,
    ecv: string,
    dataSource: string,
    unit: string,
    timeRange: TimeRange,
    isFavorite: bool)

  datatype DatasetKind = Fetched | Computed

  datatype LocalDataset = LocalDataset(
    id: Id,
    name: string,
    kind: DatasetKind,
    unit: string,
    timeRange: Option<TimeRange>)

  /** The `[min, max]` pair a colormap is stretched over; nothing orders it. */
  datatype Bounds = Bounds(min: real, max: real)

  datatype LayerConfig = LayerConfig(
    input1: Option<Id>,
    input2: Option<Id>,
    referenceMean: Option<Id>,
    referenceStdDev: Option<Id>,
    colormap1: Option<Id>,
    colormap2: Option<Id>,
    colormapBounds: Option<Bounds>)

  datatype VisualizationLayer = VisualizationLayer(
    id: Id,
    name: string,
    vtype: VisualizationType,
    visible: bool,
    opacity: real,
    config: LayerConfig)

  /** Longitude first, as in the source's `[lng, lat]` pair. */
  datatype Coordinates = Coordinates(lng: real, lat: real)

  datatype Poi = Poi(id: Id, name: string, coordinates: Coordinates, createdAt: int)

  datatype Colormap = Colormap(id: Id, name: string, isBuiltIn: bool, colors: seq<string>)

  /** The object the layer builder hands to the dashboard when a layer is created. */
  datatype LayerRequest = LayerRequest(
    name: string,
    vtype: VisualizationType,
    input1: Option<Id>,
    input2: Option<Id>,
    referenceMean: Option<Id>,
    referenceStdDev: Option<Id>)

  /** The colormap every new layer starts with. */
  const DefaultLayerColormap: Id := "viridis"
  /** Every fetched local dataset's id starts with this. */
  const LocalIdPrefix: string := "local-"

  /** The built-in colormaps the dashboard starts with (src/app/data/mockData.ts). */
  function BuiltInColormaps(): (cms: seq<Colormap>)
    ensures |cms| == 8
    ensures forall i :: 0 <= i < |cms| ==> cms[i].isBuiltIn && |cms[i].colors| >= 2
    ensures forall i, j :: 0 <= i < j < |cms| ==> cms[i].id != cms[j].id
    ensures cms[0].id == DefaultLayerColormap
  {
    [ Colormap("viridis", "Viridis", true,
        ["#440154", "#414487", "#2a788e", "#22a884", "#7ad151", "#fde725"]),
      Colormap("plasma", "Plasma", true,
        ["#0d0887", "#6a00a8", "#b12a90", "#e16462", "#fca636", "#f0f921"]),
      Colormap("inferno", "Inferno", true,
        ["#000004", "#420a68", "#932667", "#dd513a", "#fca50a", "#fcffa4"]),
      Colormap("coolwarm", "Cool-Warm", true,
        ["#3b4cc0", "#7196d2", "#b4d8f5", "#f4e3c3", "#e67c5d", "#b40426"]),
      Colormap("rdylbu", "RdYlBu", true,
        ["#a50026", "#f46d43", "#fdae61", "#fee090", "#e0f3f8", "#abd9e9", "#74add1", "#4575b4"]),
      Colormap("spectral", "Spectral", true,
        ["#9e0142", "#d53e4f", "#f46d43", "#fdae61", "#fee08b", "#e6f598", "#abdda4", "#66c2a5",
         "#3288bd", "#5e4fa2"]),
      Colormap("temperature", "Temperature", true,
        ["#313695", "#4575b4", "#74add1", "#abd9e9", "#e0f3f8", "#ffffbf", "#fee090", "#fdae61",
         "#f46d43", "#d73027", "#a50026"]),
      Colormap("precipitation", "Precipitation", true,
        ["#f7fbff", "#deebf7", "#c6dbef", "#9ecae1", "#6baed6", "#4292c6", "#2171b5", "#08519c",
         "#08306b"])
    ]
  }
}
