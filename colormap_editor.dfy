/**
 * The colormap editor dialog (src/app/components/ColormapEditor.tsx): choosing
 * a colormap and bounds to apply to a layer, and composing a custom colormap
 * from a list of colour stops that never gets shorter than two.
 */
module ColormapEditor {
  import opened Seqs
  import opened Types

  /** The stops a new custom colormap starts from. */
  const DefaultStops: seq<string> := ["#3b82f6", "#ef4444"]
  /** The stop `addColorStop` appends. */
  const AddedStop: string := "#808080"

  /** `addColorStop`: one more stop, grey, at the end. */
  function AddStop(stops: seq<string>): (r: seq<string>)
    ensures |r| == |stops| + 1
    ensures r[..|stops|] == stops && r[|stops|] == AddedStop
  {
    stops + [AddedStop]
  }

  /** `updateColor`: position `index` gets the new colour, the others and the length stay. */
  function SetStop(stops: seq<string>, index: nat, color: string): (r: seq<string>)
    requires index < |stops|
    ensures |r| == |stops| && r[index] == color
    ensures forall j :: 0 <= j < |stops| && j != index ==> r[j] == stops[j]
  {
    stops[index := color]
  }

  /**
   * `removeColor`: drops position `index` when more than two stops remain;
   * otherwise, or when no stop has that position, the list is unchanged.
   */
  function RemoveStop(stops: seq<string>, index: int): (r: seq<string>)
    ensures (|stops| <= 2 || index < 0 || index >= |stops|) ==> r == stops
    ensures |stops| > 2 && 0 <= index < |stops| ==>
      && |r| == |stops| - 1
      && (forall j :: 0 <= j < index ==> r[j] == stops[j])
      && (forall j :: index <= j < |r| ==> r[j] == stops[j + 1])
    ensures |stops| >= 2 ==> |r| >= 2
  {
    if |stops| > 2 && 0 <= index < |stops| then stops[..index] + stops[index + 1..] else stops
  }

  /** `handleCreateCustom`'s guard. */
  predicate CanCreateCustom(name: string, stops: seq<string>)
  {
    name != "" && |stops| >= 2
  }

  /** `handleApply`'s guard: a layer is selected (a null or empty id is not) and so is a colormap. */
  predicate CanApply(selectedLayerId: Option<Id>, selectedColormap: Id)
  {
    selectedLayerId.Some? && selectedLayerId.value != "" && selectedColormap != ""
  }

  datatype CustomColormapRequest = CustomColormapRequest(name: string, colors: seq<string>)
  datatype ApplyRequest = ApplyRequest(layerId: Id, colormapId: Id, bounds: Bounds)

  class Editor {
    var selectedColormap: Id
    var minValue: real
    var maxValue: real
    var isCreatingCustom: bool
    var customName: string
    var customColors: seq<string>

    /** The custom colormap always has at least two stops. */
    ghost predicate Valid()
      reads this
    {
      |customColors| >= 2
    }

    /** `colormaps` is the list the dialog is opened with; the first one starts selected. */
    constructor (colormaps: seq<Colormap>)
      ensures Valid()
      ensures selectedColormap == if |colormaps| > 0 then colormaps[0].id else ""
      ensures minValue == -10.0 && maxValue == 10.0
      ensures !isCreatingCustom && customName == "" && customColors == DefaultStops
    {
      selectedColormap := if |colormaps| > 0 then colormaps[0].id else "";
      minValue, maxValue := -10.0, 10.0;
      isCreatingCustom := false;
      customName := "";
      customColors := DefaultStops;
    }

    /** The "Create Custom Colormap" button. */
    method OpenCreator()
      modifies this`isCreatingCustom
      ensures isCreatingCustom
    {
      isCreatingCustom := true;
    }

    /** The creator's cancel button; the name and stops keep what was entered. */
    method CancelCreator()
      modifies this`isCreatingCustom
      ensures !isCreatingCustom
    {
      isCreatingCustom := false;
    }

    method AddColorStop()
      requires Valid()
      modifies this`customColors
      ensures Valid()
      ensures customColors == AddStop(old(customColors))
    {
      customColors := AddStop(customColors);
    }

    /** `updateColor`: copies the stops, overwrites one position of the copy, stores the copy. */
    method UpdateColor(index: nat, color: string)
      requires Valid()
      requires index < |customColors|
      modifies this`customColors
      ensures Valid()
      ensures customColors == SetStop(old(customColors), index, color)
    {
      var current := customColors;
      var newColors := new string[|current|](i requires 0 <= i < |current| => current[i]);
      newColors[index] := color;
      customColors := newColors[..];
    }

    method RemoveColor(index: int)
      requires Valid()
      modifies this`customColors
      ensures Valid()
      ensures customColors == RemoveStop(old(customColors), index)
    {
      customColors := RemoveStop(customColors, index);
    }

    /**
     * `handleCreateCustom`: when the guard holds, emits the name and stops,
     * closes the creator and restores the empty name and default stops;
     * otherwise changes nothing.
     */
    method CreateCustom() returns (emitted: Option<CustomColormapRequest>)
      requires Valid()
      modifies this`isCreatingCustom, this`customName, this`customColors
      ensures Valid()
      ensures emitted.Some? <==> CanCreateCustom(old(customName), old(customColors))
      ensures emitted.Some? ==>
        && emitted.value == CustomColormapRequest(old(customName), old(customColors))
        && !isCreatingCustom && customName == "" && customColors == DefaultStops
      ensures emitted.None? ==>
        isCreatingCustom == old(isCreatingCustom) && customName == old(customName)
        && customColors == old(customColors)
    {
      if customName != "" && |customColors| >= 2 {
        emitted := Some(CustomColormapRequest(customName, customColors));
        isCreatingCustom := false;
        customName := "";
        customColors := DefaultStops;
      } else {
        emitted := None;
      }
    }

    /**
     * `handleApply`: the request to apply the selected colormap with
     * `[minValue, maxValue]` as they stand (no ordering check); nothing when
     * the guard fails. The editor's own state does not change: the close that
     * follows a request is the dashboard's `onClose`, and
     * `Dashboard.App.ApplyFromEditor` performs both.
     */
    method Apply(selectedLayerId: Option<Id>) returns (emitted: Option<ApplyRequest>)
      ensures emitted.Some? <==> CanApply(selectedLayerId, selectedColormap)
      ensures emitted.Some? ==>
        emitted.value == ApplyRequest(selectedLayerId.value, selectedColormap, Bounds(minValue, maxValue))
    {
      if selectedLayerId.Some? && selectedLayerId.value != "" && selectedColormap != "" {
        emitted := Some(ApplyRequest(selectedLayerId.value, selectedColormap, Bounds(minValue, maxValue)));
      } else {
        emitted := None;
      }
    }
  }

  /** With the stop-count invariant in force, only the name decides whether a custom colormap is created. */
  lemma CreateCustomNeedsOnlyName(name: string, stops: seq<string>)
    requires |stops| >= 2
    ensures CanCreateCustom(name, stops) <==> name != ""
  {
  }

  /** The edits the stop list offers; the dialog only offers `Update` at existing positions. */
  datatype StopEdit = Add | Remove(index: int) | Update(at: nat, color: string)

  function ApplyEdit(stops: seq<string>, e: StopEdit): seq<string>
  {
    match e
    case Add => AddStop(stops)
    case Remove(i) => RemoveStop(stops, i)
    case Update(i, c) => if i < |stops| then SetStop(stops, i, c) else stops
  }

  function ApplyEdits(stops: seq<string>, edits: seq<StopEdit>): seq<string>
    decreases |edits|
  {
    if edits == [] then stops else ApplyEdits(ApplyEdit(stops, edits[0]), edits[1..])
  }

  /** Any sequence of stop edits starting from two or more stops keeps at least two. */
  lemma {:induction false} EditsKeepTwoStops(stops: seq<string>, edits: seq<StopEdit>)
    requires |stops| >= 2
    ensures |ApplyEdits(stops, edits)| >= 2
    decreases |edits|
  {
    if edits != [] {
      EditsKeepTwoStops(ApplyEdit(stops, edits[0]), edits[1..]);
    }
  }
}
