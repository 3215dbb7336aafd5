/**
 * The points-of-interest panel's form state (src/app/components/POIManager.tsx):
 * the add dialog with a name and two coordinate fields, and the rename dialog
 * for the point being edited. `parse` stands for `parseFloat`, with `None`
 * for a string that parses to NaN.
 */
module PoiManager {
  import opened Seqs
  import opened Types

  /** What `onAdd` receives: the name and the coordinates as `[lng, lat]`. */
  datatype AddRequest = AddRequest(name: string, coordinates: Coordinates)
  /** What `onRename` receives. */
  datatype RenameRequest = RenameRequest(poiId: Id, newName: string)

  /** `handleAddPOI`'s guard: a name, and both coordinate strings parse to numbers. */
  predicate CanAdd(name: string, lng: string, lat: string, parse: string -> Option<real>)
  {
    name != "" && parse(lng).Some? && parse(lat).Some?
  }

  /** The add button is enabled when none of the three fields is empty. */
  predicate AddEnabled(name: string, lng: string, lat: string)
  {
    name != "" && lng != "" && lat != ""
  }

  /** `handleRename`'s guard. */
  predicate CanRename(editName: string)
  {
    editName != ""
  }

  /**
   * Since an empty string does not parse, whatever the handler accepts the
   * enabled button also allows; the converse fails for a non-numeric field.
   */
  lemma CanAddNeedsEnabled(name: string, lng: string, lat: string, parse: string -> Option<real>)
    requires parse("").None?
    requires CanAdd(name, lng, lat, parse)
    ensures AddEnabled(name, lng, lat)
  {
  }

  class Form {
    var isAddingPoi: bool
    var newPoiName: string
    var newPoiLng: string
    var newPoiLat: string
    var editingId: Option<Id>
    var editName: string

    constructor ()
      ensures !isAddingPoi && newPoiName == "" && newPoiLng == "" && newPoiLat == ""
      ensures editingId.None? && editName == ""
    {
      isAddingPoi := false;
      newPoiName, newPoiLng, newPoiLat := "", "", "";
      editingId, editName := None, "";
    }

    /** The "Add Point of Interest" button. */
    method OpenAddDialog()
      modifies this`isAddingPoi
      ensures isAddingPoi
    {
      isAddingPoi := true;
    }

    /** The add dialog's cancel button; the fields keep what was typed. */
    method CancelAdd()
      modifies this`isAddingPoi
      ensures !isAddingPoi
    {
      isAddingPoi := false;
    }

    /**
     * `handleAddPOI`: when the guard holds, emits the name with `[lng, lat]`,
     * closes the dialog and clears the three fields; otherwise changes nothing.
     */
    method Add(parse: string -> Option<real>) returns (emitted: Option<AddRequest>)
      modifies this`isAddingPoi, this`newPoiName, this`newPoiLng, this`newPoiLat
      ensures emitted.Some? <==> CanAdd(old(newPoiName), old(newPoiLng), old(newPoiLat), parse)
      ensures emitted.Some? ==>
        && emitted.value == AddRequest(old(newPoiName),
                                       Coordinates(parse(old(newPoiLng)).value, parse(old(newPoiLat)).value))
        && !isAddingPoi && newPoiName == "" && newPoiLng == "" && newPoiLat == ""
        && !CanAdd(newPoiName, newPoiLng, newPoiLat, parse)
      ensures emitted.None? ==>
        && isAddingPoi == old(isAddingPoi) && newPoiName == old(newPoiName)
        && newPoiLng == old(newPoiLng) && newPoiLat == old(newPoiLat)
    {
      var lng := parse(newPoiLng);
      var lat := parse(newPoiLat);
      if newPoiName != "" && lng.Some? && lat.Some? {
        emitted := Some(AddRequest(newPoiName, Coordinates(lng.value, lat.value)));
        isAddingPoi := false;
        newPoiName := "";
        newPoiLng := "";
        newPoiLat := "";
      } else {
        emitted := None;
      }
    }

    /** The edit button of a point: opens the rename dialog on its current name. */
    method StartEdit(poi: Poi)
      modifies this`editingId, this`editName
      ensures editingId == Some(poi.id) && editName == poi.name
    {
      editingId := Some(poi.id);
      editName := poi.name;
    }

    /** The rename dialog's cancel button; the typed name is kept. */
    method CancelRename()
      modifies this`editingId
      ensures editingId.None?
    {
      editingId := None;
    }

    /**
     * `handleRename`: for a non-empty name, emits it for `poiId` and clears
     * the edited id and name; otherwise changes nothing.
     */
    method Rename(poiId: Id) returns (emitted: Option<RenameRequest>)
      modifies this`editingId, this`editName
      ensures emitted.Some? <==> CanRename(old(editName))
      ensures emitted.Some? ==>
        && emitted.value == RenameRequest(poiId, old(editName))
        && editingId.None? && editName == "" && !CanRename(editName)
      ensures emitted.None? ==> editingId == old(editingId) && editName == old(editName)
    {
      if editName != "" {
        emitted := Some(RenameRequest(poiId, editName));
        editingId := None;
        editName := "";
      } else {
        emitted := None;
      }
    }

    /** The rename button: `handleRename` on the edited point, when there is one. */
    method ConfirmRename() returns (emitted: Option<RenameRequest>)
      modifies this`editingId, this`editName
      ensures emitted.Some? <==> old(editingId).Some? && old(editingId).value != "" && CanRename(old(editName))
      ensures emitted.Some? ==>
        emitted.value == RenameRequest(old(editingId).value, old(editName)) && editingId.None? && editName == ""
      ensures emitted.None? ==> editingId == old(editingId) && editName == old(editName)
    {
      if editingId.Some? && editingId.value != "" {
        emitted := Rename(editingId.value);
      } else {
        emitted := None;
      }
    }
  }
}
