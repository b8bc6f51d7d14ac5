/**
 * The dashboard's create-location form (app/dashboards/locations/create/page.tsx):
 * facility items added from a dialog only when a type and a photo are chosen,
 * each under a fresh id, with no check for a repeated type; removal by id; and
 * the marker copied into the form as on the submission page.
 */
module LocationForm {
  import opened FormRules

  /** One facility entry: its own id, the facility type's id and name, and a photo. */
  datatype FacilityItem = FacilityItem(id: string, facilityId: string, facilityName: string, image: string)

  datatype LocationValues = LocationValues(
    name: string, address: string, description: string, image: string, tagId: string,
    facilities: seq<FacilityItem>, latitude: real, longitude: real)

  const DefaultValues := LocationValues("", "", "", "", "", [], DefaultPosition.latitude, DefaultPosition.longitude)

  /** A toast. */
  datatype Notice = Success(text: string) | Failure(text: string)

  const MissingChoice := "Pilih jenis fasilitas dan unggah gambar terlebih dahulu"
  const Added := "Fasilitas berhasil ditambahkan"
  const Removed := "Fasilitas berhasil dihapus"

  /** `filter((facility) => facility.id !== id)`. */
  function RemoveById(fs: seq<FacilityItem>, id: string): seq<FacilityItem>
  {
    if fs == [] then []
    else (if fs[0].id == id then [] else [fs[0]]) + RemoveById(fs[1..], id)
  }

  /** Removal distributes over concatenation, which is what "keeps the rest in order" means. */
  lemma {:induction false} RemoveByIdAppend(a: seq<FacilityItem>, b: seq<FacilityItem>, id: string)
    ensures RemoveById(a + b, id) == RemoveById(a, id) + RemoveById(b, id)
    decreases |a|
  {
    if a == [] {
      assert a + b == b;
    } else {
      assert (a + b)[1..] == a[1..] + b;
      RemoveByIdAppend(a[1..], b, id);
    }
  }

  /**
   * After removal no item has the id, every item with another id is still
   * there, nothing new appears, and a list without the id is returned unchanged.
   */
  lemma {:induction false} RemoveByIdSpec(fs: seq<FacilityItem>, id: string)
    ensures forall x :: x in RemoveById(fs, id) <==> x in fs && x.id != id
    ensures (forall x :: x in fs ==> x.id != id) ==> RemoveById(fs, id) == fs
    ensures |RemoveById(fs, id)| <= |fs|
    decreases |fs|
  {
    if fs != [] {
      RemoveByIdSpec(fs[1..], id);
      assert fs == [fs[0]] + fs[1..];
      assert forall x :: x in fs <==> x == fs[0] || x in fs[1..];
    }
  }

  /** Removing the item just added under a fresh id restores the list. */
  lemma RemoveUndoesAdd(fs: seq<FacilityItem>, item: FacilityItem)
    requires forall x :: x in fs ==> x.id != item.id
    ensures RemoveById(fs + [item], item.id) == fs
  {
    RemoveByIdAppend(fs, [item], item.id);
    RemoveByIdSpec(fs, item.id);
    assert [item][1..] == [];
  }

  /** The page's state: the form, the marker, the dialog's choices and the toasts. */
  class CreateLocationPage {
    var form: LocationValues
    var marker: Position
    var isDialogOpen: bool
    var selectedFacility: string
    var selectedFacilityName: string
    var currentFacilityImage: string
    var notices: seq<Notice>
    var sent: seq<LocationValues>

    predicate MarkerSynced()
      reads this
    {
      form.latitude == marker.latitude && form.longitude == marker.longitude
    }

    constructor ()
      ensures form == DefaultValues && marker == DefaultPosition && MarkerSynced()
      ensures !isDialogOpen && selectedFacility == "" && selectedFacilityName == "" && currentFacilityImage == ""
      ensures notices == [] && sent == []
    {
      form := DefaultValues;
      marker := DefaultPosition;
      isDialogOpen := false;
      selectedFacility := "";
      selectedFacilityName := "";
      currentFacilityImage := "";
      notices := [];
      sent := [];
    }

    /** The dialog: choose a facility type and upload its photo. */
    method ChooseInDialog(facilityId: string, facilityName: string, image: string)
      modifies this
      ensures isDialogOpen && selectedFacility == facilityId && selectedFacilityName == facilityName
      ensures currentFacilityImage == image
      ensures form == old(form) && marker == old(marker) && notices == old(notices) && sent == old(sent)
    {
      isDialogOpen := true;
      selectedFacility := facilityId;
      selectedFacilityName := facilityName;
      currentFacilityImage := image;
    }

    /**
     * `addFacility`, with `freshId` the UUID it draws: without a type or a
     * photo only an error toast; otherwise exactly one item is appended (a type
     * already in the list is appended again), the choices are cleared and the
     * dialog closes.
     */
    method AddFacility(freshId: string)
      modifies this
      ensures (old(selectedFacility) == "" || old(currentFacilityImage) == "") ==>
                form == old(form) && notices == old(notices) + [Failure(MissingChoice)]
                && isDialogOpen == old(isDialogOpen) && selectedFacility == old(selectedFacility)
                && selectedFacilityName == old(selectedFacilityName) && currentFacilityImage == old(currentFacilityImage)
      ensures old(selectedFacility) != "" && old(currentFacilityImage) != "" ==>
                form == old(form).(facilities := old(form.facilities)
                          + [FacilityItem(freshId, old(selectedFacility), old(selectedFacilityName), old(currentFacilityImage))])
                && notices == old(notices) + [Success(Added)]
                && !isDialogOpen && selectedFacility == "" && selectedFacilityName == "" && currentFacilityImage == ""
      ensures sent == old(sent) && marker == old(marker)
      ensures old(MarkerSynced()) ==> MarkerSynced()
    {
      if selectedFacility == "" || currentFacilityImage == "" {
        notices := notices + [Failure(MissingChoice)];
        return;
      }
      var item := FacilityItem(freshId, selectedFacility, selectedFacilityName, currentFacilityImage);
      var current := form.facilities;
      form := form.(facilities := current + [item]);
      currentFacilityImage := "";
      selectedFacility := "";
      selectedFacilityName := "";
      isDialogOpen := false;
      notices := notices + [Success(Added)];
    }

    /** `removeFacility`: drop every item with the id, then a success toast. */
    method RemoveFacility(id: string)
      modifies this
      ensures form == old(form).(facilities := RemoveById(old(form.facilities), id))
      ensures notices == old(notices) + [Success(Removed)]
      ensures sent == old(sent) && marker == old(marker) && isDialogOpen == old(isDialogOpen)
      ensures selectedFacility == old(selectedFacility) && selectedFacilityName == old(selectedFacilityName)
      ensures currentFacilityImage == old(currentFacilityImage)
      ensures old(MarkerSynced()) ==> MarkerSynced()
    {
      var current := form.facilities;
      form := form.(facilities := RemoveById(current, id));
      notices := notices + [Success(Removed)];
    }

    method MoveMarker(p: Position)
      modifies this
      ensures marker == p && sent == old(sent)
      ensures form == old(form) && notices == old(notices) && isDialogOpen == old(isDialogOpen)
      ensures selectedFacility == old(selectedFacility) && selectedFacilityName == old(selectedFacilityName)
      ensures currentFacilityImage == old(currentFacilityImage)
    {
      marker := p;
    }

    /** The effect on [markerPosition]: copy the marker into the form. */
    method MarkerEffect()
      modifies this
      ensures MarkerSynced()
      ensures form == old(form).(latitude := marker.latitude, longitude := marker.longitude)
      ensures sent == old(sent) && marker == old(marker) && notices == old(notices) && isDialogOpen == old(isDialogOpen)
      ensures selectedFacility == old(selectedFacility) && selectedFacilityName == old(selectedFacilityName)
      ensures currentFacilityImage == old(currentFacilityImage)
    {
      form := form.(latitude := marker.latitude);
      form := form.(longitude := marker.longitude);
    }

    /** A submit: the schema blocks values that are too short; there is no sign-in check here. */
    method Submit()
      modifies this
      ensures LengthsValid(form.name, form.address, form.description) ==> sent == old(sent) + [form]
      ensures !LengthsValid(form.name, form.address, form.description) ==> sent == old(sent)
      ensures form == old(form) && marker == old(marker) && notices == old(notices)
      ensures isDialogOpen == old(isDialogOpen) && selectedFacility == old(selectedFacility)
      ensures selectedFacilityName == old(selectedFacilityName) && currentFacilityImage == old(currentFacilityImage)
    {
      if SchemaErrors(form.name, form.address, form.description) == [] {
        sent := sent + [form];
      }
    }
  }

  /**
   * Adding the same facility type twice keeps two items of that type, and
   * removing one of them by its id leaves the other in place.
   */
  lemma RepeatedTypeIsKept(fs: seq<FacilityItem>, a: FacilityItem, b: FacilityItem)
    requires a.facilityId == b.facilityId && a.id != b.id
    requires forall x :: x in fs ==> x.id != a.id
    ensures var r := fs + [a] + [b];
            |r| == |fs| + 2 && r[|fs|].facilityId == r[|fs| + 1].facilityId
            && RemoveById(r, a.id) == fs + [b]
  {
    var r := fs + [a] + [b];
    assert r == fs + [a, b];
    RemoveByIdAppend(fs, [a, b], a.id);
    RemoveByIdSpec(fs, a.id);
    assert [a, b][1..] == [b];
    assert [b][1..] == [];
    assert RemoveById([b], a.id) == [b] + RemoveById([], a.id);
    assert RemoveById([a, b], a.id) == [] + RemoveById([b], a.id);
  }
}
