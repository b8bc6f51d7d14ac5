/**
 * The public submission form (app/maps/submissions/page.tsx): a list of chosen
 * facility ids kept free of duplicates, removal by position, a marker whose
 * position the form copies, and a submit that needs a signed-in user.
 */
module SubmissionForm {
  import opened Common
  import opened FormRules

  /** The form's values; `facilities` holds facility ids. */
  datatype SubmissionValues = SubmissionValues(
    name: string, address: string, description: string, image: string, tagId: string,
    facilities: seq<string>, latitude: real, longitude: real)

  /** What is sent: the form's values and the signed-in user's id. */
  datatype Submission = Submission(values: SubmissionValues, userId: string)

  const DefaultValues := SubmissionValues("", "", "", "", "", [], DefaultPosition.latitude, DefaultPosition.longitude)

  const SignInRedirect := "/sign-in?redirect_url=/maps/submissions"
  const AfterSuccess := "/maps"

  predicate Distinct(s: seq<string>)
  {
    forall i, j :: 0 <= i < j < |s| ==> s[i] != s[j]
  }

  /** `addFacility`: append the id unless it is already chosen. */
  function AddFacility(fs: seq<string>, id: string): seq<string>
  {
    if id in fs then fs else fs + [id]
  }

  /**
   * Adding keeps the list free of duplicates, always leaves the id chosen,
   * changes nothing when it already was, and otherwise appends it at the end.
   */
  lemma AddFacilityKeepsDistinct(fs: seq<string>, id: string)
    requires Distinct(fs)
    ensures Distinct(AddFacility(fs, id))
    ensures id in AddFacility(fs, id)
    ensures id in fs ==> AddFacility(fs, id) == fs
    ensures id !in fs ==> AddFacility(fs, id) == fs + [id]
    ensures forall x :: x in AddFacility(fs, id) <==> x in fs || x == id
  {
  }

  /** `facilities.filter((_, i) => i !== index)`, walking the list with the index counting down. */
  function RemoveAt(fs: seq<string>, index: int): seq<string>
  {
    if fs == [] then []
    else (if index == 0 then [] else [fs[0]]) + RemoveAt(fs[1..], index - 1)
  }

  /** Removal drops exactly the element at `index` and keeps the rest in order; an index out of range changes nothing. */
  lemma {:induction false} RemoveAtSpec(fs: seq<string>, index: int)
    ensures 0 <= index < |fs| ==> RemoveAt(fs, index) == fs[..index] + fs[index + 1..]
    ensures !(0 <= index < |fs|) ==> RemoveAt(fs, index) == fs
    decreases |fs|
  {
    if fs != [] {
      RemoveAtSpec(fs[1..], index - 1);
      if index == 0 {
        assert fs[1..] == fs[..0] + fs[1..];
      } else if 0 < index < |fs| {
        assert fs[..index] == [fs[0]] + fs[1..][..index - 1];
        assert fs[index + 1..] == fs[1..][index..];
      }
    }
  }

  /** Removing the id just added restores the list. */
  lemma RemoveAtUndoesAdd(fs: seq<string>, id: string)
    requires id !in fs
    ensures RemoveAt(AddFacility(fs, id), |fs|) == fs
  {
    RemoveAtSpec(fs + [id], |fs|);
    assert (fs + [id])[..|fs|] == fs;
  }

  /** Removal at any index keeps a list free of duplicates. */
  lemma RemoveAtKeepsDistinct(fs: seq<string>, index: int)
    requires Distinct(fs)
    ensures Distinct(RemoveAt(fs, index))
  {
    RemoveAtSpec(fs, index);
    if 0 <= index < |fs| {
      var r := RemoveAt(fs, index);
      forall i, j | 0 <= i < j < |r| ensures r[i] != r[j] {
        var i' := if i < index then i else i + 1;
        var j' := if j < index then j else j + 1;
        assert r[i] == fs[i'] && r[j] == fs[j'] && i' < j';
      }
    }
  }

  /** The page's state: the form, the marker, and what it sent or navigated to. */
  class SubmissionPage {
    var form: SubmissionValues
    var marker: Position
    var sent: seq<Submission>
    var navigations: seq<string>

    /** The form follows the marker (after the marker effect has run). */
    predicate MarkerSynced()
      reads this
    {
      form.latitude == marker.latitude && form.longitude == marker.longitude
    }

    constructor ()
      ensures form == DefaultValues && marker == DefaultPosition
      ensures sent == [] && navigations == []
      ensures MarkerSynced()
    {
      form := DefaultValues;
      marker := DefaultPosition;
      sent := [];
      navigations := [];
    }

    method EditText(name: string, address: string, description: string, image: string, tagId: string)
      modifies this
      ensures form == old(form).(name := name, address := address, description := description, image := image, tagId := tagId)
      ensures marker == old(marker) && sent == old(sent) && navigations == old(navigations)
      ensures old(MarkerSynced()) ==> MarkerSynced()
    {
      form := form.(name := name, address := address, description := description, image := image, tagId := tagId);
    }

    method AddFacilityId(id: string)
      modifies this
      ensures form == old(form).(facilities := AddFacility(old(form.facilities), id))
      ensures Distinct(old(form.facilities)) ==> Distinct(form.facilities)
      ensures marker == old(marker) && sent == old(sent) && navigations == old(navigations)
      ensures old(MarkerSynced()) ==> MarkerSynced()
    {
      if id !in form.facilities {
        form := form.(facilities := form.facilities + [id]);
      }
      if Distinct(old(form.facilities)) {
        AddFacilityKeepsDistinct(old(form.facilities), id);
      }
    }

    method RemoveFacility(index: int)
      modifies this
      ensures form == old(form).(facilities := RemoveAt(old(form.facilities), index))
      ensures Distinct(old(form.facilities)) ==> Distinct(form.facilities)
      ensures marker == old(marker) && sent == old(sent) && navigations == old(navigations)
      ensures old(MarkerSynced()) ==> MarkerSynced()
    {
      form := form.(facilities := RemoveAt(form.facilities, index));
      if Distinct(old(form.facilities)) {
        RemoveAtKeepsDistinct(old(form.facilities), index);
      }
    }

    /** A click on the map or the end of a marker drag. */
    method MoveMarker(p: Position)
      modifies this
      ensures marker == p
      ensures form == old(form) && sent == old(sent) && navigations == old(navigations)
    {
      marker := p;
    }

    /** The effect on [markerPosition]: copy the marker into the form. */
    method MarkerEffect()
      modifies this
      ensures MarkerSynced()
      ensures form == old(form).(latitude := marker.latitude, longitude := marker.longitude)
      ensures marker == old(marker) && sent == old(sent) && navigations == old(navigations)
    {
      form := form.(latitude := marker.latitude);
      form := form.(longitude := marker.longitude);
    }

    /**
     * A submit: the schema blocks values that are too short; a signed-out user
     * (`user` None) is sent to sign in and nothing is sent; otherwise the
     * values go out with the user's id.
     */
    method Submit(user: Option<string>)
      modifies this
      ensures !LengthsValid(old(form.name), old(form.address), old(form.description)) ==>
                sent == old(sent) && navigations == old(navigations)
      ensures LengthsValid(old(form.name), old(form.address), old(form.description)) && user.None? ==>
                sent == old(sent) && navigations == old(navigations) + [SignInRedirect]
      ensures LengthsValid(old(form.name), old(form.address), old(form.description)) && user.Some? ==>
                sent == old(sent) + [Submission(old(form), user.value)] && navigations == old(navigations)
      ensures form == old(form) && marker == old(marker)
    {
      if SchemaErrors(form.name, form.address, form.description) != [] {
        return;
      }
      if user.None? {
        navigations := navigations + [SignInRedirect];
        return;
      }
      sent := sent + [Submission(form, user.value)];
    }

    /**
     * The mutation's success: the form returns to its defaults and the page
     * navigates to the map. The marker is not reset, so the form's coordinates
     * no longer follow it; the page is left at once.
     */
    method SubmitSucceeded()
      modifies this
      ensures form == DefaultValues && navigations == old(navigations) + [AfterSuccess]
      ensures marker == old(marker) && sent == old(sent)
    {
      form := DefaultValues;
      navigations := navigations + [AfterSuccess];
    }
  }
}
