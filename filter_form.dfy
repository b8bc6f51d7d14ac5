/**
 * The desktop search form of the map page (app/maps/__components/filter-form.tsx):
 * it reads its defaults from the URL, and on submit rewrites the URL's `name`,
 * `facilities`, `tag`, `sort_asc` and `page` parameters, keeping every other one.
 */
module FilterForm {
  import opened Common
  import opened UrlSearchParams

  /** The form's three fields; each may be left undefined. */
  datatype SearchValues = SearchValues(place: Option<string>, facilityType: Option<string>, tag: Option<string>)

  /** The parameter names the form writes; all others belong to someone else. */
  const Owned: set<string> := {"name", "facilities", "tag", "sort_asc", "page"}

  /** The values a freshly reset form holds. */
  const ResetValues: SearchValues := SearchValues(Some(""), Some("all"), Some("all"))

  /** Form defaults read from the URL: a missing or empty parameter gives "", "all", "all". */
  function DecodeDefaults(p: Params): (v: SearchValues)
    ensures v.place.Some? && v.facilityType.Some? && v.tag.Some?
    ensures v.facilityType.value != "" && v.tag.value != ""
    ensures Truthy(GetParam(p, "name")) ==> v.place == GetParam(p, "name")
    ensures !Truthy(GetParam(p, "name")) ==> v.place == Some("")
    ensures Truthy(GetParam(p, "facilities")) ==> v.facilityType == GetParam(p, "facilities")
    ensures !Truthy(GetParam(p, "facilities")) ==> v.facilityType == Some("all")
    ensures Truthy(GetParam(p, "tag")) ==> v.tag == GetParam(p, "tag")
    ensures !Truthy(GetParam(p, "tag")) ==> v.tag == Some("all")
  {
    SearchValues(
      Some(OrDefault(GetParam(p, "name"), "")),
      Some(OrDefault(GetParam(p, "facilities"), "all")),
      Some(OrDefault(GetParam(p, "tag"), "all")))
  }

  /** What a submitted form reads back as: each field with its default filled in. */
  function Normalized(v: SearchValues): SearchValues
  {
    SearchValues(
      Some(OrDefault(v.place, "")),
      Some(OrDefault(v.facilityType, "all")),
      Some(OrDefault(v.tag, "all")))
  }

  /** The value written for `name`; None means the parameter is deleted. */
  function NameParam(place: Option<string>): Option<string>
  {
    if Truthy(place) then place else None
  }

  /** The value written for `facilities` or `tag`: only a real choice, never "all". */
  function ChoiceParam(choice: Option<string>): Option<string>
  {
    if Truthy(choice) && choice.value != "all" then choice else None
  }

  function SortParam(ascending: bool): Option<string>
  {
    if ascending then Some("true") else None
  }

  /** The parameters `handleSearchSubmit` pushes, starting from the current ones. */
  function SubmitParams(p: Params, v: SearchValues, ascending: bool): Params
  {
    var p1 := WriteParam(p, "name", NameParam(v.place));
    var p2 := WriteParam(p1, "facilities", ChoiceParam(v.facilityType));
    var p3 := WriteParam(p2, "tag", ChoiceParam(v.tag));
    var p4 := WriteParam(p3, "sort_asc", SortParam(ascending));
    SetParam(p4, "page", "1")
  }

  /** The parameters `resetFilters` pushes: a fresh object holding only page=1. */
  function ResetParams(): Params
  {
    SetParam([], "page", "1")
  }

  // ----- what a submit does to the URL --------------------------------------

  /**
   * After a submit: `name` is the place when non-empty and absent otherwise,
   * `facilities` and `tag` hold a real choice or are absent, `sort_asc` is "true"
   * exactly when ascending, and `page` is "1" whatever it was before.
   */
  lemma SubmitWrites(p: Params, v: SearchValues, ascending: bool)
    ensures GetParam(SubmitParams(p, v, ascending), "name") == NameParam(v.place)
    ensures GetParam(SubmitParams(p, v, ascending), "facilities") == ChoiceParam(v.facilityType)
    ensures GetParam(SubmitParams(p, v, ascending), "tag") == ChoiceParam(v.tag)
    ensures GetParam(SubmitParams(p, v, ascending), "sort_asc") == SortParam(ascending)
    ensures GetParam(SubmitParams(p, v, ascending), "page") == Some("1")
  {
    var p1 := WriteParam(p, "name", NameParam(v.place));
    var p2 := WriteParam(p1, "facilities", ChoiceParam(v.facilityType));
    var p3 := WriteParam(p2, "tag", ChoiceParam(v.tag));
    var p4 := WriteParam(p3, "sort_asc", SortParam(ascending));
    WriteParamFacts(p, "name", NameParam(v.place), "page", {});
    WriteParamFacts(p1, "facilities", ChoiceParam(v.facilityType), "name", {});
    WriteParamFacts(p2, "tag", ChoiceParam(v.tag), "name", {});
    WriteParamFacts(p2, "tag", ChoiceParam(v.tag), "facilities", {});
    WriteParamFacts(p3, "sort_asc", SortParam(ascending), "name", {});
    WriteParamFacts(p3, "sort_asc", SortParam(ascending), "facilities", {});
    WriteParamFacts(p3, "sort_asc", SortParam(ascending), "tag", {});
    SetThenGet(p4, "page", "1");
    SetKeepsOthers(p4, "page", "1", "name");
    SetKeepsOthers(p4, "page", "1", "facilities");
    SetKeepsOthers(p4, "page", "1", "tag");
    SetKeepsOthers(p4, "page", "1", "sort_asc");
  }

  /** No pair named `facilities` or `tag` in the pushed URL is "all" or empty. */
  lemma SubmitNeverWritesAll(p: Params, v: SearchValues, ascending: bool)
    ensures forall e :: e in SubmitParams(p, v, ascending) && (e.0 == "facilities" || e.0 == "tag") ==>
              e.1 != "all" && e.1 != ""
  {
    var p1 := WriteParam(p, "name", NameParam(v.place));
    var p2 := WriteParam(p1, "facilities", ChoiceParam(v.facilityType));
    var p3 := WriteParam(p2, "tag", ChoiceParam(v.tag));
    var p4 := WriteParam(p3, "sort_asc", SortParam(ascending));
    var f := ChoiceParam(v.facilityType);
    var t := ChoiceParam(v.tag);
    WriteOnlyValue(p1, "facilities", f);
    WriteKeepsOnlyValue(p2, "tag", t, "facilities", f);
    WriteKeepsOnlyValue(p3, "sort_asc", SortParam(ascending), "facilities", f);
    WriteKeepsOnlyValue(p4, "page", Some("1"), "facilities", f);
    WriteOnlyValue(p2, "tag", t);
    WriteKeepsOnlyValue(p3, "sort_asc", SortParam(ascending), "tag", t);
    WriteKeepsOnlyValue(p4, "page", Some("1"), "tag", t);
    assert SubmitParams(p, v, ascending) == WriteParam(p4, "page", Some("1"));
  }

  /** Every pair whose name the form does not own survives a submit, in order. */
  lemma SubmitKeepsForeignPairs(p: Params, v: SearchValues, ascending: bool)
    ensures Drop(SubmitParams(p, v, ascending), Owned) == Drop(p, Owned)
  {
    var p1 := WriteParam(p, "name", NameParam(v.place));
    var p2 := WriteParam(p1, "facilities", ChoiceParam(v.facilityType));
    var p3 := WriteParam(p2, "tag", ChoiceParam(v.tag));
    var p4 := WriteParam(p3, "sort_asc", SortParam(ascending));
    WriteParamFacts(p, "name", NameParam(v.place), "", Owned);
    WriteParamFacts(p1, "facilities", ChoiceParam(v.facilityType), "", Owned);
    WriteParamFacts(p2, "tag", ChoiceParam(v.tag), "", Owned);
    WriteParamFacts(p3, "sort_asc", SortParam(ascending), "", Owned);
    SetKeepsForeignPairs(p4, "page", "1", Owned);
  }

  /**
   * Reading the pushed URL back gives the submitted values with the defaults
   * filled in: a non-empty choice comes back as itself, "" or "all" as "all".
   */
  lemma SubmitRoundTrip(p: Params, v: SearchValues, ascending: bool)
    ensures DecodeDefaults(SubmitParams(p, v, ascending)) == Normalized(v)
  {
    SubmitWrites(p, v, ascending);
  }

  /** The `sort_asc` effect, run on the pushed URL, re-derives the same order. */
  lemma SubmitKeepsSortOrder(p: Params, v: SearchValues, ascending: bool)
    ensures (GetParam(SubmitParams(p, v, ascending), "sort_asc") == Some("true")) == ascending
  {
    SubmitWrites(p, v, ascending);
  }

  /** A reset URL holds exactly page=1, reads back as the reset form, and is not ascending. */
  lemma ResetIsConsistent()
    ensures ResetParams() == [("page", "1")]
    ensures DecodeDefaults(ResetParams()) == ResetValues
    ensures GetParam(ResetParams(), "sort_asc") != Some("true")
  {
    assert !HasKey([], "page");
  }

  /** The component's state: the URL it sees, its form and its three flags. */
  class FilterFormState {
    var searchParams: Params
    var form: SearchValues
    var isAscending: bool
    var isSubmitting: bool
    var isFilterDialogOpen: bool

    /** First render: the form takes its defaults from the URL; every flag is off. */
    constructor (url: Params)
      ensures searchParams == url && form == DecodeDefaults(url)
      ensures !isAscending && !isSubmitting && !isFilterDialogOpen
    {
      searchParams := url;
      form := DecodeDefaults(url);
      isAscending := false;
      isSubmitting := false;
      isFilterDialogOpen := false;
    }

    /** The user edits the form. */
    method EditForm(v: SearchValues)
      modifies this
      ensures form == v
      ensures searchParams == old(searchParams) && isAscending == old(isAscending)
      ensures isSubmitting == old(isSubmitting) && isFilterDialogOpen == old(isFilterDialogOpen)
    {
      form := v;
    }

    method OpenDialog()
      modifies this
      ensures isFilterDialogOpen
      ensures searchParams == old(searchParams) && form == old(form)
      ensures isAscending == old(isAscending) && isSubmitting == old(isSubmitting)
    {
      isFilterDialogOpen := true;
    }

    /** `toggleSortOrder`. */
    method ToggleSortOrder()
      modifies this
      ensures isAscending == !old(isAscending)
      ensures searchParams == old(searchParams) && form == old(form)
      ensures isSubmitting == old(isSubmitting) && isFilterDialogOpen == old(isFilterDialogOpen)
    {
      isAscending := !isAscending;
    }

    /** The effect run whenever the URL changes: ascending iff `sort_asc` is "true". */
    method SyncSortOrder()
      modifies this
      ensures isAscending == (GetParam(searchParams, "sort_asc") == Some("true"))
      ensures searchParams == old(searchParams) && form == old(form)
      ensures isSubmitting == old(isSubmitting) && isFilterDialogOpen == old(isFilterDialogOpen)
    {
      var sp := new SearchParams(searchParams);
      var s := sp.Get("sort_asc");
      isAscending := s == Some("true");
    }

    /**
     * `handleSearchSubmit`: copy the current parameters, write the form's fields
     * one by one, set page=1, navigate to the result and close the dialog.
     */
    method HandleSearchSubmit()
      modifies this
      ensures searchParams == SubmitParams(old(searchParams), old(form), old(isAscending))
      ensures isSubmitting && !isFilterDialogOpen
      ensures form == old(form) && isAscending == old(isAscending)
    {
      isSubmitting := true;
      var params := new SearchParams(searchParams);
      var v := form;
      ghost var p1 := WriteParam(searchParams, "name", NameParam(v.place));
      ghost var p2 := WriteParam(p1, "facilities", ChoiceParam(v.facilityType));
      ghost var p3 := WriteParam(p2, "tag", ChoiceParam(v.tag));
      ghost var p4 := WriteParam(p3, "sort_asc", SortParam(isAscending));
      if Truthy(v.place) {
        params.Set("name", v.place.value);
      } else {
        params.Delete("name");
      }
      assert params.list == p1;
      if Truthy(v.facilityType) && v.facilityType.value != "all" {
        params.Set("facilities", v.facilityType.value);
      } else {
        params.Delete("facilities");
      }
      assert params.list == p2;
      if Truthy(v.tag) && v.tag.value != "all" {
        params.Set("tag", v.tag.value);
      } else {
        params.Delete("tag");
      }
      assert params.list == p3;
      if isAscending {
        params.Set("sort_asc", "true");
      } else {
        params.Delete("sort_asc");
      }
      assert params.list == p4;
      params.Set("page", "1");
      searchParams := params.list;
      isFilterDialogOpen := false;
    }

    /** The timer armed by a submit clears the submitting flag. */
    method SubmitTimerElapsed()
      modifies this
      ensures !isSubmitting
      ensures searchParams == old(searchParams) && form == old(form)
      ensures isAscending == old(isAscending) && isFilterDialogOpen == old(isFilterDialogOpen)
    {
      isSubmitting := false;
    }

    /** `resetFilters`: reset the form, turn ascending off, navigate to page=1 alone. */
    method ResetFilters()
      modifies this
      ensures form == ResetValues && !isAscending && !isFilterDialogOpen
      ensures searchParams == ResetParams()
      ensures isSubmitting == old(isSubmitting)
    {
      form := ResetValues;
      isAscending := false;
      var params := new SearchParams([]);
      params.Set("page", "1");
      searchParams := params.list;
      isFilterDialogOpen := false;
    }
  }
}
