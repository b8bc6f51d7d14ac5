/**
 * The mobile filter panel (app/maps/__components/filter-mobile.tsx). It reads
 * the same defaults as the desktop form, but writes an undefined choice as ""
 * instead of deleting it, never touches `sort_asc`, and keeps a tab of its own
 * ("lokasi" or "ajuan") that it pushes to the page.
 */
module FilterMobile {
  import opened Common
  import opened UrlSearchParams
  import opened FilterForm
  import MapsPage

  /** The parameter names the mobile form writes: `sort_asc` is not among them. */
  const MobileOwned: set<string> := {"name", "facilities", "tag", "page"}

  /** `v !== "all" ? set(v ? v : "") : delete`: only "all" deletes; undefined writes "". */
  function MobileChoiceParam(choice: Option<string>): Option<string>
  {
    if choice == Some("all") then None else Some(OrDefault(choice, ""))
  }

  /** The parameters `onSubmit` pushes, starting from the current ones. */
  function MobileSubmitParams(p: Params, v: SearchValues): Params
  {
    var p1 := WriteParam(p, "name", NameParam(v.place));
    var p2 := WriteParam(p1, "facilities", MobileChoiceParam(v.facilityType));
    var p3 := WriteParam(p2, "tag", MobileChoiceParam(v.tag));
    SetParam(p3, "page", "1")
  }

  /**
   * After a mobile submit: `name` as on desktop, `facilities` and `tag` present
   * unless the choice is "all" (an undefined choice arrives as ""), `page` "1",
   * and `sort_asc` answering exactly as before.
   */
  lemma MobileSubmitWrites(p: Params, v: SearchValues)
    ensures GetParam(MobileSubmitParams(p, v), "name") == NameParam(v.place)
    ensures GetParam(MobileSubmitParams(p, v), "facilities") == MobileChoiceParam(v.facilityType)
    ensures GetParam(MobileSubmitParams(p, v), "tag") == MobileChoiceParam(v.tag)
    ensures GetParam(MobileSubmitParams(p, v), "page") == Some("1")
    ensures GetParam(MobileSubmitParams(p, v), "sort_asc") == GetParam(p, "sort_asc")
  {
    var p1 := WriteParam(p, "name", NameParam(v.place));
    var p2 := WriteParam(p1, "facilities", MobileChoiceParam(v.facilityType));
    var p3 := WriteParam(p2, "tag", MobileChoiceParam(v.tag));
    WriteParamFacts(p, "name", NameParam(v.place), "sort_asc", {});
    WriteParamFacts(p1, "facilities", MobileChoiceParam(v.facilityType), "name", {});
    WriteParamFacts(p1, "facilities", MobileChoiceParam(v.facilityType), "sort_asc", {});
    WriteParamFacts(p2, "tag", MobileChoiceParam(v.tag), "name", {});
    WriteParamFacts(p2, "tag", MobileChoiceParam(v.tag), "facilities", {});
    WriteParamFacts(p2, "tag", MobileChoiceParam(v.tag), "sort_asc", {});
    SetThenGet(p3, "page", "1");
    SetKeepsOthers(p3, "page", "1", "name");
    SetKeepsOthers(p3, "page", "1", "facilities");
    SetKeepsOthers(p3, "page", "1", "tag");
    SetKeepsOthers(p3, "page", "1", "sort_asc");
  }

  /** Every pair the mobile form does not own, `sort_asc` included, survives in order. */
  lemma MobileKeepsForeignPairs(p: Params, v: SearchValues)
    ensures Drop(MobileSubmitParams(p, v), MobileOwned) == Drop(p, MobileOwned)
  {
    var p1 := WriteParam(p, "name", NameParam(v.place));
    var p2 := WriteParam(p1, "facilities", MobileChoiceParam(v.facilityType));
    var p3 := WriteParam(p2, "tag", MobileChoiceParam(v.tag));
    WriteParamFacts(p, "name", NameParam(v.place), "", MobileOwned);
    WriteParamFacts(p1, "facilities", MobileChoiceParam(v.facilityType), "", MobileOwned);
    WriteParamFacts(p2, "tag", MobileChoiceParam(v.tag), "", MobileOwned);
    SetKeepsForeignPairs(p3, "page", "1", MobileOwned);
  }

  /** Reading the pushed URL back gives the same form as on desktop: "" reads as "all". */
  lemma MobileRoundTrip(p: Params, v: SearchValues)
    ensures DecodeDefaults(MobileSubmitParams(p, v)) == Normalized(v)
  {
    MobileSubmitWrites(p, v);
  }

  /**
   * Where the two forms part: for an undefined facility the desktop URL has no
   * `facilities` while the mobile one has an empty one, and an ascending order
   * in the URL survives a mobile submit but not a descending desktop submit.
   */
  lemma MobileDiffersFromDesktop(p: Params, v: SearchValues)
    ensures v.facilityType.None? ==>
              GetParam(SubmitParams(p, v, false), "facilities") == None
              && GetParam(MobileSubmitParams(p, v), "facilities") == Some("")
    ensures GetParam(p, "sort_asc") == Some("true") ==>
              GetParam(MobileSubmitParams(p, v), "sort_asc") == Some("true")
              && GetParam(SubmitParams(p, v, false), "sort_asc") == None
  {
    MobileSubmitWrites(p, v);
    SubmitWrites(p, v, false);
  }

  /** The values of the panel's tab trigger. */
  const MobileTabs: seq<string> := ["lokasi", "ajuan"]

  /** The tab value the panel pushes to the page, as written: its own value unchanged. */
  function PushedTabAsWritten(tab: string): string
  {
    tab
  }

  /**
   * As written, neither panel tab is a tab value of the page, so whichever tab
   * is chosen the page shows the submissions query, and no list panel at all.
   */
  lemma PushedTabAlwaysShowsSubmissions(tab: string, loc: MapsPage.QueryState, pot: MapsPage.QueryState)
    requires tab in MobileTabs
    ensures MapsPage.ActiveQuery(PushedTabAsWritten(tab), loc, pot) == pot
    ensures !pot.isLoading ==> MapsPage.Render(PushedTabAsWritten(tab), loc, pot).listShown == None
  {
  }

  /** The evidently intended value: the page's tab named by the panel's tab. */
  function PageTab(tab: string): string
  {
    if tab == "lokasi" then "location" else "submission"
  }

  /** With the page's own values, "lokasi" shows locations and "ajuan" submissions. */
  lemma PageTabSelectsMatchingList(loc: MapsPage.QueryState, pot: MapsPage.QueryState)
    ensures MapsPage.ActiveQuery(PageTab("lokasi"), loc, pot) == loc
    ensures MapsPage.ActiveQuery(PageTab("ajuan"), loc, pot) == pot
    ensures !loc.isLoading ==> MapsPage.Render(PageTab("lokasi"), loc, pot).listShown == Some(false)
    ensures !pot.isLoading ==> MapsPage.Render(PageTab("ajuan"), loc, pot).listShown == Some(true)
  {
  }

  // ----- the Reset button ----------------------------------------------------

  /**
   * The Reset button has no `type`, so inside the form it is a submit button:
   * after `handleReset` the form is submitted with the reset values, against
   * the URL the panel saw when it was clicked. That submit deletes `name`,
   * `facilities` and `tag` and sets `page` to "1", but keeps `sort_asc` and
   * every pair the panel does not own.
   */
  lemma ResetClickKeepsSortOrder(p: Params)
    ensures var r := MobileSubmitParams(p, ResetValues);
            && GetParam(r, "name") == None && GetParam(r, "facilities") == None && GetParam(r, "tag") == None
            && GetParam(r, "page") == Some("1")
            && GetParam(r, "sort_asc") == GetParam(p, "sort_asc")
            && Drop(r, MobileOwned) == Drop(p, MobileOwned)
  {
    MobileSubmitWrites(p, ResetValues);
    MobileKeepsForeignPairs(p, ResetValues);
  }

  /** An ascending URL `?sort_asc=true`: the click keeps the order, which the bare page=1 the handler pushed drops. */
  lemma ResetClickExample()
    ensures GetParam(MobileSubmitParams([("sort_asc", "true")], ResetValues), "sort_asc") == Some("true")
    ensures GetParam(ResetParams(), "sort_asc") == None
  {
    ResetClickKeepsSortOrder([("sort_asc", "true")]);
    ResetIsConsistent();
  }

  /**
   * The evidently intended reset, what a `type="button"` Reset (as on the
   * desktop form) does: the handler alone, whose URL is exactly page=1, reads
   * back as the reset form and is not ascending, whatever the URL was.
   */
  lemma IntendedResetIsPageOne(p: Params)
    ensures ResetParams() == [("page", "1")]
    ensures DecodeDefaults(ResetParams()) == ResetValues
    ensures GetParam(ResetParams(), "sort_asc") == None
    ensures GetParam(p, "sort_asc") == Some("true") ==>
              GetParam(MobileSubmitParams(p, ResetValues), "sort_asc") != GetParam(ResetParams(), "sort_asc")
  {
    ResetIsConsistent();
    ResetClickKeepsSortOrder(p);
  }

  /**
   * The panel's state: the URL it sees, its form, its tab, the URLs it pushed
   * (in order, the last one the URL it sees next) and the calls it made upward.
   */
  class FilterMobileState {
    var searchParams: Params
    var form: SearchValues
    var tab: string
    var pushes: seq<Params>
    var pushedTab: Option<string>
    var closeRequests: nat

    /** Mounting: defaults from the URL, tab "lokasi", nothing pushed or closed yet. */
    constructor (url: Params)
      ensures searchParams == url && form == DecodeDefaults(url)
      ensures tab == "lokasi" && pushes == [] && pushedTab == None && closeRequests == 0
    {
      searchParams := url;
      form := DecodeDefaults(url);
      tab := "lokasi";
      pushes := [];
      pushedTab := None;
      closeRequests := 0;
    }

    method EditForm(v: SearchValues)
      modifies this
      ensures form == v
      ensures searchParams == old(searchParams) && tab == old(tab) && pushes == old(pushes)
      ensures pushedTab == old(pushedTab) && closeRequests == old(closeRequests)
    {
      form := v;
    }

    /** The tab trigger. */
    method SelectTab(value: string)
      modifies this
      ensures tab == value
      ensures searchParams == old(searchParams) && form == old(form) && pushes == old(pushes)
      ensures pushedTab == old(pushedTab) && closeRequests == old(closeRequests)
    {
      tab := value;
    }

    /** The effect run on mount and on every tab change: hand the tab to the page, mapped to its values. */
    method PushTabEffect()
      modifies this
      ensures pushedTab == Some(PageTab(tab))
      ensures searchParams == old(searchParams) && form == old(form) && pushes == old(pushes)
      ensures tab == old(tab) && closeRequests == old(closeRequests)
    {
      pushedTab := Some(PageTab(tab));
    }

    /**
     * `onSubmit` with the form's values, against `seen`, the URL of the render
     * whose handler runs: write the three fields step by step, set page=1,
     * navigate, then close the panel.
     */
    method SubmitFrom(seen: Params)
      modifies this
      ensures searchParams == MobileSubmitParams(seen, old(form))
      ensures pushes == old(pushes) + [MobileSubmitParams(seen, old(form))]
      ensures closeRequests == old(closeRequests) + 1
      ensures form == old(form) && tab == old(tab) && pushedTab == old(pushedTab)
    {
      var params := new SearchParams(seen);
      var v := form;
      ghost var p1 := WriteParam(seen, "name", NameParam(v.place));
      ghost var p2 := WriteParam(p1, "facilities", MobileChoiceParam(v.facilityType));
      if Truthy(v.place) {
        params.Set("name", v.place.value);
      } else {
        params.Delete("name");
      }
      assert params.list == p1;
      if v.facilityType != Some("all") {
        params.Set("facilities", if Truthy(v.facilityType) then v.facilityType.value else "");
      } else {
        params.Delete("facilities");
      }
      assert params.list == p2;
      if v.tag != Some("all") {
        params.Set("tag", if Truthy(v.tag) then v.tag.value else "");
      } else {
        params.Delete("tag");
      }
      assert params.list == WriteParam(p2, "tag", MobileChoiceParam(v.tag));
      params.Set("page", "1");
      searchParams := params.list;
      pushes := pushes + [searchParams];
      closeRequests := closeRequests + 1;
    }

    /** The Terapkan (submit) button: `onSubmit` against the URL the panel sees. */
    method OnSubmit()
      modifies this
      ensures searchParams == MobileSubmitParams(old(searchParams), old(form))
      ensures pushes == old(pushes) + [searchParams]
      ensures closeRequests == old(closeRequests) + 1
      ensures form == old(form) && tab == old(tab) && pushedTab == old(pushedTab)
    {
      SubmitFrom(searchParams);
    }

    /** `handleReset` alone: reset the form and navigate to page=1 alone. */
    method HandleReset()
      modifies this
      ensures form == ResetValues && searchParams == ResetParams()
      ensures pushes == old(pushes) + [ResetParams()]
      ensures tab == old(tab) && pushedTab == old(pushedTab) && closeRequests == old(closeRequests)
    {
      form := ResetValues;
      var params := new SearchParams([]);
      params.Set("page", "1");
      searchParams := params.list;
      pushes := pushes + [searchParams];
    }

    /**
     * A click on the Reset button as written: `handleReset`, then the submit
     * the type-less button triggers, whose handler still sees the URL of the
     * click. Two URLs are pushed, the second one wins, and the panel closes.
     */
    method ResetClick()
      modifies this
      ensures form == ResetValues
      ensures pushes == old(pushes) + [ResetParams(), MobileSubmitParams(old(searchParams), ResetValues)]
      ensures searchParams == MobileSubmitParams(old(searchParams), ResetValues)
      ensures closeRequests == old(closeRequests) + 1
      ensures tab == old(tab) && pushedTab == old(pushedTab)
    {
      var seen := searchParams;
      HandleReset();
      SubmitFrom(seen);
    }
  }
}
