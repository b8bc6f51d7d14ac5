/**
 * The result list of the map page (app/maps/__components/places.tsx): the page
 * count, the zero-based current page kept in step with the URL's `page`, page
 * clicks that rewrite the URL, card clicks that hand coordinates to the map
 * store, and what each card shows.
 */
module Places {
  import opened Common
  import opened UrlSearchParams
  import opened JsNumber
  import opened Records
  import opened MapStore
  import MapsPage

  /** `Math.ceil(totalItems / itemsPerPage)` on integers. */
  function PageCount(totalItems: int, itemsPerPage: int): int
    requires itemsPerPage > 0
  {
    -((-totalItems) / itemsPerPage)
  }

  /** The page count is the ceiling: the fewest pages of the given size that hold every item. */
  lemma PageCountIsCeiling(totalItems: int, itemsPerPage: int)
    requires itemsPerPage > 0
    ensures (PageCount(totalItems, itemsPerPage) - 1) * itemsPerPage < totalItems
    ensures totalItems <= PageCount(totalItems, itemsPerPage) * itemsPerPage
    ensures totalItems >= 0 ==> PageCount(totalItems, itemsPerPage) >= 0
  {
    var q := (-totalItems) / itemsPerPage;
    var r := (-totalItems) % itemsPerPage;
    assert -totalItems == q * itemsPerPage + r && 0 <= r < itemsPerPage;
    assert (-q) * itemsPerPage == -(q * itemsPerPage);
    assert (-q - 1) * itemsPerPage == -(q * itemsPerPage) - itemsPerPage;
    assert q >= 1 ==> q * itemsPerPage >= itemsPerPage;
  }

  /**
   * The zero-based page the list shows for a URL: `parseInt(page) - 1` (no
   * radix) when `page` is present and non-empty, 0 otherwise; None is NaN.
   */
  function CurrentPageFrom(p: Params): Option<int>
  {
    var s := GetParam(p, "page");
    if Truthy(s) then
      match ParseInt(s.value, false)
      case None => None
      case Some(n) => Some(n - 1)
    else Some(0)
  }

  /** The URL a click on page `selected` pushes: `page` set to selected + 1, the rest kept. */
  function PageClickParams(p: Params, selected: int): Params
  {
    SetParam(p, "page", NumberToString(Some(selected + 1)))
  }

  /**
   * A pushed page survives the next resync: the list reads back `selected`, and
   * the page's query asks for the one-based page selected + 1; every other
   * parameter answers as before.
   */
  lemma PageClickReadsBack(p: Params, selected: int, other: string)
    ensures CurrentPageFrom(PageClickParams(p, selected)) == Some(selected)
    ensures MapsPage.DecodeQuery(PageClickParams(p, selected)).page == Some(selected + 1)
    ensures other != "page" ==> GetParam(PageClickParams(p, selected), other) == GetParam(p, other)
  {
    var s := NumberToString(Some(selected + 1));
    SetThenGet(p, "page", s);
    if other != "page" {
      SetKeepsOthers(p, "page", s, other);
    }
    ParseIntRoundTrip(selected + 1, false);
    ParseIntRoundTrip(selected + 1, true);
    assert s != "" by {
      if selected + 1 >= 0 {
        assert |NatToString(selected + 1)| >= 1;
      }
    }
  }

  /**
   * The list and the page read `page` differently: the list's `parseInt`
   * without a radix takes "0x2" as hexadecimal 2 and shows the second page,
   * while the page's `parseInt(page, 10)` stops at the "x" and asks for page 0.
   */
  lemma HexPageReadsDiffer(p: Params)
    requires GetParam(p, "page") == Some("0x2")
    ensures CurrentPageFrom(p) == Some(1)
    ensures MapsPage.DecodeQuery(p).page == Some(0)
  {
    HexWithoutRadix();
    HexWithRadix10();
  }

  /** Without a radix, "0x2" is hexadecimal 2. */
  lemma HexWithoutRadix()
    ensures ParseInt("0x2", false) == Some(2)
  {
    var s := "0x2";
    ParseIntNoSpace(s, false);
    assert Unsigned(s) == s && !IsNegative(s);
    assert s[2..] == "2";
    assert DigitRun("2", 16) == 1 by {
      assert IsDigitIn('2', 16);
    }
    assert "2"[..1] == "2";
    assert DigitsValue("2", 16) == 2 by {
      assert "2"[..0] == "";
    }
  }

  /** With radix 10, "0x2" stops at the "x" and reads as 0. */
  lemma HexWithRadix10()
    ensures ParseInt("0x2", true) == Some(0)
  {
    var s := "0x2";
    ParseIntNoSpace(s, true);
    assert Unsigned(s) == s && !IsNegative(s);
    assert DigitRun(s, 10) == 1 by {
      assert IsDigitIn('0', 10) && !IsDigitIn('x', 10);
      assert s[1..] == "x2";
    }
    assert s[..1] == "0";
    assert DigitsValue("0", 10) == 0 by {
      assert "0"[..0] == "";
    }
  }

  const MissingCoordinates := "Koordinat lokasi tidak ditemukan!"

  /** What a card shows. */
  datatype Card = Card(title: string, highlighted: bool, addressLines: seq<string>, detailLink: Option<string>)

  /**
   * A card: the name cut to 20 characters, highlighted iff it is the active
   * card, the address cut per screen width (100, 70, 150, 80 and 140), and a
   * link to `/maps/{id}` only outside the submissions list.
   */
  function CardOf(place: Place, activeCardId: Option<int>, isSubmission: bool): (c: Card)
    ensures c.highlighted <==> activeCardId == Some(place.id)
    ensures c.detailLink.Some? <==> !isSubmission
    ensures c.detailLink.Some? ==> c.detailLink.value == "/maps/" + NumberToString(Some(place.id))
    ensures |place.name| <= 20 ==> c.title == place.name
    ensures |place.name| > 20 ==> |c.title| == 23 && c.title[..20] == place.name[..20] && c.title[20..] == "..."
    ensures |c.addressLines| == 5
  {
    TruncateShape(place.name, 20);
    Card(
      Truncate(place.name, 20),
      activeCardId == Some(place.id),
      [Truncate(place.address, 100), Truncate(place.address, 70), Truncate(place.address, 150),
       Truncate(place.address, 80), Truncate(place.address, 140)],
      if isSubmission then None else Some("/maps/" + NumberToString(Some(place.id))))
  }

  /** The list's state, and the store it shares with the map. */
  class PlacesView {
    var searchParams: Params
    var currentPage: Option<int>
    var activeCardId: Option<int>
    var pushed: seq<Params>
    var notices: seq<string>
    const store: Store

    /** First render: the current page is read from the URL; no card is active. */
    constructor (url: Params, s: Store)
      ensures searchParams == url && currentPage == CurrentPageFrom(url)
      ensures activeCardId == None && pushed == [] && notices == [] && store == s
    {
      searchParams := url;
      currentPage := CurrentPageFrom(url);
      activeCardId := None;
      pushed := [];
      notices := [];
      store := s;
    }

    /** The router delivers a new URL (after a push, or any other navigation). */
    method UrlChanged(url: Params)
      modifies this
      ensures searchParams == url
      ensures currentPage == old(currentPage) && activeCardId == old(activeCardId)
      ensures pushed == old(pushed) && notices == old(notices)
    {
      searchParams := url;
    }

    /** The effect run on every URL or page change: adopt the URL's page when it differs. */
    method ResyncPage()
      modifies this
      ensures currentPage == CurrentPageFrom(searchParams)
      ensures searchParams == old(searchParams) && activeCardId == old(activeCardId)
      ensures pushed == old(pushed) && notices == old(notices)
    {
      var pageNumber := CurrentPageFrom(searchParams);
      if pageNumber != currentPage {
        currentPage := pageNumber;
      }
    }

    /**
     * `handlePageClick`: a click on the page already shown does nothing; any
     * other click pushes the URL with `page` = selected + 1 and shows `selected`.
     */
    method HandlePageClick(selected: nat)
      modifies this
      ensures old(currentPage) == Some(selected) ==>
                currentPage == old(currentPage) && pushed == old(pushed)
      ensures old(currentPage) != Some(selected) ==>
                currentPage == Some(selected) && pushed == old(pushed) + [PageClickParams(old(searchParams), selected)]
      ensures searchParams == old(searchParams) && activeCardId == old(activeCardId) && notices == old(notices)
    {
      var newPage := selected + 1;
      if currentPage.Some? && newPage == currentPage.value + 1 {
        return;
      }
      var params := new SearchParams(searchParams);
      params.Set("page", NumberToString(Some(newPage)));
      pushed := pushed + [params.list];
      currentPage := Some(selected);
    }

    /**
     * `handlePlaceClick`: with both coordinates falsy only a notice is shown;
     * otherwise (one non-zero coordinate is enough) the store receives them
     * and the card becomes the active one.
     */
    method HandlePlaceClick(id: int, latitude: Num, longitude: Num)
      modifies this, store
      ensures !TruthyNum(latitude) && !TruthyNum(longitude) ==>
                notices == old(notices) + [MissingCoordinates] && activeCardId == old(activeCardId)
                && store.destinationLat == old(store.destinationLat)
                && store.destinationLong == old(store.destinationLong)
      ensures TruthyNum(latitude) || TruthyNum(longitude) ==>
                notices == old(notices) && activeCardId == Some(id)
                && store.destinationLat == latitude && store.destinationLong == longitude
      ensures searchParams == old(searchParams) && currentPage == old(currentPage) && pushed == old(pushed)
    {
      if !TruthyNum(latitude) && !TruthyNum(longitude) {
        notices := notices + [MissingCoordinates];
        return;
      }
      store.SetDestinationCoordinates(latitude, longitude);
      activeCardId := Some(id);
    }
  }
}
