/**
 * The request side of the place queries (queries/placeQuery.ts): the backend
 * URLs, the cache keys, the `enabled` predicates and what a non-OK response
 * becomes. The request text is read back with the query-string splitting rule
 * of the WHATWG URL Standard (section 5.1, application/x-www-form-urlencoded
 * parsing) to state what the backend receives.
 */
module PlaceQuery {
  import opened Common
  import opened UrlSearchParams
  import opened JsNumber

  /** The optional query object the hooks take; each field may be null or undefined. */
  datatype QueryArg = QueryArg(name: Option<string>, facilities: Option<string>, sortAsc: Option<string>, tag: Option<string>)

  /** `query?.field ?? ""` for each field: a missing object reads as all-missing. */
  function Arg(q: Option<QueryArg>): QueryArg
  {
    if q.Some? then q.value else QueryArg(None, None, None, None)
  }

  /** The locations list request (`useLocations`). */
  function LocationsUrl(api: string, page: Option<int>, q: Option<QueryArg>): string
  {
    var a := Arg(q);
    api + "/api/locations?page=" + NumberToString(page)
    + "&name=" + Nullish(a.name, "")
    + "&facilities=" + Nullish(a.facilities, "")
    + "&sort_asc=" + Nullish(a.sortAsc, "")
    + "&tag=" + Nullish(a.tag, "")
  }

  /** The submissions list request (`usePotentials`): `status=true` twice, no `tag`. */
  function PotentialsUrl(api: string, page: Option<int>, q: Option<QueryArg>): string
  {
    var a := Arg(q);
    api + "/api/submissions?page=" + NumberToString(page)
    + "&status=" + "true" + "&name=" + Nullish(a.name, "")
    + "&status=" + "true" + "&facilities=" + Nullish(a.facilities, "")
    + "&sort_asc=" + Nullish(a.sortAsc, "")
  }

  /** The pairs the locations request carries, in order. */
  function LocationsPairs(page: Option<int>, q: Option<QueryArg>): Params
  {
    var a := Arg(q);
    [("page", NumberToString(page)), ("name", Nullish(a.name, "")), ("facilities", Nullish(a.facilities, "")),
     ("sort_asc", Nullish(a.sortAsc, "")), ("tag", Nullish(a.tag, ""))]
  }

  /** The pairs the submissions request carries, in order. */
  function PotentialsPairs(page: Option<int>, q: Option<QueryArg>): Params
  {
    var a := Arg(q);
    [("page", NumberToString(page)), ("status", "true"), ("name", Nullish(a.name, "")), ("status", "true"),
     ("facilities", Nullish(a.facilities, "")), ("sort_asc", Nullish(a.sortAsc, ""))]
  }

  // ----- reading a query string back ------------------------------------------

  /** `s.split(c)`: the pieces between separators, at least one. */
  function Split(s: string, c: char): (r: seq<string>)
    ensures |r| >= 1
  {
    if s == [] then [""]
    else
      var rest := Split(s[1..], c);
      if s[0] == c then [""] + rest else [[s[0]] + rest[0]] + rest[1..]
  }

  /** One `name=value` piece: the name ends at the first '='; no '=' means an empty value. */
  function Pair(piece: string): Entry
  {
    if piece == [] then ("", "")
    else if piece[0] == '=' then ("", piece[1..])
    else
      var r := Pair(piece[1..]);
      ([piece[0]] + r.0, r.1)
  }

  /** The pairs of a query string; empty pieces are skipped. */
  function Pairs(pieces: seq<string>): Params
  {
    if pieces == [] then []
    else (if pieces[0] == "" then [] else [Pair(pieces[0])]) + Pairs(pieces[1..])
  }

  function ParseQuery(s: string): Params
  {
    Pairs(Split(s, '&'))
  }

  /** Pairs written as `name=value`, joined by '&', with nothing escaped. */
  function Join(ps: Params): string
    requires |ps| >= 1
  {
    ps[0].0 + "=" + ps[0].1 + (if |ps| == 1 then "" else "&" + Join(ps[1..]))
  }

  /**
   * Text that reads back as itself: no separator, no fragment mark, and none of
   * the characters the form-urlencoded parser would decode ('+' and '%').
   */
  predicate Clean(v: string)
  {
    '&' !in v && '#' !in v && '+' !in v && '%' !in v
  }

  /** A pair that survives joining and parsing: a clean, non-empty name without '=', a clean value. */
  predicate CleanPair(e: Entry)
  {
    Clean(e.0) && '=' !in e.0 && e.0 != "" && Clean(e.1)
  }

  predicate CleanPairs(ps: Params)
  {
    forall i :: 0 <= i < |ps| ==> CleanPair(ps[i])
  }

  lemma {:induction false} SplitNone(a: string, c: char)
    requires c !in a
    ensures Split(a, c) == [a]
  {
    if a != [] {
      SplitNone(a[1..], c);
      assert [a[0]] + a[1..] == a;
    }
  }

  lemma {:induction false} SplitAt(a: string, b: string, c: char)
    requires c !in a
    ensures Split(a + [c] + b, c) == [a] + Split(b, c)
  {
    if a == [] {
      assert a + [c] + b == [c] + b;
    } else {
      SplitAt(a[1..], b, c);
      assert (a + [c] + b)[1..] == a[1..] + [c] + b;
      assert [a[0]] + a[1..] == a;
    }
  }

  lemma {:induction false} PairOf(k: string, v: string)
    requires '=' !in k
    ensures Pair(k + "=" + v) == (k, v)
  {
    if k == [] {
      assert k + "=" + v == ['='] + v;
    } else {
      PairOf(k[1..], v);
      assert (k + "=" + v)[1..] == k[1..] + "=" + v;
      assert [k[0]] + k[1..] == k;
    }
  }

  /** Joining clean pairs and parsing the text gives the same pairs back. */
  lemma {:induction false} ParseJoin(ps: Params)
    requires |ps| >= 1 && CleanPairs(ps)
    ensures ParseQuery(Join(ps)) == ps
  {
    var piece := ps[0].0 + "=" + ps[0].1;
    assert '&' !in piece;
    PairOf(ps[0].0, ps[0].1);
    assert piece != "";
    if |ps| == 1 {
      assert Join(ps) == piece;
      SplitNone(piece, '&');
      assert [piece][1..] == [];
      assert Pairs([piece]) == [Pair(piece)] + Pairs([]);
      assert ps == [ps[0]];
    } else {
      assert CleanPairs(ps[1..]) by {
        forall i | 0 <= i < |ps[1..]| ensures CleanPair(ps[1..][i]) {
          assert ps[1..][i] == ps[i + 1];
        }
      }
      ParseJoin(ps[1..]);
      assert Join(ps) == piece + ['&'] + Join(ps[1..]);
      SplitAt(piece, Join(ps[1..]), '&');
      assert ps == [ps[0]] + ps[1..];
    }
  }

  lemma JoinCons(k: string, v: string, rest: Params)
    requires |rest| >= 1
    ensures Join([(k, v)] + rest) == k + "=" + v + "&" + Join(rest)
  {
    assert ([(k, v)] + rest)[1..] == rest;
  }

  /** The five locations pairs, joined, written out field by field. */
  lemma JoinLocationsPairs(P: string, N: string, F: string, S: string, T: string)
    ensures Join([("page", P), ("name", N), ("facilities", F), ("sort_asc", S), ("tag", T)])
         == "page" + "=" + P + "&" + ("name" + "=" + N + "&" + ("facilities" + "=" + F + "&"
            + ("sort_asc" + "=" + S + "&" + ("tag" + "=" + T))))
  {
    var r4: Params := [("tag", T)];
    var r3: Params := [("sort_asc", S)] + r4;
    var r2: Params := [("facilities", F)] + r3;
    var r1: Params := [("name", N)] + r2;
    assert [("page", P), ("name", N), ("facilities", F), ("sort_asc", S), ("tag", T)] == [("page", P)] + r1;
    JoinCons("sort_asc", S, r4);
    JoinCons("facilities", F, r3);
    JoinCons("name", N, r2);
    JoinCons("page", P, r1);
  }

  /** The six submissions pairs, joined, written out field by field. */
  lemma JoinPotentialsPairs(P: string, N: string, F: string, S: string)
    ensures Join([("page", P), ("status", "true"), ("name", N), ("status", "true"), ("facilities", F), ("sort_asc", S)])
         == "page" + "=" + P + "&" + ("status" + "=" + "true" + "&" + ("name" + "=" + N + "&"
            + ("status" + "=" + "true" + "&" + ("facilities" + "=" + F + "&" + ("sort_asc" + "=" + S)))))
  {
    var r5: Params := [("sort_asc", S)];
    var r4: Params := [("facilities", F)] + r5;
    var r3: Params := [("status", "true")] + r4;
    var r2: Params := [("name", N)] + r3;
    var r1: Params := [("status", "true")] + r2;
    assert [("page", P), ("status", "true"), ("name", N), ("status", "true"), ("facilities", F), ("sort_asc", S)]
        == [("page", P)] + r1;
    JoinCons("facilities", F, r5);
    JoinCons("status", "true", r4);
    JoinCons("name", N, r3);
    JoinCons("status", "true", r2);
    JoinCons("page", P, r1);
  }

  /** One more pair appended to a left-grouped prefix, regrouped to the right. */
  lemma Extend(x: string, v: string, amp: string, k: string, eq: string, w: string)
    ensures x + v + (amp + k + eq) + w == x + (v + amp + k + eq + w)
  {
  }

  /** A value followed by one more pair, regrouped the way `Join` groups it. */
  lemma Nest(k: string, eq: string, v: string, amp: string, k2: string, w: string)
    ensures k + eq + (v + amp + k2 + eq + w) == k + eq + v + amp + (k2 + eq + w)
  {
  }

  /**
   * A template of n `name=value` pairs, each literal piece the separator, a
   * name and "=", regrouped the way `Join` groups it. Each length follows from
   * the previous one with its last value extended by one more pair.
   */
  lemma Regroup1(api: string, base: string, eq: string, k0: string, v0: string)
    ensures api + (base + k0 + eq) + v0 == api + base + (k0 + eq + v0)
  {
  }

  lemma Regroup2(api: string, base: string, eq: string, amp: string,
                 k0: string, k1: string,
                 v0: string, v1: string)
    ensures api + (base + k0 + eq) + v0 + (amp + k1 + eq) + v1
         == api + base + (k0 + eq + v0 + amp + (k1 + eq + v1))
  {
    Extend(api + (base + k0 + eq), v0, amp, k1, eq, v1);
    Nest(k0, eq, v0, amp, k1, v1);
    Regroup1(api, base, eq, k0, v0 + amp + k1 + eq + v1);
  }

  lemma Regroup3(api: string, base: string, eq: string, amp: string,
                 k0: string, k1: string, k2: string,
                 v0: string, v1: string, v2: string)
    ensures api + (base + k0 + eq) + v0 + (amp + k1 + eq) + v1 + (amp + k2 + eq) + v2
         == api + base + (k0 + eq + v0 + amp + (k1 + eq + v1 + amp + (k2 + eq + v2)))
  {
    Extend(api + (base + k0 + eq) + v0 + (amp + k1 + eq), v1, amp, k2, eq, v2);
    Nest(k1, eq, v1, amp, k2, v2);
    Regroup2(api, base, eq, amp, k0, k1, v0, v1 + amp + k2 + eq + v2);
  }

  lemma Regroup4(api: string, base: string, eq: string, amp: string,
                 k0: string, k1: string, k2: string, k3: string,
                 v0: string, v1: string, v2: string, v3: string)
    ensures api + (base + k0 + eq) + v0 + (amp + k1 + eq) + v1 + (amp + k2 + eq) + v2 + (amp + k3 + eq) + v3
         == api + base + (k0 + eq + v0 + amp + (k1 + eq + v1 + amp + (k2 + eq + v2 + amp + (k3 + eq + v3))))
  {
    Extend(api + (base + k0 + eq) + v0 + (amp + k1 + eq) + v1 + (amp + k2 + eq), v2, amp, k3, eq, v3);
    Nest(k2, eq, v2, amp, k3, v3);
    Regroup3(api, base, eq, amp, k0, k1, k2, v0, v1, v2 + amp + k3 + eq + v3);
  }

  lemma Regroup5(api: string, base: string, eq: string, amp: string,
                 k0: string, k1: string, k2: string, k3: string, k4: string,
                 v0: string, v1: string, v2: string, v3: string, v4: string)
    ensures api + (base + k0 + eq) + v0 + (amp + k1 + eq) + v1 + (amp + k2 + eq) + v2 + (amp + k3 + eq) + v3 + (amp + k4 + eq) + v4
         == api + base + (k0 + eq + v0 + amp + (k1 + eq + v1 + amp + (k2 + eq + v2 + amp + (k3 + eq + v3 + amp + (k4 + eq + v4)))))
  {
    Extend(api + (base + k0 + eq) + v0 + (amp + k1 + eq) + v1 + (amp + k2 + eq) + v2 + (amp + k3 + eq), v3, amp, k4, eq, v4);
    Nest(k3, eq, v3, amp, k4, v4);
    Regroup4(api, base, eq, amp, k0, k1, k2, k3, v0, v1, v2, v3 + amp + k4 + eq + v4);
  }

  lemma Regroup6(api: string, base: string, eq: string, amp: string,
                 k0: string, k1: string, k2: string, k3: string, k4: string, k5: string,
                 v0: string, v1: string, v2: string, v3: string, v4: string, v5: string)
    ensures api + (base + k0 + eq) + v0 + (amp + k1 + eq) + v1 + (amp + k2 + eq) + v2 + (amp + k3 + eq) + v3 + (amp + k4 + eq) + v4 + (amp + k5 + eq) + v5
         == api + base + (k0 + eq + v0 + amp + (k1 + eq + v1 + amp + (k2 + eq + v2 + amp + (k3 + eq + v3 + amp + (k4 + eq + v4 + amp + (k5 + eq + v5))))))
  {
    Extend(api + (base + k0 + eq) + v0 + (amp + k1 + eq) + v1 + (amp + k2 + eq) + v2 + (amp + k3 + eq) + v3 + (amp + k4 + eq), v4, amp, k5, eq, v5);
    Nest(k4, eq, v4, amp, k5, v5);
    Regroup5(api, base, eq, amp, k0, k1, k2, k3, k4, v0, v1, v2, v3, v4 + amp + k5 + eq + v5);
  }

  /** The locations template, regrouped pair by pair. */
  lemma LocationsText(api: string, P: string, N: string, F: string, S: string, T: string)
    ensures api + "/api/locations?page=" + P + "&name=" + N + "&facilities=" + F + "&sort_asc=" + S + "&tag=" + T
         == api + "/api/locations?" + ("page" + "=" + P + "&" + ("name" + "=" + N + "&" + ("facilities" + "=" + F + "&"
            + ("sort_asc" + "=" + S + "&" + ("tag" + "=" + T)))))
  {
    assert "/api/locations?page=" == "/api/locations?" + "page" + "=";
    assert "&name=" == "&" + "name" + "=";
    assert "&facilities=" == "&" + "facilities" + "=";
    assert "&sort_asc=" == "&" + "sort_asc" + "=";
    assert "&tag=" == "&" + "tag" + "=";
    Regroup5(api, "/api/locations?", "=", "&",
             "page", "name", "facilities", "sort_asc", "tag", P, N, F, S, T);
  }

  /** The submissions template, regrouped pair by pair. */
  lemma PotentialsText(api: string, P: string, N: string, F: string, S: string)
    ensures api + "/api/submissions?page=" + P + "&status=" + "true" + "&name=" + N + "&status=" + "true"
            + "&facilities=" + F + "&sort_asc=" + S
         == api + "/api/submissions?" + ("page" + "=" + P + "&" + ("status" + "=" + "true" + "&" + ("name" + "=" + N + "&"
            + ("status" + "=" + "true" + "&" + ("facilities" + "=" + F + "&" + ("sort_asc" + "=" + S))))))
  {
    assert "/api/submissions?page=" == "/api/submissions?" + "page" + "=";
    assert "&status=" == "&" + "status" + "=";
    assert "&name=" == "&" + "name" + "=";
    assert "&facilities=" == "&" + "facilities" + "=";
    assert "&sort_asc=" == "&" + "sort_asc" + "=";
    Regroup6(api, "/api/submissions?", "=", "&",
             "page", "status", "name", "status", "facilities", "sort_asc", P, "true", N, "true", F, S);
  }

  /** The locations URL is the path, '?', and its five pairs joined in fixed order. */
  lemma LocationsUrlShape(api: string, page: Option<int>, q: Option<QueryArg>)
    ensures LocationsUrl(api, page, q) == api + "/api/locations?" + Join(LocationsPairs(page, q))
  {
    var a := Arg(q);
    var P, N, F, S, T := NumberToString(page), Nullish(a.name, ""), Nullish(a.facilities, ""),
                         Nullish(a.sortAsc, ""), Nullish(a.tag, "");
    JoinLocationsPairs(P, N, F, S, T);
    LocationsText(api, P, N, F, S, T);
  }

  /** The submissions URL is the path, '?', and its six pairs joined in fixed order. */
  lemma PotentialsUrlShape(api: string, page: Option<int>, q: Option<QueryArg>)
    ensures PotentialsUrl(api, page, q) == api + "/api/submissions?" + Join(PotentialsPairs(page, q))
  {
    var a := Arg(q);
    var P, N, F, S := NumberToString(page), Nullish(a.name, ""), Nullish(a.facilities, ""), Nullish(a.sortAsc, "");
    JoinPotentialsPairs(P, N, F, S);
    PotentialsText(api, P, N, F, S);
  }

  predicate CleanQuery(q: Option<QueryArg>)
  {
    var a := Arg(q);
    Clean(Nullish(a.name, "")) && Clean(Nullish(a.facilities, "")) && Clean(Nullish(a.sortAsc, ""))
    && Clean(Nullish(a.tag, ""))
  }

  lemma PageTextClean(page: Option<int>)
    ensures Clean(NumberToString(page))
  {
    if page.Some? {
      var s := NumberToString(page);
      assert forall i :: 0 <= i < |s| ==> s[i] == '-' || '0' <= s[i] <= '9';
    }
  }

  /** A name made of lower-case letters and '_' is clean. */
  lemma WordClean(w: string)
    requires w != [] && forall i :: 0 <= i < |w| ==> 'a' <= w[i] <= 'z' || w[i] == '_'
    ensures Clean(w) && '=' !in w
  {
  }

  lemma FixedNamesClean()
    ensures Clean("page") && '=' !in "page"
    ensures Clean("name") && '=' !in "name"
    ensures Clean("facilities") && '=' !in "facilities"
    ensures Clean("sort_asc") && '=' !in "sort_asc"
    ensures Clean("tag") && '=' !in "tag"
    ensures Clean("status") && '=' !in "status"
    ensures Clean("true")
  {
    WordClean("page");
    WordClean("name");
    WordClean("facilities");
    WordClean("sort_asc");
    WordClean("tag");
    WordClean("status");
    WordClean("true");
  }

  /** The fixed names of both requests are clean, and so is the page text. */
  lemma CleanRequestPairs(page: Option<int>, q: Option<QueryArg>)
    requires CleanQuery(q)
    ensures CleanPairs(LocationsPairs(page, q))
    ensures CleanPairs(PotentialsPairs(page, q))
  {
    PageTextClean(page);
    FixedNamesClean();
    var l := LocationsPairs(page, q);
    assert CleanPair(l[0]) && CleanPair(l[1]) && CleanPair(l[2]) && CleanPair(l[3]) && CleanPair(l[4]);
    var p := PotentialsPairs(page, q);
    assert CleanPair(p[0]) && CleanPair(p[1]) && CleanPair(p[2]) && CleanPair(p[3]) && CleanPair(p[4]) && CleanPair(p[5]);
  }

  /**
   * With clean field values the backend receives exactly the five locations
   * pairs and the six submissions pairs; a missing field arrives as "".
   */
  lemma RequestsReadBack(api: string, page: Option<int>, q: Option<QueryArg>)
    requires CleanQuery(q)
    ensures LocationsUrl(api, page, q) == api + "/api/locations?" + Join(LocationsPairs(page, q))
    ensures ParseQuery(Join(LocationsPairs(page, q))) == LocationsPairs(page, q)
    ensures PotentialsUrl(api, page, q) == api + "/api/submissions?" + Join(PotentialsPairs(page, q))
    ensures ParseQuery(Join(PotentialsPairs(page, q))) == PotentialsPairs(page, q)
  {
    LocationsUrlShape(api, page, q);
    PotentialsUrlShape(api, page, q);
    CleanRequestPairs(page, q);
    ParseJoin(LocationsPairs(page, q));
    ParseJoin(PotentialsPairs(page, q));
  }

  lemma SplitName(n: string, eq: string, amp: string, x: string, k: string, v: string, rest: string)
    ensures n + eq + (x + amp + k + eq + v) + amp + rest == n + eq + x + amp + (k + eq + v + amp + rest)
  {
  }

  /** Joined, a name x + "&" + k + "=" + v reads the same as a name x followed by the pair (k, v). */
  lemma JoinSplitsName(P: string, x: string, k: string, v: string, rest: Params)
    requires |rest| >= 1
    ensures Join([("page", P), ("name", x + "&" + k + "=" + v)] + rest)
         == Join([("page", P), ("name", x), (k, v)] + rest)
  {
    var m1: Params := [("name", x + "&" + k + "=" + v)] + rest;
    var t: Params := [(k, v)] + rest;
    var n1: Params := [("name", x)] + t;
    assert [("page", P), ("name", x + "&" + k + "=" + v)] + rest == [("page", P)] + m1;
    assert [("page", P), ("name", x), (k, v)] + rest == [("page", P)] + n1;
    JoinCons("page", P, m1);
    JoinCons("name", x + "&" + k + "=" + v, rest);
    JoinCons("page", P, n1);
    JoinCons("name", x, t);
    JoinCons(k, v, rest);
    SplitName("name", "=", "&", x, k, v, Join(rest));
  }

  /**
   * Values are inserted unescaped: a name of the form x + "&" + k + "=" + v
   * reaches the backend as a `name` of x followed by an extra pair (k, v).
   */
  lemma UnescapedNameAddsPair(page: Option<int>, x: string, k: string, v: string)
    requires Clean(x) && Clean(k) && '=' !in k && k != "" && Clean(v)
    ensures var q := Some(QueryArg(Some(x + "&" + k + "=" + v), None, None, None));
            ParseQuery(Join(LocationsPairs(page, q)))
            == [("page", NumberToString(page)), ("name", x), (k, v), ("facilities", ""), ("sort_asc", ""), ("tag", "")]
  {
    var q := Some(QueryArg(Some(x + "&" + k + "=" + v), None, None, None));
    var P := NumberToString(page);
    var rest: Params := [("facilities", ""), ("sort_asc", ""), ("tag", "")];
    var ps: Params := [("page", P), ("name", x), (k, v)] + rest;
    assert LocationsPairs(page, q) == [("page", P), ("name", x + "&" + k + "=" + v)] + rest;
    JoinSplitsName(P, x, k, v, rest);
    PageTextClean(page);
    FixedNamesClean();
    assert Clean("");
    assert CleanPair(ps[0]) && CleanPair(ps[1]) && CleanPair(ps[2]) && CleanPair(ps[3]) && CleanPair(ps[4]) && CleanPair(ps[5]);
    ParseJoin(ps);
    assert ps == [("page", P), ("name", x), (k, v), ("facilities", ""), ("sort_asc", ""), ("tag", "")];
  }

  /** What `get` answers on each request's pairs: a missing field reads as "". */
  lemma PairsLookup(page: Option<int>, q: Option<QueryArg>)
    ensures var a := Arg(q);
            var l := LocationsPairs(page, q);
            && GetParam(l, "page") == Some(NumberToString(page))
            && GetParam(l, "name") == Some(Nullish(a.name, ""))
            && GetParam(l, "facilities") == Some(Nullish(a.facilities, ""))
            && GetParam(l, "sort_asc") == Some(Nullish(a.sortAsc, ""))
            && GetParam(l, "tag") == Some(Nullish(a.tag, ""))
    ensures var a := Arg(q);
            var s := PotentialsPairs(page, q);
            && GetParam(s, "page") == Some(NumberToString(page))
            && GetParam(s, "status") == Some("true")
            && GetParam(s, "name") == Some(Nullish(a.name, ""))
            && GetParam(s, "facilities") == Some(Nullish(a.facilities, ""))
            && GetParam(s, "sort_asc") == Some(Nullish(a.sortAsc, ""))
            && GetParam(s, "tag") == None
  {
    var a := Arg(q);
    LocationsLookup(NumberToString(page), Nullish(a.name, ""), Nullish(a.facilities, ""), Nullish(a.sortAsc, ""),
                    Nullish(a.tag, ""));
    PotentialsLookup(NumberToString(page), Nullish(a.name, ""), Nullish(a.facilities, ""), Nullish(a.sortAsc, ""));
  }

  lemma LocationsLookup(P: string, N: string, F: string, S: string, T: string)
    ensures var l: Params := [("page", P), ("name", N), ("facilities", F), ("sort_asc", S), ("tag", T)];
            && GetParam(l, "page") == Some(P) && GetParam(l, "name") == Some(N)
            && GetParam(l, "facilities") == Some(F) && GetParam(l, "sort_asc") == Some(S) && GetParam(l, "tag") == Some(T)
  {
    var l: Params := [("page", P), ("name", N), ("facilities", F), ("sort_asc", S), ("tag", T)];
    assert "page"[0] == 'p' && "name"[0] == 'n';
    SkipTo(l, "facilities", 2);
    SkipTo(l, "sort_asc", 3);
    SkipTo(l, "tag", 4);
  }

  lemma PotentialsLookup(P: string, N: string, F: string, S: string)
    ensures var s: Params := [("page", P), ("status", "true"), ("name", N), ("status", "true"), ("facilities", F), ("sort_asc", S)];
            && GetParam(s, "page") == Some(P) && GetParam(s, "status") == Some("true") && GetParam(s, "name") == Some(N)
            && GetParam(s, "facilities") == Some(F) && GetParam(s, "sort_asc") == Some(S) && GetParam(s, "tag") == None
  {
    var s: Params := [("page", P), ("status", "true"), ("name", N), ("status", "true"), ("facilities", F), ("sort_asc", S)];
    assert "page"[0] == 'p' && "name"[0] == 'n' && "status"[1] == 't' && "sort_asc"[1] == 'o';
    SkipTo(s, "name", 2);
    SkipTo(s, "facilities", 4);
    SkipTo(s, "sort_asc", 5);
    SkipTo(s, "tag", 6);
  }

  /** `get` passes over a prefix in which the name does not occur. */
  lemma {:induction false} SkipTo(p: Params, k: string, n: nat)
    requires n <= |p|
    requires forall i :: 0 <= i < n ==> p[i].0 != k
    ensures GetParam(p, k) == GetParam(p[n..], k)
    decreases n
  {
    if n > 0 {
      SkipTo(p[1..], k, n - 1);
      assert p[1..][n - 1..] == p[n..];
    }
  }

  // ----- cache keys, enabling, responses ---------------------------------------

  /** A react-query key: a text naming the list and the page, and the query object. */
  datatype CacheKey = CacheKey(prefix: string, query: Option<QueryArg>)

  function LocationsKey(page: Option<int>, q: Option<QueryArg>): CacheKey
  {
    CacheKey("get-all-locations-" + NumberToString(page), q)
  }

  function PotentialsKey(page: Option<int>, q: Option<QueryArg>): CacheKey
  {
    CacheKey("get-all-potentials-" + NumberToString(page), q)
  }

  /** `${page}` tells every page (and NaN) apart. */
  lemma PageTextInjective(p1: Option<int>, p2: Option<int>)
    requires p1 != p2
    ensures NumberToString(p1) != NumberToString(p2)
  {
    if p1.Some? && p2.Some? {
      NumberToStringInjective(p1.value, p2.value);
    } else if p1.Some? {
      var s := NumberToString(p1);
      assert s[0] == '-' || '0' <= s[0] <= '9';
    } else if p2.Some? {
      var s := NumberToString(p2);
      assert s[0] == '-' || '0' <= s[0] <= '9';
    }
  }

  lemma PrefixCancel(x: string, a: string, b: string)
    requires x + a == x + b
    ensures a == b
  {
    assert a == (x + a)[|x|..];
    assert b == (x + b)[|x|..];
  }

  /**
   * Two requests share a cache entry only when they ask for the same page with
   * the same query object, and the two lists never share an entry.
   */
  lemma CacheKeysSeparate(p1: Option<int>, q1: Option<QueryArg>, p2: Option<int>, q2: Option<QueryArg>)
    ensures LocationsKey(p1, q1) == LocationsKey(p2, q2) <==> p1 == p2 && q1 == q2
    ensures PotentialsKey(p1, q1) == PotentialsKey(p2, q2) <==> p1 == p2 && q1 == q2
    ensures LocationsKey(p1, q1) != PotentialsKey(p2, q2)
  {
    if p1 != p2 {
      PageTextInjective(p1, p2);
      if "get-all-locations-" + NumberToString(p1) == "get-all-locations-" + NumberToString(p2) {
        PrefixCancel("get-all-locations-", NumberToString(p1), NumberToString(p2));
      }
      if "get-all-potentials-" + NumberToString(p1) == "get-all-potentials-" + NumberToString(p2) {
        PrefixCancel("get-all-potentials-", NumberToString(p1), NumberToString(p2));
      }
    }
    assert LocationsKey(p1, q1).prefix[8] == 'l';
    assert PotentialsKey(p2, q2).prefix[8] == 'p';
  }

  /** `enabled` of each list hook. */
  predicate LocationsEnabled(kind: string)
  {
    kind == "all"
  }

  predicate PotentialsEnabled(kind: string)
  {
    kind == "potential"
  }

  /** A fetch response: the status flag and the decoded body. */
  datatype Response<T> = Response(ok: bool, body: T)

  /** A settled query: its data, or the error the query function threw. */
  datatype Outcome<T> = Data(value: T) | Failed(message: string)

  const LocationsError := "Failed to fetch locations"
  const PotentialsError := "Failed to fetch potentials"
  const DetailError := "Failed to fetch place"

  /** A non-OK response throws the given message instead of returning its body. */
  function Settle<T>(r: Response<T>, message: string): (o: Outcome<T>)
    ensures o.Data? <==> r.ok
    ensures o.Data? ==> o.value == r.body
    ensures o.Failed? ==> o.message == message
  {
    if r.ok then Data(r.body) else Failed(message)
  }

  /** The detail requests `/api/locations/{id}` and `/api/submissions/{id}`. */
  function LocationDetailUrl(api: string, id: string): string
  {
    api + "/api/locations/" + id
  }

  function SubmissionDetailUrl(api: string, id: string): string
  {
    api + "/api/submissions/" + id
  }

  /** The id is the text after the fixed path, and the two detail paths never meet. */
  lemma DetailUrlsCarryId(api: string, id1: string, id2: string)
    ensures LocationDetailUrl(api, id1)[|api| + 15..] == id1
    ensures SubmissionDetailUrl(api, id1)[|api| + 17..] == id1
    ensures LocationDetailUrl(api, id1) != SubmissionDetailUrl(api, id2)
  {
    assert |"/api/locations/"| == 15;
    assert |"/api/submissions/"| == 17;
    assert LocationDetailUrl(api, id1)[|api| + 5] == 'l';
    assert SubmissionDetailUrl(api, id2)[|api| + 5] == 's';
  }
}
