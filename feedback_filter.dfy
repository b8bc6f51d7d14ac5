/**
 * The feedback table's location-name filter and vote column
 * (app/dashboards/__components/feedbacks-table/columns.tsx).
 */
module FeedbackFilter {
  import opened Common

  /** `String.prototype.includes`: `needle` occurs in `hay` at some position. */
  predicate Contains(hay: string, needle: string)
    decreases |hay|
  {
    (|needle| <= |hay| && hay[..|needle|] == needle) || (hay != [] && Contains(hay[1..], needle))
  }

  /** `needle` occurs in `hay` starting at position `i`. */
  predicate OccursAt(hay: string, needle: string, i: nat)
  {
    i + |needle| <= |hay| && hay[i..i + |needle|] == needle
  }

  /** An occurrence at position `i` is found. */
  lemma {:induction false} ContainsAt(hay: string, needle: string, i: nat)
    requires i + |needle| <= |hay| && hay[i..i + |needle|] == needle
    ensures Contains(hay, needle)
    decreases i
  {
    if i > 0 {
      assert hay[1..][i - 1..i - 1 + |needle|] == needle;
      ContainsAt(hay[1..], needle, i - 1);
    }
  }

  /** Whatever is found occurs at some position. */
  lemma {:induction false} ContainsWitness(hay: string, needle: string) returns (i: nat)
    requires Contains(hay, needle)
    ensures i + |needle| <= |hay| && hay[i..i + |needle|] == needle
    decreases |hay|
  {
    if |needle| <= |hay| && hay[..|needle|] == needle {
      i := 0;
    } else {
      var k := ContainsWitness(hay[1..], needle);
      i := k + 1;
      assert hay[i..i + |needle|] == hay[1..][k..k + |needle|];
    }
  }

  /** `filterFn`: the lower-cased location name (or "") contains the lower-cased filter. */
  predicate Matches(locationName: Option<string>, filter: string)
  {
    Contains(Lower(Nullish(locationName, "")), Lower(filter))
  }

  /** A row matches iff the lower-cased filter occurs somewhere in the lower-cased name. */
  lemma MatchesIff(locationName: Option<string>, filter: string)
    ensures var h := Lower(Nullish(locationName, ""));
            Matches(locationName, filter) <==> exists i: nat :: OccursAt(h, Lower(filter), i)
  {
    var h := Lower(Nullish(locationName, ""));
    if Matches(locationName, filter) {
      var i := ContainsWitness(h, Lower(filter));
      assert OccursAt(h, Lower(filter), i);
    }
    if exists i: nat :: OccursAt(h, Lower(filter), i) {
      var i: nat :| OccursAt(h, Lower(filter), i);
      ContainsAt(h, Lower(filter), i);
    }
  }

  /** The empty filter matches every row. */
  lemma EmptyFilterMatches(locationName: Option<string>)
    ensures Matches(locationName, "")
  {
    assert Lower("") == "";
  }

  /** A missing location name is searched as "", which only the empty filter matches. */
  lemma {:induction false} MissingNameIsEmpty(filter: string)
    ensures Matches(None, filter) == Matches(Some(""), filter)
    ensures Matches(None, filter) <==> filter == ""
  {
    MatchesIff(None, filter);
    assert Lower("") == "";
  }

  /** The case of the filter and of the name plays no part. */
  lemma IgnoresCase(locationName: string, filter: string)
    ensures Matches(Some(locationName), Upper(filter)) == Matches(Some(locationName), filter)
    ensures Matches(Some(locationName), Lower(filter)) == Matches(Some(locationName), filter)
    ensures Matches(Some(Upper(locationName)), filter) == Matches(Some(locationName), filter)
  {
    LowerOfUpper(filter);
    LowerOfUpper(locationName);
    LowerIdempotent(filter);
  }

  /** Any part of a location name, typed in any case, finds its row. */
  lemma PartOfNameMatches(locationName: string, i: nat, j: nat)
    requires i <= j <= |locationName|
    ensures Matches(Some(locationName), locationName[i..j])
    ensures Matches(Some(locationName), Upper(locationName[i..j]))
  {
    assert Lower(locationName)[i..j] == Lower(locationName[i..j]);
    ContainsAt(Lower(locationName), Lower(locationName[i..j]), i);
    IgnoresCase(locationName, locationName[i..j]);
  }

  /** The vote column's icon. */
  datatype VoteIcon = ThumbsUp | ThumbsDown

  /** `vote ? <ThumbsUp /> : <ThumbsDown />`: a missing vote shows thumbs-down. */
  function VoteIconOf(vote: Option<bool>): (icon: VoteIcon)
    ensures icon == ThumbsUp <==> vote == Some(true)
  {
    if vote.Some? && vote.value then ThumbsUp else ThumbsDown
  }
}
