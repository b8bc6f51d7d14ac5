/**
 * The accessibility heatmap (app/maps/accessibility/page.tsx): district scores
 * merged into the district shapes, and the hover state that feeds the tooltip.
 */
module Accessibility {
  import opened Common

  /** One entry of the district-score response. */
  datatype DistrictScore = DistrictScore(districtName: string, disabilityScore: real)

  /** The properties of a district shape that matter here: `KECAMATAN` and the merged score. */
  datatype Feature = Feature(kecamatan: Option<string>, disabilityScore: Option<real>, geometry: seq<(real, real)>)

  /** Successive assignments `m[k] = v`: a later pair for the same key overwrites an earlier one. */
  function Assign(pairs: seq<(string, real)>): map<string, real>
  {
    if pairs == [] then map[]
    else Assign(pairs[..|pairs| - 1])[pairs[|pairs| - 1].0 := pairs[|pairs| - 1].1]
  }

  /** A key is present iff some pair has it, and it holds the value of the last such pair. */
  lemma {:induction false} AssignLastWins(pairs: seq<(string, real)>, i: int)
    requires 0 <= i < |pairs|
    requires forall j :: i < j < |pairs| ==> pairs[j].0 != pairs[i].0
    ensures pairs[i].0 in Assign(pairs) && Assign(pairs)[pairs[i].0] == pairs[i].1
    decreases |pairs|
  {
    if i < |pairs| - 1 {
      AssignLastWins(pairs[..|pairs| - 1], i);
    }
  }

  lemma {:induction false} AssignKeys(pairs: seq<(string, real)>, k: string)
    ensures k in Assign(pairs) <==> exists j :: 0 <= j < |pairs| && pairs[j].0 == k
    decreases |pairs|
  {
    if pairs != [] {
      var init := pairs[..|pairs| - 1];
      AssignKeys(init, k);
      if exists j :: 0 <= j < |pairs| && pairs[j].0 == k {
        var j :| 0 <= j < |pairs| && pairs[j].0 == k;
        if j < |pairs| - 1 {
          assert init[j].0 == k;
        }
      }
      if exists j :: 0 <= j < |init| && init[j].0 == k {
        var j :| 0 <= j < |init| && init[j].0 == k;
        assert pairs[j].0 == k;
      }
    }
  }

  /** The stored value of a score: `disabilityScore * 100 + 1`, so a score of 0 is stored as 1. */
  function Stored(score: real): real
  {
    score * 100.0 + 1.0
  }

  function ScorePairs(scores: seq<DistrictScore>): (ps: seq<(string, real)>)
    ensures |ps| == |scores|
    ensures forall i :: 0 <= i < |scores| ==> ps[i] == (scores[i].districtName, Stored(scores[i].disabilityScore))
  {
    seq(|scores|, i requires 0 <= i < |scores| => (scores[i].districtName, Stored(scores[i].disabilityScore)))
  }

  /**
   * `valueMap`: the static heatmap's entries when the scores are undefined,
   * otherwise every score stored under its district, the last one winning.
   */
  function ValueMap(scores: Option<seq<DistrictScore>>, heatmap: seq<(string, real)>): map<string, real>
  {
    match scores
    case None => Assign(heatmap)
    case Some(s) => Assign(ScorePairs(s))
  }

  /**
   * The scores state starts as [] and a failed fetch leaves it so: [] is not
   * undefined, so the static heatmap is not used and the map is empty.
   */
  lemma InitialScoresIgnoreHeatmap(heatmap: seq<(string, real)>)
    ensures ValueMap(Some([]), heatmap) == map[]
  {
  }

  /** `forEach` loops filling `valueMap`. */
  method BuildValueMap(scores: Option<seq<DistrictScore>>, heatmap: seq<(string, real)>) returns (m: map<string, real>)
    ensures m == ValueMap(scores, heatmap)
  {
    var pairs := if scores.None? then heatmap else ScorePairs(scores.value);
    m := map[];
    var i := 0;
    while i < |pairs|
      invariant 0 <= i <= |pairs|
      invariant m == Assign(pairs[..i])
    {
      m := m[pairs[i].0 := pairs[i].1];
      i := i + 1;
      assert pairs[..i][..i - 1] == pairs[..i - 1];
    }
    assert pairs[..i] == pairs;
  }

  /** A stored score is used only when it is truthy (not 0). */
  predicate HasEntry(f: Feature, m: map<string, real>)
  {
    f.kecamatan.Some? && f.kecamatan.value in m && m[f.kecamatan.value] != 0.0
  }

  function EnhanceOne(f: Feature, m: map<string, real>): Feature
  {
    if HasEntry(f, m) then f.(disabilityScore := Some(m[f.kecamatan.value])) else f
  }

  /** `enhancedGeoJSON.features`: each shape, given its district's score when that is truthy. */
  function Enhance(fs: seq<Feature>, m: map<string, real>): seq<Feature>
  {
    if fs == [] then [] else [EnhanceOne(fs[0], m)] + Enhance(fs[1..], m)
  }

  /**
   * The merge keeps the number and order of shapes; a shape with a truthy
   * entry gains exactly its district's score, every other shape is returned
   * as it was; merging again changes nothing.
   */
  lemma {:induction false} EnhanceFacts(fs: seq<Feature>, m: map<string, real>)
    ensures |Enhance(fs, m)| == |fs|
    ensures forall i :: 0 <= i < |fs| ==>
              && Enhance(fs, m)[i].kecamatan == fs[i].kecamatan
              && Enhance(fs, m)[i].geometry == fs[i].geometry
              && (HasEntry(fs[i], m) ==> Enhance(fs, m)[i].disabilityScore == Some(m[fs[i].kecamatan.value]))
              && (!HasEntry(fs[i], m) ==> Enhance(fs, m)[i] == fs[i])
    ensures Enhance(Enhance(fs, m), m) == Enhance(fs, m)
    decreases |fs|
  {
    if fs != [] {
      EnhanceFacts(fs[1..], m);
      var r := Enhance(fs, m);
      forall i | 0 <= i < |fs|
        ensures r[i].kecamatan == fs[i].kecamatan && r[i].geometry == fs[i].geometry
        ensures HasEntry(fs[i], m) ==> r[i].disabilityScore == Some(m[fs[i].kecamatan.value])
        ensures !HasEntry(fs[i], m) ==> r[i] == fs[i]
      {
        if i > 0 {
          assert r[i] == Enhance(fs[1..], m)[i - 1] && fs[i] == fs[1..][i - 1];
        }
      }
      assert r[1..] == Enhance(fs[1..], m);
    }
  }

  /** What the tooltip is given. */
  datatype HoverInfo = HoverInfo(districtName: string, disabilityScore: real, x: real, y: real)

  /** The state update for a mouse move over the map, `feature` the first shape under the cursor. */
  function HoverUpdate(prev: Option<HoverInfo>, feature: Option<Feature>, x: real, y: real): Option<HoverInfo>
  {
    match feature
    case None => None
    case Some(f) =>
      var name := OrDefault(f.kecamatan, "Unknown");
      var score := if TruthyNum(f.disabilityScore) then f.disabilityScore.value else 0.0;
      if prev.Some? && prev.value.districtName == name then prev
      else Some(HoverInfo(name, score, x, y))
  }

  /**
   * Moving within the hovered district keeps the state, position included;
   * entering another district records its name ("Unknown" when missing), its
   * score (0 when missing) and the cursor; leaving every shape clears the
   * state. Repeating an event changes nothing.
   */
  lemma HoverUpdateFacts(prev: Option<HoverInfo>, feature: Option<Feature>, x: real, y: real)
    ensures feature.None? ==> HoverUpdate(prev, feature, x, y) == None
    ensures feature.Some? && prev.Some? && prev.value.districtName == OrDefault(feature.value.kecamatan, "Unknown") ==>
              HoverUpdate(prev, feature, x, y) == prev
    ensures feature.Some? && !(prev.Some? && prev.value.districtName == OrDefault(feature.value.kecamatan, "Unknown")) ==>
              var h := HoverUpdate(prev, feature, x, y).value;
              && h.districtName == OrDefault(feature.value.kecamatan, "Unknown")
              && (feature.value.kecamatan.None? ==> h.districtName == "Unknown")
              && (feature.value.disabilityScore.None? ==> h.disabilityScore == 0.0)
              && h.x == x && h.y == y
    ensures HoverUpdate(HoverUpdate(prev, feature, x, y), feature, x, y) == HoverUpdate(prev, feature, x, y)
  {
  }

  /** The page's state: the scores it fetched and the hover information. */
  class Heatmap {
    var scores: Option<seq<DistrictScore>>
    var hoverInfo: Option<HoverInfo>

    constructor ()
      ensures scores == Some([]) && hoverInfo == None
    {
      scores := Some([]);
      hoverInfo := None;
    }

    /** The score fetch: a failed response leaves the state as it was; otherwise `data.data` (None when missing) is stored. */
    method ScoresFetched(ok: bool, data: Option<seq<DistrictScore>>)
      modifies this
      ensures !ok ==> scores == old(scores)
      ensures ok ==> scores == data
      ensures hoverInfo == old(hoverInfo)
    {
      if !ok {
        return;
      }
      scores := data;
    }

    /** `onHover`. */
    method OnHover(feature: Option<Feature>, x: real, y: real)
      modifies this
      ensures hoverInfo == HoverUpdate(old(hoverInfo), feature, x, y)
      ensures scores == old(scores)
    {
      if feature.Some? {
        var name := OrDefault(feature.value.kecamatan, "Unknown");
        var score := if TruthyNum(feature.value.disabilityScore) then feature.value.disabilityScore.value else 0.0;
        if !(hoverInfo.Some? && hoverInfo.value.districtName == name) {
          hoverInfo := Some(HoverInfo(name, score, x, y));
        }
      } else {
        hoverInfo := None;
      }
    }
  }
}
