/**
 * The slices both pie charts build from a dictionary of counts
 * (app/dashboards/__components/charts/pie-graph.tsx and
 * components/mapbox/pie-graph.tsx): every key but the total key, in order,
 * labelled and coloured from the shared chart configuration.
 */
module PieEntries {
  import opened Common

  /** The chart configuration: a label and a colour per known facility key. */
  const Labels: map<string, string> :=
    map["wheelchair" := "Kursi Roda", "toilet" := "Toilet Difabel", "ramp" := "Jalan Difabel",
        "lift" := "Lift Difabel", "escalator" := "Eskalator", "parking" := "Parkir Difabel"]
  const Colors: map<string, string> :=
    map["wheelchair" := "hsl(20, 100%, 65%)", "toilet" := "hsl(140, 70%, 60%)", "ramp" := "hsl(220, 90%, 65%)",
        "lift" := "hsl(300, 80%, 70%)", "escalator" := "hsl(45, 100%, 60%)", "parking" := "hsl(90, 80%, 65%)"]

  /** A slice: `browser` (its label, here `name`), `visitors` (its value) and `fill`. */
  datatype Entry = Entry(name: string, value: real, fill: string)

  function EntryOf(key: string, value: real): Entry
  {
    Entry(if key in Labels then Labels[key] else key, value, if key in Colors then Colors[key] else "gray")
  }

  /** A configured key gets its label and colour; any other key is its own label and is grey; the value is kept. */
  lemma EntryFallbacks(key: string, value: real)
    ensures EntryOf(key, value).value == value
    ensures key in Labels <==> key in Colors
    ensures key !in Labels ==> EntryOf(key, value) == Entry(key, value, "gray")
    ensures key in Labels ==> EntryOf(key, value).name != key && EntryOf(key, value).fill != "gray"
  {
  }

  /** `.filter(([key]) => key !== excluded)`. */
  function Kept(data: seq<(string, real)>, excluded: string): (k: seq<(string, real)>)
    ensures forall p :: p in k <==> p in data && p.0 != excluded
  {
    if data == [] then []
    else (if data[0].0 == excluded then [] else [data[0]]) + Kept(data[1..], excluded)
  }

  /** The filter keeps the order of what it keeps. */
  lemma {:induction false} KeptAppend(a: seq<(string, real)>, b: seq<(string, real)>, excluded: string)
    ensures Kept(a + b, excluded) == Kept(a, excluded) + Kept(b, excluded)
    decreases |a|
  {
    if a == [] {
      assert a + b == b;
    } else {
      assert (a + b)[1..] == a[1..] + b;
      KeptAppend(a[1..], b, excluded);
    }
  }

  /** `.map(...)` over the kept pairs. */
  function Entries(data: seq<(string, real)>, excluded: string): (es: seq<Entry>)
    ensures |es| == |Kept(data, excluded)|
    ensures forall i :: 0 <= i < |es| ==> es[i] == EntryOf(Kept(data, excluded)[i].0, Kept(data, excluded)[i].1)
  {
    var k := Kept(data, excluded);
    seq(|k|, i requires 0 <= i < |k| => EntryOf(k[i].0, k[i].1))
  }

  /**
   * The excluded key produces no slice; every other pair produces exactly one,
   * in input order; a dictionary of only the excluded key gives no slices.
   */
  lemma EntriesFacts(data: seq<(string, real)>, excluded: string, key: string, value: real)
    ensures Entries([(excluded, value)], excluded) == []
    ensures key != excluded ==> Entries([(key, value)], excluded) == [EntryOf(key, value)]
    ensures Kept(data + [(excluded, value)], excluded) == Kept(data, excluded)
    ensures key != excluded ==> Kept(data + [(key, value)], excluded) == Kept(data, excluded) + [(key, value)]
  {
    KeptAppend(data, [(excluded, value)], excluded);
    KeptAppend(data, [(key, value)], excluded);
    assert [(excluded, value)][1..] == [];
    assert [(key, value)][1..] == [];
  }

  /** `data[key]` on the dictionary: the value of the first pair with that key, None when there is none. */
  function Lookup(data: seq<(string, real)>, key: string): (r: Option<real>)
    ensures r.Some? ==> (key, r.value) in data
    ensures r.None? <==> forall p :: p in data ==> p.0 != key
  {
    if data == [] then None
    else if data[0].0 == key then Some(data[0].1)
    else Lookup(data[1..], key)
  }
}
