/**
 * The visitor counting loop both dashboard charts run
 * (app/dashboards/__components/charts/bar-graph.tsx and area-graph.tsx): one
 * row per distinct key, in the order keys first appear, counting "mobile"
 * records and every other record as desktop.
 */
module VisitorTally {
  import opened Sorting

  datatype VisitorRecord = VisitorRecord(visitedAt: string, deviceType: string)

  /** A chart row: the key (a day or a month) and its two counts. */
  datatype Row = Row(key: string, desktop: nat, mobile: nat)

  predicate IsMobile(r: VisitorRecord)
  {
    r.deviceType == "mobile"
  }

  /** The distinct keys of the records, in order of first appearance. */
  function Keys(recs: seq<VisitorRecord>, key: VisitorRecord -> string): seq<string>
  {
    if recs == [] then []
    else
      var ks := Keys(recs[..|recs| - 1], key);
      var k := key(recs[|recs| - 1]);
      if k in ks then ks else ks + [k]
  }

  /** How many records have key `k` and are (`mobile`) or are not mobile. */
  function Count(recs: seq<VisitorRecord>, key: VisitorRecord -> string, k: string, mobile: bool): nat
  {
    if recs == [] then 0
    else
      var last := recs[|recs| - 1];
      Count(recs[..|recs| - 1], key, k, mobile) + (if key(last) == k && IsMobile(last) == mobile then 1 else 0)
  }

  /** How many records are (`mobile`) or are not mobile, whatever their key. */
  function CountAll(recs: seq<VisitorRecord>, mobile: bool): nat
  {
    if recs == [] then 0
    else CountAll(recs[..|recs| - 1], mobile) + (if IsMobile(recs[|recs| - 1]) == mobile then 1 else 0)
  }

  /** The row of one key. */
  function RowOf(recs: seq<VisitorRecord>, key: VisitorRecord -> string, k: string): Row
  {
    Row(k, Count(recs, key, k, false), Count(recs, key, k, true))
  }

  /** The rows of the given keys, in their order. */
  function RowsFor(recs: seq<VisitorRecord>, key: VisitorRecord -> string, ks: seq<string>): (rows: seq<Row>)
    ensures |rows| == |ks|
    ensures forall i :: 0 <= i < |ks| ==> rows[i] == RowOf(recs, key, ks[i])
  {
    if ks == [] then [] else RowsFor(recs, key, ks[..|ks| - 1]) + [RowOf(recs, key, ks[|ks| - 1])]
  }

  /** The specification of the loop: one row per distinct key, in order of first appearance. */
  function Tally(recs: seq<VisitorRecord>, key: VisitorRecord -> string): seq<Row>
  {
    RowsFor(recs, key, Keys(recs, key))
  }

  /** A column total: `rows.reduce((acc, d) => acc + d.mobile, 0)` or the same for desktop. */
  function Column(rows: seq<Row>, mobile: bool): nat
  {
    if rows == [] then 0
    else Column(rows[..|rows| - 1], mobile) + (if mobile then rows[|rows| - 1].mobile else rows[|rows| - 1].desktop)
  }

  predicate Distinct(ks: seq<string>)
  {
    forall i, j :: 0 <= i < j < |ks| ==> ks[i] != ks[j]
  }

  /** The keys are distinct, and a key is listed exactly when some record has it. */
  lemma {:induction false} KeysFacts(recs: seq<VisitorRecord>, key: VisitorRecord -> string)
    ensures Distinct(Keys(recs, key))
    ensures forall k :: k in Keys(recs, key) <==> exists r :: r in recs && key(r) == k
    decreases |recs|
  {
    if recs != [] {
      var init := recs[..|recs| - 1];
      var last := recs[|recs| - 1];
      KeysFacts(init, key);
      assert recs == init + [last];
      forall k ensures k in Keys(recs, key) <==> exists r :: r in recs && key(r) == k {
        if k in Keys(recs, key) {
          if k in Keys(init, key) {
            var r :| r in init && key(r) == k;
            assert r in recs;
          } else {
            assert key(last) == k && last in recs;
          }
        }
        if exists r :: r in recs && key(r) == k {
          var r :| r in recs && key(r) == k;
          if r != last {
            assert r in init;
          }
        }
      }
    }
  }

  /** A key that no record has counts nothing. */
  lemma {:induction false} CountOutsideKeys(recs: seq<VisitorRecord>, key: VisitorRecord -> string, k: string, mobile: bool)
    requires k !in Keys(recs, key)
    ensures Count(recs, key, k, mobile) == 0
    decreases |recs|
  {
    if recs != [] {
      CountOutsideKeys(recs[..|recs| - 1], key, k, mobile);
    }
  }

  lemma ColumnAppend(rows: seq<Row>, x: Row, mobile: bool)
    ensures Column(rows + [x], mobile) == Column(rows, mobile) + (if mobile then x.mobile else x.desktop)
  {
    assert (rows + [x])[..|rows|] == rows;
  }

  /** One more record adds one to the count of its key and kind, and nothing to the others. */
  lemma CountStep(recs: seq<VisitorRecord>, r: VisitorRecord, key: VisitorRecord -> string, k: string, mobile: bool)
    ensures Count(recs + [r], key, k, mobile)
            == Count(recs, key, k, mobile) + (if key(r) == k && IsMobile(r) == mobile then 1 else 0)
  {
    assert (recs + [r])[..|recs|] == recs;
  }

  /** The last key of a distinct list is not among the others, and the others are distinct. */
  lemma DistinctLast(ks: seq<string>)
    requires ks != [] && Distinct(ks)
    ensures Distinct(ks[..|ks| - 1])
    ensures ks[|ks| - 1] !in ks[..|ks| - 1]
    ensures forall x :: x in ks <==> x in ks[..|ks| - 1] || x == ks[|ks| - 1]
  {
    var init := ks[..|ks| - 1];
    assert ks == init + [ks[|ks| - 1]];
    forall i | 0 <= i < |init| ensures init[i] != ks[|ks| - 1] {
      assert init[i] == ks[i];
    }
  }

  /** One more record adds one to the column of its kind, if its key is among `ks`. */
  lemma {:induction false} ColumnStep(recs: seq<VisitorRecord>, r: VisitorRecord, key: VisitorRecord -> string, ks: seq<string>, mobile: bool)
    requires Distinct(ks)
    ensures Column(RowsFor(recs + [r], key, ks), mobile)
            == Column(RowsFor(recs, key, ks), mobile) + (if key(r) in ks && IsMobile(r) == mobile then 1 else 0)
    decreases |ks|
  {
    if ks != [] {
      var init := ks[..|ks| - 1];
      var k := ks[|ks| - 1];
      DistinctLast(ks);
      ColumnStep(recs, r, key, init, mobile);
      var a := RowsFor(recs + [r], key, init);
      var b := RowsFor(recs, key, init);
      var x := RowOf(recs + [r], key, k);
      var y := RowOf(recs, key, k);
      assert RowsFor(recs + [r], key, ks) == a + [x];
      assert RowsFor(recs, key, ks) == b + [y];
      ColumnAppend(a, x, mobile);
      ColumnAppend(b, y, mobile);
      CountStep(recs, r, key, k, mobile);
    }
  }

  /** Every record is mobile or not. */
  lemma {:induction false} CountAllSplit(recs: seq<VisitorRecord>)
    ensures CountAll(recs, true) + CountAll(recs, false) == |recs|
    decreases |recs|
  {
    if recs != [] {
      CountAllSplit(recs[..|recs| - 1]);
    }
  }

  /** The step of the conservation proof for a record whose key is new. */
  lemma NewKeyColumn(init: seq<VisitorRecord>, r: VisitorRecord, key: VisitorRecord -> string, mobile: bool)
    requires key(r) !in Keys(init, key)
    ensures Column(Tally(init + [r], key), mobile)
            == Column(RowsFor(init + [r], key, Keys(init, key)), mobile) + (if IsMobile(r) == mobile then 1 else 0)
  {
    var recs := init + [r];
    var ks := Keys(init, key);
    assert recs[..|recs| - 1] == init;
    assert Keys(recs, key) == ks + [key(r)];
    CountOutsideKeys(init, key, key(r), mobile);
    assert RowOf(recs, key, key(r)) == Row(key(r), Count(recs, key, key(r), false), Count(recs, key, key(r), true));
    assert (ks + [key(r)])[..|ks|] == ks;
    assert RowsFor(recs, key, ks + [key(r)]) == RowsFor(recs, key, ks) + [RowOf(recs, key, key(r))];
    ColumnAppend(RowsFor(recs, key, ks), RowOf(recs, key, key(r)), mobile);
  }

  /**
   * Conservation: the mobile column sums to the number of mobile records and
   * the desktop column to all the others, so together they count every record.
   */
  lemma {:induction false} TallyConserves(recs: seq<VisitorRecord>, key: VisitorRecord -> string, mobile: bool)
    ensures Column(Tally(recs, key), mobile) == CountAll(recs, mobile)
    ensures CountAll(recs, true) + CountAll(recs, false) == |recs|
    decreases |recs|
  {
    CountAllSplit(recs);
    if recs != [] {
      var init := recs[..|recs| - 1];
      var r := recs[|recs| - 1];
      assert recs == init + [r];
      TallyConserves(init, key, mobile);
      var ks := Keys(init, key);
      KeysFacts(init, key);
      ColumnStep(init, r, key, ks, mobile);
      if key(r) !in ks {
        NewKeyColumn(init, r, key, mobile);
      } else {
        assert Keys(recs, key) == ks;
      }
    }
  }

  /** Every row counts at least one record. */
  lemma {:induction false} RowsNonEmpty(recs: seq<VisitorRecord>, key: VisitorRecord -> string, k: string)
    requires k in Keys(recs, key)
    ensures Count(recs, key, k, false) + Count(recs, key, k, true) >= 1
    decreases |recs|
  {
    var init := recs[..|recs| - 1];
    var r := recs[|recs| - 1];
    if k in Keys(init, key) {
      RowsNonEmpty(init, key, k);
    }
  }

  /**
   * The rows of a tally: one per distinct key (no two rows share a key, and
   * every record's key has a row), each counting at least one record.
   */
  lemma TallyRows(recs: seq<VisitorRecord>, key: VisitorRecord -> string)
    ensures var rows := Tally(recs, key);
            && (forall i, j :: 0 <= i < j < |rows| ==> rows[i].key != rows[j].key)
            && (forall r :: r in recs ==> exists i :: 0 <= i < |rows| && rows[i].key == key(r))
            && (forall i :: 0 <= i < |rows| ==> rows[i].desktop + rows[i].mobile >= 1)
  {
    var rows := Tally(recs, key);
    var ks := Keys(recs, key);
    KeysFacts(recs, key);
    forall r | r in recs ensures exists i :: 0 <= i < |rows| && rows[i].key == key(r) {
      assert key(r) in ks;
      var i :| 0 <= i < |ks| && ks[i] == key(r);
      assert rows[i].key == key(r);
    }
    forall i | 0 <= i < |rows| ensures rows[i].desktop + rows[i].mobile >= 1 {
      RowsNonEmpty(recs, key, ks[i]);
    }
  }

  lemma {:induction false} ColumnConcat(p: seq<Row>, q: seq<Row>, mobile: bool)
    ensures Column(p + q, mobile) == Column(p, mobile) + Column(q, mobile)
    decreases |q|
  {
    if q == [] {
      assert p + q == p;
    } else {
      var q' := q[..|q| - 1];
      ColumnConcat(p, q', mobile);
      assert p + q == (p + q') + [q[|q| - 1]];
      ColumnAppend(p + q', q[|q| - 1], mobile);
    }
  }

  /** Taking one row out of a list takes its cell out of the column total. */
  lemma ColumnRemove(b: seq<Row>, j: int, mobile: bool)
    requires 0 <= j < |b|
    ensures Column(b, mobile) == Column(b[..j] + b[j + 1..], mobile) + (if mobile then b[j].mobile else b[j].desktop)
  {
    assert b == b[..j] + [b[j]] + b[j + 1..];
    ColumnConcat(b[..j] + [b[j]], b[j + 1..], mobile);
    ColumnAppend(b[..j], b[j], mobile);
    ColumnConcat(b[..j], b[j + 1..], mobile);
  }

  lemma MultisetRemove(b: seq<Row>, j: int)
    requires 0 <= j < |b|
    ensures multiset(b[..j] + b[j + 1..]) == multiset(b) - multiset{b[j]}
  {
    assert b == b[..j] + [b[j]] + b[j + 1..];
  }

  /** A column total does not depend on the order of the rows. */
  lemma {:induction false} ColumnPermutation(a: seq<Row>, b: seq<Row>, mobile: bool)
    requires multiset(a) == multiset(b)
    ensures Column(a, mobile) == Column(b, mobile)
    decreases |a|
  {
    if a == [] {
      assert |b| == |multiset(b)| == 0;
    } else {
      var x := a[|a| - 1];
      var a' := a[..|a| - 1];
      assert a == a' + [x];
      assert x in multiset(b);
      var j :| 0 <= j < |b| && b[j] == x;
      MultisetRemove(b, j);
      assert multiset(a') == multiset(a) - multiset{x};
      ColumnPermutation(a', b[..j] + b[j + 1..], mobile);
      ColumnRemove(b, j, mobile);
      ColumnAppend(a', x, mobile);
    }
  }

  /**
   * A tally sorted by a rank: rows in rank order, one per distinct key (every
   * record's key has a row), each counting at least one record, and columns
   * summing to the mobile and other records.
   */
  lemma SortedTallyFacts(recs: seq<VisitorRecord>, key: VisitorRecord -> string, rank: Row -> real)
    ensures var chart := SortBy(Tally(recs, key), rank);
            && SortedBy(chart, rank)
            && (forall i, j :: 0 <= i < j < |chart| ==> chart[i].key != chart[j].key)
            && (forall r :: r in recs ==> exists i :: 0 <= i < |chart| && chart[i].key == key(r))
            && (forall i :: 0 <= i < |chart| ==> chart[i].desktop + chart[i].mobile >= 1)
            && Column(chart, false) == CountAll(recs, false)
            && Column(chart, true) == CountAll(recs, true)
            && Column(chart, false) + Column(chart, true) == |recs|
  {
    SortedTallyRows(recs, key, rank);
    SortedTallyColumns(recs, key, rank);
  }

  /** The rows part of the facts above. */
  lemma SortedTallyRows(recs: seq<VisitorRecord>, key: VisitorRecord -> string, rank: Row -> real)
    ensures var chart := SortBy(Tally(recs, key), rank);
            && SortedBy(chart, rank)
            && (forall i, j :: 0 <= i < j < |chart| ==> chart[i].key != chart[j].key)
            && (forall r :: r in recs ==> exists i :: 0 <= i < |chart| && chart[i].key == key(r))
            && (forall i :: 0 <= i < |chart| ==> chart[i].desktop + chart[i].mobile >= 1)
  {
    var rows := Tally(recs, key);
    var chart := SortBy(rows, rank);
    TallyRows(recs, key);
    SortByFacts(rows, rank);
    SortByKeepsDistinct(rows, rank, (row: Row) => row.key);
    forall r | r in recs ensures exists i :: 0 <= i < |chart| && chart[i].key == key(r) {
      var i :| 0 <= i < |rows| && rows[i].key == key(r);
      assert rows[i] in multiset(chart);
      var i' :| 0 <= i' < |chart| && chart[i'] == rows[i];
    }
    forall i | 0 <= i < |chart| ensures chart[i].desktop + chart[i].mobile >= 1 {
      assert chart[i] in multiset(rows);
      var i' :| 0 <= i' < |rows| && rows[i'] == chart[i];
    }
  }

  /** The column part of the facts above. */
  lemma SortedTallyColumns(recs: seq<VisitorRecord>, key: VisitorRecord -> string, rank: Row -> real)
    ensures var chart := SortBy(Tally(recs, key), rank);
            && Column(chart, false) == CountAll(recs, false)
            && Column(chart, true) == CountAll(recs, true)
            && Column(chart, false) + Column(chart, true) == |recs|
  {
    var rows := Tally(recs, key);
    var chart := SortBy(rows, rank);
    SortByFacts(rows, rank);
    TallyConserves(recs, key, false);
    TallyConserves(recs, key, true);
    ColumnPermutation(rows, chart, false);
    ColumnPermutation(rows, chart, true);
  }

  /** Keys of one more record: its key is appended when it is new. */
  lemma KeysStep(recs: seq<VisitorRecord>, r: VisitorRecord, key: VisitorRecord -> string)
    ensures Keys(recs + [r], key) == if key(r) in Keys(recs, key) then Keys(recs, key) else Keys(recs, key) + [key(r)]
  {
    assert (recs + [r])[..|recs|] == recs;
  }

  /** The counters after some records: their keys in first-appearance order and each key's two counts. */
  ghost predicate Counted(recs: seq<VisitorRecord>, key: VisitorRecord -> string, order: seq<string>, counts: map<string, (nat, nat)>)
  {
    && order == Keys(recs, key)
    && (forall k :: k in counts <==> k in order)
    && (forall k :: k in counts ==> counts[k] == (Count(recs, key, k, false), Count(recs, key, k, true)))
  }

  /** `acc[key] ??= {desktop: 0, mobile: 0}` followed by the increment of the record's kind. */
  function Bump(counts: map<string, (nat, nat)>, k: string, mobile: bool): map<string, (nat, nat)>
  {
    var c := if k in counts then counts[k] else (0, 0);
    counts[k := if mobile then (c.0, c.1 + 1) else (c.0 + 1, c.1)]
  }

  /** Counting one more record keeps the counters exact. */
  lemma CountedStep(recs: seq<VisitorRecord>, r: VisitorRecord, key: VisitorRecord -> string,
                    order: seq<string>, counts: map<string, (nat, nat)>)
    requires Counted(recs, key, order, counts)
    ensures Counted(recs + [r], key, if key(r) in counts then order else order + [key(r)], Bump(counts, key(r), IsMobile(r)))
  {
    KeysStep(recs, r, key);
    var k := key(r);
    if k !in counts {
      CountOutsideKeys(recs, key, k, false);
      CountOutsideKeys(recs, key, k, true);
    }
    var counts' := Bump(counts, k, IsMobile(r));
    forall k' | k' in counts'
      ensures counts'[k'] == (Count(recs + [r], key, k', false), Count(recs + [r], key, k', true))
    {
      CountStep(recs, r, key, k', false);
      CountStep(recs, r, key, k', true);
    }
  }

  /** The counters after the records, built record by record. */
  function CountsMap(recs: seq<VisitorRecord>, key: VisitorRecord -> string): map<string, (nat, nat)>
  {
    if recs == [] then map[]
    else Bump(CountsMap(recs[..|recs| - 1], key), key(recs[|recs| - 1]), IsMobile(recs[|recs| - 1]))
  }

  /** The counters hold exactly the keys, each with its two counts. */
  lemma {:induction false} CountsMapFacts(recs: seq<VisitorRecord>, key: VisitorRecord -> string)
    ensures Counted(recs, key, Keys(recs, key), CountsMap(recs, key))
    decreases |recs|
  {
    if recs != [] {
      var init := recs[..|recs| - 1];
      var r := recs[|recs| - 1];
      CountsMapFacts(init, key);
      CountedStep(init, r, key, Keys(init, key), CountsMap(init, key));
      assert recs == init + [r];
    }
  }

  lemma CountsMapKeys(recs: seq<VisitorRecord>, key: VisitorRecord -> string)
    ensures forall k :: k in CountsMap(recs, key) <==> k in Keys(recs, key)
  {
    CountsMapFacts(recs, key);
  }

  /**
   * The `forEach` loop: a dictionary of counters filled record by record;
   * `order` is the dictionary's insertion order.
   */
  method CountRecords(recs: seq<VisitorRecord>, key: VisitorRecord -> string)
    returns (order: seq<string>, counts: map<string, (nat, nat)>)
    ensures order == Keys(recs, key) && counts == CountsMap(recs, key)
  {
    order := [];
    counts := map[];
    var i := 0;
    while i < |recs|
      invariant 0 <= i <= |recs|
      invariant order == Keys(recs[..i], key)
      invariant counts == CountsMap(recs[..i], key)
    {
      var r := recs[i];
      var k := key(r);
      CountsMapKeys(recs[..i], key);
      assert recs[..i + 1][..i] == recs[..i] && recs[..i + 1][i] == r;
      var c := (0, 0);
      if k in counts {
        c := counts[k];
      } else {
        order := order + [k];
      }
      if IsMobile(r) {
        counts := counts[k := (c.0, c.1 + 1)];
      } else {
        counts := counts[k := (c.0 + 1, c.1)];
      }
      i := i + 1;
    }
    assert recs[..i] == recs;
  }

  /** The counters' entries, in insertion order, become the rows: exactly the tally. */
  method CountByKey(recs: seq<VisitorRecord>, key: VisitorRecord -> string) returns (rows: seq<Row>)
    ensures rows == Tally(recs, key)
  {
    var order, counts := CountRecords(recs, key);
    CountsMapFacts(recs, key);
    rows := [];
    var j := 0;
    while j < |order|
      invariant 0 <= j <= |order|
      invariant rows == RowsFor(recs, key, order[..j])
    {
      var k := order[j];
      rows := rows + [Row(k, counts[k].0, counts[k].1)];
      j := j + 1;
      assert order[..j][..j - 1] == order[..j - 1];
    }
    assert order[..j] == order;
  }
}
