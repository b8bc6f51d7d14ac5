/**
 * The query-parameter object of the browser (`URLSearchParams`), as section 6.2
 * of the WHATWG URL Standard defines it: an ordered list of name/value pairs in
 * which a name may occur several times. `get` returns the first value, `set`
 * overwrites the first pair and removes the later ones (or appends when the name
 * is absent), and `delete` removes every pair with that name.
 */
module UrlSearchParams {
  import opened Common

  type Entry = (string, string)
  type Params = seq<Entry>

  predicate HasKey(p: Params, k: string)
  {
    exists i :: 0 <= i < |p| && p[i].0 == k
  }

  /** A name occurs in a non-empty list iff it is the first name or occurs in the rest. */
  lemma HasKeyTail(p: Params, k: string)
    requires p != []
    ensures HasKey(p, k) <==> (p[0].0 == k || HasKey(p[1..], k))
  {
    if HasKey(p[1..], k) {
      var i :| 0 <= i < |p[1..]| && p[1..][i].0 == k;
      assert p[i + 1].0 == k;
    }
    if HasKey(p, k) && p[0].0 != k {
      var i :| 0 <= i < |p| && p[i].0 == k;
      assert p[1..][i - 1].0 == k;
    }
  }

  /** `params.get(k)`: the value of the first pair named k, or null. */
  function GetParam(p: Params, k: string): Option<string>
  {
    if p == [] then None
    else if p[0].0 == k then Some(p[0].1)
    else GetParam(p[1..], k)
  }

  /** `get` finds a value exactly when the name occurs, and it is the first occurrence's. */
  lemma {:induction false} GetParamSpec(p: Params, k: string)
    ensures GetParam(p, k).Some? <==> HasKey(p, k)
    ensures GetParam(p, k).Some? ==>
              exists i :: 0 <= i < |p| && p[i] == (k, GetParam(p, k).value)
                          && forall j :: 0 <= j < i ==> p[j].0 != k
  {
    if p != [] && p[0].0 != k {
      GetParamSpec(p[1..], k);
      HasKeyTail(p, k);
      var r := GetParam(p, k);
      if r.Some? {
        var i :| 0 <= i < |p[1..]| && p[1..][i] == (k, r.value)
                 && forall j :: 0 <= j < i ==> p[1..][j].0 != k;
        assert p[i + 1] == (k, r.value);
        forall j | 0 <= j < i + 1 ensures p[j].0 != k {
          if j > 0 { assert p[j] == p[1..][j - 1]; }
        }
      }
    }
  }

  /** The pairs of p whose name is not in ks, in their original order. */
  function Drop(p: Params, ks: set<string>): (r: Params)
    ensures |r| <= |p|
    ensures forall e :: e in r <==> e in p && e.0 !in ks
  {
    if p == [] then []
    else (if p[0].0 in ks then [] else [p[0]]) + Drop(p[1..], ks)
  }

  /** `params.delete(k)`. */
  function DeleteParam(p: Params, k: string): Params
  {
    Drop(p, {k})
  }

  /** Replace the first pair named k by (k, v) and remove the later ones. */
  function SetFirst(p: Params, k: string, v: string): Params
  {
    if p == [] then []
    else if p[0].0 == k then [(k, v)] + DeleteParam(p[1..], k)
    else [p[0]] + SetFirst(p[1..], k, v)
  }

  /** `params.set(k, v)`. */
  function SetParam(p: Params, k: string, v: string): Params
  {
    if HasKey(p, k) then SetFirst(p, k, v) else p + [(k, v)]
  }

  /** Number of pairs named k. */
  function Count(p: Params, k: string): nat
  {
    if p == [] then 0 else (if p[0].0 == k then 1 else 0) + Count(p[1..], k)
  }

  // ----- lemmas -----------------------------------------------------------

  lemma {:induction false} DropAppend(p: Params, q: Params, ks: set<string>)
    ensures Drop(p + q, ks) == Drop(p, ks) + Drop(q, ks)
  {
    if p != [] {
      assert (p + q)[0] == p[0];
      assert (p + q)[1..] == p[1..] + q;
      DropAppend(p[1..], q, ks);
    } else {
      assert p + q == q;
    }
  }

  lemma {:induction false} DropDrop(p: Params, a: set<string>, b: set<string>)
    ensures Drop(Drop(p, a), b) == Drop(p, a + b)
  {
    if p != [] {
      DropDrop(p[1..], a, b);
      if p[0].0 in a {
        assert Drop(p, a) == Drop(p[1..], a);
        assert Drop(p, a + b) == Drop(p[1..], a + b);
      } else {
        assert Drop(p, a) == [p[0]] + Drop(p[1..], a);
        assert ([p[0]] + Drop(p[1..], a))[1..] == Drop(p[1..], a);
      }
    }
  }

  lemma {:induction false} DropNoKey(p: Params, ks: set<string>)
    requires forall i :: 0 <= i < |p| ==> p[i].0 !in ks
    ensures Drop(p, ks) == p
  {
    if p != [] {
      DropNoKey(p[1..], ks);
    }
  }

  lemma {:induction false} CountDrop(p: Params, ks: set<string>, k: string)
    ensures k in ks ==> Count(Drop(p, ks), k) == 0
    ensures k !in ks ==> Count(Drop(p, ks), k) == Count(p, k)
  {
    if p != [] {
      CountDrop(p[1..], ks, k);
      CountAppend((if p[0].0 in ks then [] else [p[0]]), Drop(p[1..], ks), k);
    }
  }

  lemma {:induction false} CountAppend(p: Params, q: Params, k: string)
    ensures Count(p + q, k) == Count(p, k) + Count(q, k)
  {
    if p != [] {
      assert (p + q)[0] == p[0];
      assert (p + q)[1..] == p[1..] + q;
      CountAppend(p[1..], q, k);
    } else {
      assert p + q == q;
    }
  }

  lemma {:induction false} CountZero(p: Params, k: string)
    requires !HasKey(p, k)
    ensures Count(p, k) == 0
  {
    if p != [] {
      HasKeyTail(p, k);
      CountZero(p[1..], k);
    }
  }

  lemma {:induction false} GetDrop(p: Params, ks: set<string>, k: string)
    ensures k !in ks ==> GetParam(Drop(p, ks), k) == GetParam(p, k)
    ensures k in ks ==> GetParam(Drop(p, ks), k) == None
  {
    if p != [] {
      GetDrop(p[1..], ks, k);
      if p[0].0 in ks {
        assert Drop(p, ks) == Drop(p[1..], ks);
      } else {
        assert Drop(p, ks) == [p[0]] + Drop(p[1..], ks);
      }
    }
  }

  lemma {:induction false} GetAppendAbsent(p: Params, q: Params, k: string)
    requires !HasKey(p, k)
    ensures GetParam(p + q, k) == GetParam(q, k)
  {
    if p != [] {
      assert (p + q)[0] == p[0];
      assert (p + q)[1..] == p[1..] + q;
      HasKeyTail(p, k);
      GetAppendAbsent(p[1..], q, k);
    } else {
      assert p + q == q;
    }
  }

  lemma {:induction false} GetAppendPresent(p: Params, q: Params, k: string)
    requires HasKey(p, k)
    ensures GetParam(p + q, k) == GetParam(p, k)
  {
    assert (p + q)[0] == p[0];
    if p[0].0 != k {
      assert (p + q)[1..] == p[1..] + q;
      HasKeyTail(p, k);
      GetAppendPresent(p[1..], q, k);
    }
  }

  lemma {:induction false} SetFirstFacts(p: Params, k: string, v: string, other: string)
    requires HasKey(p, k)
    requires other != k
    ensures GetParam(SetFirst(p, k, v), k) == Some(v)
    ensures GetParam(SetFirst(p, k, v), other) == GetParam(p, other)
    ensures Count(SetFirst(p, k, v), k) == 1
  {
    if p[0].0 == k {
      GetDrop(p[1..], {k}, other);
      CountDrop(p[1..], {k}, k);
    } else {
      HasKeyTail(p, k);
      SetFirstFacts(p[1..], k, v, other);
    }
  }

  lemma {:induction false} DropSetFirst(p: Params, k: string, v: string, ks: set<string>)
    requires k in ks
    ensures Drop(SetFirst(p, k, v), ks) == Drop(p, ks)
  {
    if p != [] {
      if p[0].0 == k {
        DropAppend([(k, v)], DeleteParam(p[1..], k), ks);
        DropDrop(p[1..], {k}, ks);
        assert {k} + ks == ks;
      } else {
        DropAppend([p[0]], SetFirst(p[1..], k, v), ks);
        DropSetFirst(p[1..], k, v, ks);
      }
    }
  }

  /** After `set(k, v)`, `get(k)` answers v and the name occurs exactly once. */
  lemma SetThenGet(p: Params, k: string, v: string)
    ensures GetParam(SetParam(p, k, v), k) == Some(v)
    ensures Count(SetParam(p, k, v), k) == 1
  {
    if HasKey(p, k) {
      SetFirstFacts(p, k, v, k + "#");
    } else {
      GetAppendAbsent(p, [(k, v)], k);
      CountZero(p, k);
      CountAppend(p, [(k, v)], k);
    }
  }

  /** `set(k, v)` leaves every other name's answer to `get` as it was. */
  lemma SetKeepsOthers(p: Params, k: string, v: string, other: string)
    requires other != k
    ensures GetParam(SetParam(p, k, v), other) == GetParam(p, other)
  {
    if HasKey(p, k) {
      SetFirstFacts(p, k, v, other);
    } else if HasKey(p, other) {
      GetAppendPresent(p, [(k, v)], other);
    } else {
      GetAppendAbsent(p, [(k, v)], other);
      GetParamSpec(p, other);
    }
  }

  /** After `delete(k)` no pair named k is left; other names answer as before. */
  lemma DeleteThenGet(p: Params, k: string, other: string)
    ensures GetParam(DeleteParam(p, k), k) == None
    ensures Count(DeleteParam(p, k), k) == 0
    ensures other != k ==> GetParam(DeleteParam(p, k), other) == GetParam(p, other)
  {
    CountDrop(p, {k}, k);
    GetDrop(p, {k}, k);
    GetDrop(p, {k}, other);
  }

  /**
   * The pairs whose names lie outside a set containing k are untouched by
   * `set(k, v)`: same pairs, same multiplicity, same order.
   */
  lemma SetKeepsForeignPairs(p: Params, k: string, v: string, ks: set<string>)
    requires k in ks
    ensures Drop(SetParam(p, k, v), ks) == Drop(p, ks)
  {
    if HasKey(p, k) {
      DropSetFirst(p, k, v, ks);
    } else {
      DropAppend(p, [(k, v)], ks);
    }
  }

  /** The same for `delete(k)`. */
  lemma DeleteKeepsForeignPairs(p: Params, k: string, ks: set<string>)
    requires k in ks
    ensures Drop(DeleteParam(p, k), ks) == Drop(p, ks)
  {
    DropDrop(p, {k}, ks);
    assert {k} + ks == ks;
  }

  /** `set(k, v)` when a value is given, `delete(k)` when it is not. */
  function WriteParam(p: Params, k: string, v: Option<string>): Params
  {
    match v
    case Some(x) => SetParam(p, k, x)
    case None => DeleteParam(p, k)
  }

  /** What one conditional write does to `get` and to the pairs of other names. */
  lemma WriteParamFacts(p: Params, k: string, v: Option<string>, other: string, ks: set<string>)
    ensures GetParam(WriteParam(p, k, v), k) == v
    ensures other != k ==> GetParam(WriteParam(p, k, v), other) == GetParam(p, other)
    ensures k in ks ==> Drop(WriteParam(p, k, v), ks) == Drop(p, ks)
  {
    match v
    case Some(x) =>
      SetThenGet(p, k, x);
      if other != k { SetKeepsOthers(p, k, x, other); }
      if k in ks { SetKeepsForeignPairs(p, k, x, ks); }
    case None =>
      DeleteThenGet(p, k, other);
      if k in ks { DeleteKeepsForeignPairs(p, k, ks); }
  }

  /** Every pair named k carries the value o; when o is None no pair is named k. */
  predicate OnlyValue(p: Params, k: string, o: Option<string>)
  {
    forall e :: e in p && e.0 == k ==> o == Some(e.1)
  }

  lemma {:induction false} SetFirstOnly(p: Params, k: string, v: string)
    ensures OnlyValue(SetFirst(p, k, v), k, Some(v))
  {
    if p != [] {
      SetFirstOnly(p[1..], k, v);
    }
  }

  /** After a conditional write, the pairs named k carry exactly the written value. */
  lemma WriteOnlyValue(p: Params, k: string, v: Option<string>)
    ensures OnlyValue(WriteParam(p, k, v), k, v)
  {
    match v
    case Some(x) =>
      if HasKey(p, k) {
        SetFirstOnly(p, k, x);
      } else {
        assert forall i :: 0 <= i < |p| ==> p[i].0 != k;
        assert forall e :: e in p ==> e.0 != k;
      }
    case None =>
  }

  /** A write of another name leaves the pairs named k as they were. */
  lemma WriteKeepsOnlyValue(p: Params, k: string, v: Option<string>, other: string, o: Option<string>)
    requires other != k
    requires OnlyValue(p, other, o)
    ensures OnlyValue(WriteParam(p, k, v), other, o)
  {
    WriteParamFacts(p, k, v, other, {k});
    forall e | e in WriteParam(p, k, v) && e.0 == other ensures o == Some(e.1) {
      assert e in Drop(WriteParam(p, k, v), {k});
    }
  }

  /**
   * A `URLSearchParams` object. The form handlers copy the current parameters
   * into a new object and update it step by step.
   */
  class SearchParams {
    var list: Params

    /** `new URLSearchParams(init)`: a copy of init's pairs. */
    constructor (init: Params)
      ensures list == init
    {
      list := init;
    }

    method Get(k: string) returns (r: Option<string>)
      ensures r == GetParam(list, k)
    {
      r := GetParam(list, k);
    }

    method Set(k: string, v: string)
      modifies this
      ensures list == SetParam(old(list), k, v)
    {
      list := SetParam(list, k, v);
    }

    method Delete(k: string)
      modifies this
      ensures list == DeleteParam(old(list), k)
    {
      list := DeleteParam(list, k);
    }
  }
}
