/** Values and small JavaScript conventions shared by every module of the model. */
module Common {

  /** A value that may be `null` or `undefined` (None) in the application. */
  datatype Option<+T> = None | Some(value: T)

  /** A JavaScript number that may be `null`/`undefined`. NaN is not represented here. */
  type Num = Option<real>

  /** JavaScript truthiness of a possibly missing string: present and non-empty. */
  predicate Truthy(s: Option<string>)
  {
    s.Some? && s.value != ""
  }

  /** JavaScript truthiness of a possibly missing number: present and non-zero. */
  predicate TruthyNum(n: Num)
  {
    n.Some? && n.value != 0.0
  }

  /** The expression `s || d` on a possibly missing string. */
  function OrDefault(s: Option<string>, d: string): string
  {
    if Truthy(s) then s.value else d
  }

  /** The expression `s ?? d`: only a missing value is replaced. */
  function Nullish<T>(s: Option<T>, d: T): T
  {
    if s.Some? then s.value else d
  }

  function Min(a: int, b: int): int
  {
    if a <= b then a else b
  }

  /**
   * The display rule `s.length > n ? s.slice(0, n) + "..." : s` used for
   * place names and descriptions.
   */
  function Truncate(s: string, n: nat): string
  {
    if |s| > n then s[..n] + "..." else s
  }

  /** What a reader sees of a truncated text: its first characters, and "..." when cut. */
  lemma TruncateShape(s: string, n: nat)
    ensures |Truncate(s, n)| <= n + 3
    ensures |Truncate(s, n)| >= Min(|s|, n)
    ensures Truncate(s, n)[..Min(|s|, n)] == s[..Min(|s|, n)]
    ensures |s| <= n ==> Truncate(s, n) == s
    ensures |s| > n ==> |Truncate(s, n)| == n + 3 && Truncate(s, n)[n..] == "..."
  {
  }

  /** ASCII lower-casing of one character (an abstraction of `toLowerCase`). */
  function LowerChar(c: char): (r: char)
    ensures 'A' <= c <= 'Z' ==> 'a' <= r <= 'z'
    ensures !('A' <= c <= 'Z') ==> r == c
  {
    if 'A' <= c <= 'Z' then (c as int + 32) as char else c
  }

  function UpperChar(c: char): (r: char)
  {
    if 'a' <= c <= 'z' then (c as int - 32) as char else c
  }

  function Lower(s: string): (r: string)
    ensures |r| == |s|
    ensures forall i :: 0 <= i < |s| ==> r[i] == LowerChar(s[i])
  {
    seq(|s|, i requires 0 <= i < |s| => LowerChar(s[i]))
  }

  function Upper(s: string): (r: string)
    ensures |r| == |s|
    ensures forall i :: 0 <= i < |s| ==> r[i] == UpperChar(s[i])
  {
    seq(|s|, i requires 0 <= i < |s| => UpperChar(s[i]))
  }

  /** Lower-casing forgets every earlier change of case. */
  lemma LowerOfUpper(s: string)
    ensures Lower(Upper(s)) == Lower(s)
  {
    forall i | 0 <= i < |s| ensures Lower(Upper(s))[i] == Lower(s)[i] {
      var c := s[i];
      if 'a' <= c <= 'z' {
        assert UpperChar(c) == (c as int - 32) as char;
      }
    }
  }

  lemma LowerIdempotent(s: string)
    ensures Lower(Lower(s)) == Lower(s)
  {
  }
}
