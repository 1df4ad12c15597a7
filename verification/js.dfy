/** The request-body values the two controllers inspect, and the JavaScript
    built-ins they call on arrays (`find`, `findIndex`, `splice`), as values. */
module Js {

  datatype Option<+T> = None | Some(value: T)

  /** A request-body value read where a controller expects a number (a dish's
      `price`, an ordered dish's `quantity`). Three cases decide every test the
      controllers make on such a value:
      - Missing: a falsy value that is not an integer number (undefined, null, NaN, "", false);
      - IntVal(n): a number for which `Number.isInteger` holds (IntVal(0) is falsy);
      - NonInteger: a truthy value that is not an integer number (5.5, "5", an object). */
  datatype Num = Missing | IntVal(n: int) | NonInteger

  /** `Boolean(x)`. */
  predicate Truthy(x: Num) {
    match x
    case Missing => false
    case IntVal(n) => n != 0
    case NonInteger => true
  }

  /** `x && x > 0 && Number.isInteger(x)`, in either order of the last two tests:
      only an integer number passes `Number.isInteger`. */
  predicate PositiveInteger(x: Num) {
    Truthy(x) && x.IntVal? && x.n > 0
  }

  /** `s && s.length > 0` for an optional string: a string is truthy exactly when it is non-empty. */
  predicate Filled(s: Option<string>) {
    s.Some? && |s.value| > 0
  }

  /** `Array.prototype.findIndex`: the first index whose element satisfies `p`, or -1. */
  function FindIndex<T>(s: seq<T>, p: T -> bool): (k: int)
    ensures -1 <= k < |s|
    ensures k >= 0 ==> p(s[k]) && forall i :: 0 <= i < k ==> !p(s[i])
    ensures k == -1 <==> forall i :: 0 <= i < |s| ==> !p(s[i])
  {
    if s == [] then -1
    else if p(s[0]) then 0
    else
      var k := FindIndex(s[1..], p);
      if k == -1 then -1 else k + 1
  }

  /** `Array.prototype.find`: the first element that satisfies `p`, if any. */
  function Find<T>(s: seq<T>, p: T -> bool): (r: Option<T>)
    ensures r.None? <==> forall i :: 0 <= i < |s| ==> !p(s[i])
    ensures r.Some? ==> p(r.value) && exists k :: 0 <= k < |s| && s[k] == r.value && forall i :: 0 <= i < k ==> !p(s[i])
  {
    var k := FindIndex(s, p);
    if k == -1 then None else Some(s[k])
  }

  function Min(a: int, b: int): int { if a <= b then a else b }
  function Max(a: int, b: int): int { if a <= b then b else a }

  /** The array that `s.splice(start, deleteCount, ...items)` leaves behind: a
      negative `start` counts from the end (and stops at 0), a `start` past the end
      is the end, and at most the elements that exist are deleted. */
  function Splice<T>(s: seq<T>, start: int, deleteCount: nat, items: seq<T>): (r: seq<T>)
    ensures var from := if start < 0 then Max(|s| + start, 0) else Min(start, |s|);
            var deleted := Min(deleteCount, |s| - from);
            && |r| == |s| - deleted + |items|
            && r[..from] == s[..from]
            && r[from..from + |items|] == items
            && r[from + |items|..] == s[from + deleted..]
  {
    var from := if start < 0 then Max(|s| + start, 0) else Min(start, |s|);
    var deleted := Min(deleteCount, |s| - from);
    s[..from] + items + s[from + deleted..]
  }

  /** `s.splice(k, 1, x)` with an index `k` of `s` replaces exactly the element at `k`. */
  lemma SpliceReplaceAt<T>(s: seq<T>, k: int, x: T)
    requires 0 <= k < |s|
    ensures Splice(s, k, 1, [x]) == s[k := x]
  {
    var r := Splice(s, k, 1, [x]);
    assert forall i :: 0 <= i < k ==> r[i] == r[..k][i] == s[..k][i];
    assert forall i :: k < i < |s| ==> r[i] == r[k + 1..][i - k - 1] == s[k + 1..][i - k - 1];
  }

  /** `s.splice(-1, 1, x)` replaces the last element, or on an empty array just inserts `x`. */
  lemma SpliceReplaceLast<T>(s: seq<T>, x: T)
    ensures s != [] ==> Splice(s, -1, 1, [x]) == s[|s| - 1 := x]
    ensures s == [] ==> Splice(s, -1, 1, [x]) == [x]
  {
    if s != [] {
      SpliceReplaceAt(s, |s| - 1, x);
    }
  }

  /** `s.splice(k, 1)` with an index `k` of `s` drops exactly the element at `k`. */
  lemma SpliceRemoveAt<T>(s: seq<T>, k: int)
    requires 0 <= k < |s|
    ensures Splice(s, k, 1, []) == s[..k] + s[k + 1..]
  {
  }

  /** The number a string of decimal digits denotes, read left to right. */
  function DigitsValue(s: string): nat
    requires forall i :: 0 <= i < |s| ==> '0' <= s[i] <= '9'
  {
    if s == [] then 0
    else 10 * DigitsValue(s[..|s| - 1]) + (s[|s| - 1] as int - '0' as int)
  }

  /** The decimal digits of `n`, as a template literal `${n}` prints a non-negative
      integer: digits only, no leading zero, and reading them back gives `n`. */
  function NatToString(n: nat): (s: string)
    ensures |s| >= 1
    ensures forall i :: 0 <= i < |s| ==> '0' <= s[i] <= '9'
    ensures |s| > 1 ==> s[0] != '0'
    ensures DigitsValue(s) == n
  {
    if n < 10 then ["0123456789"[n]]
    else
      var front := NatToString(n / 10);
      var s := front + ["0123456789"[n % 10]];
      assert s[..|s| - 1] == front;
      s
  }
}
