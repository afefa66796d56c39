/** The two JavaScript array built-ins the cart store relies on, as functions
    on sequences: `Array.prototype.indexOf` and `Array.prototype.splice`.
    Elements are compared with `==`; for objects (class references) that is
    identity, which is what JavaScript's strict equality `===` tests. */
module ArrayBuiltins {

  /** `s.indexOf(x)`: the index of the first element strictly equal to `x`,
      or -1 when there is none. */
  function IndexOf<T(==)>(s: seq<T>, x: T): (i: int)
    ensures -1 <= i < |s|
    ensures i == -1 <==> x !in s
    ensures 0 <= i ==> s[i] == x && x !in s[..i]
  {
    if s == [] then -1
    else if s[0] == x then 0
    else
      var j := IndexOf(s[1..], x);
      assert s == [s[0]] + s[1..];
      if j == -1 then -1
      else
        assert s[..j + 1] == [s[0]] + s[1..][..j];
        j + 1
  }

  /** Where `splice(start, …)` begins on an array of length `len`: a negative
      `start` counts back from the end (and stops at 0), a positive one stops
      at the end. */
  function SpliceStart(len: nat, start: int): (k: nat)
    ensures k <= len
    ensures 0 <= start <= len ==> k == start
    ensures start < 0 && 0 <= len + start ==> k == len + start
    ensures len + start < 0 ==> k == 0
    ensures len < start ==> k == len
  {
    if start < 0 then (if len + start < 0 then 0 else len + start)
    else if start < len then start
    else len
  }

  /** How many elements `splice(start, deleteCount)` removes: `deleteCount`
      clamped to what lies between the start and the end. */
  function SpliceCount(len: nat, start: int, deleteCount: int): (d: nat)
    ensures SpliceStart(len, start) + d <= len
    ensures 0 <= deleteCount <= len - SpliceStart(len, start) ==> d == deleteCount
    ensures deleteCount <= 0 ==> d == 0
    ensures len - SpliceStart(len, start) < deleteCount ==> d == len - SpliceStart(len, start)
  {
    var k := SpliceStart(len, start);
    if deleteCount < 0 then 0
    else if deleteCount < len - k then deleteCount
    else len - k
  }

  /** The contents of the array after `s.splice(start, deleteCount)` (the
      array of removed elements that `splice` returns is not needed here):
      the elements before the start stay in place and the elements after
      the removed block move down by the number removed. */
  function Spliced<T>(s: seq<T>, start: int, deleteCount: int): (r: seq<T>)
    ensures |r| == |s| - SpliceCount(|s|, start, deleteCount)
    ensures forall i :: 0 <= i < SpliceStart(|s|, start) ==> r[i] == s[i]
    ensures forall i :: SpliceStart(|s|, start) <= i < |r| ==>
              r[i] == s[i + SpliceCount(|s|, start, deleteCount)]
  {
    var k := SpliceStart(|s|, start);
    var d := SpliceCount(|s|, start, deleteCount);
    s[..k] + s[k + d..]
  }

  /** `splice(i, 1)` with `i` a valid index removes exactly the element at `i`. */
  lemma SpliceOneAt<T>(s: seq<T>, i: nat)
    requires i < |s|
    ensures Spliced(s, i, 1) == s[..i] + s[i + 1..]
  {
  }

  /** `splice(-1, 1)` removes the last element of a non-empty array and
      leaves an empty one empty. */
  lemma SpliceOneFromEnd<T>(s: seq<T>)
    ensures s == [] ==> Spliced(s, -1, 1) == []
    ensures s != [] ==> Spliced(s, -1, 1) == s[..|s| - 1]
  {
  }
}
