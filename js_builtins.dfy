/** The few JavaScript built-ins the core relies on, with their index rules:
    `String.prototype.substring` clamps both bounds into the string and swaps
    them when they are out of order, and `indexOf` answers -1 when the element
    is absent. Strings here are sequences of characters, not of the UTF-16
    code units JavaScript indexes by. `Option` stands for a value that may be
    `null` or `undefined`. */
module JsBuiltins {

  datatype Option<+T> = None | Some(value: T)

  /** `substring` first clamps an index into `[0, len]`. */
  function Clamp(i: int, len: nat): (r: nat)
    ensures r <= len
    ensures 0 <= i <= len ==> r == i
    ensures i < 0 ==> r == 0
    ensures len < i ==> r == len
  {
    if i < 0 then 0 else if i > len then len else i
  }

  /** `s.substring(start, end)`: the characters between the two clamped
      indices, whichever of them is the smaller. */
  function Substring(s: string, start: int, end: int): (r: string)
    ensures |r| <= |s|
    ensures 0 <= start <= end <= |s| ==> r == s[start..end]
    ensures 0 <= end <= start <= |s| ==> r == s[end..start]
    ensures end <= 0 && start <= 0 ==> r == []
    // the ECMAScript definition of `substring` itself: clamp both, then slice
    // from the smaller to the larger
    ensures var a, b := Clamp(start, |s|), Clamp(end, |s|);
      r == if a <= b then s[a..b] else s[b..a]
  {
    var a, b := Clamp(start, |s|), Clamp(end, |s|);
    if a <= b then s[a..b] else s[b..a]
  }

  /** `s.substring(start)`: from the clamped start to the end of `s`. */
  function SubstringFrom(s: string, start: int): (r: string)
    ensures 0 <= start <= |s| ==> r == s[start..]
    ensures |s| <= start ==> r == []
    ensures start <= 0 ==> r == s
  {
    Substring(s, start, |s|)
  }

  /** `s.indexOf(x)`: the first position holding `x`, or -1. */
  function IndexOf<T(==)>(s: seq<T>, x: T): (i: int)
    ensures -1 <= i < |s|
    ensures i == -1 <==> x !in s
    ensures 0 <= i ==> s[i] == x && x !in s[..i]
  {
    if s == [] then -1
    else if s[0] == x then 0
    else
      var j := IndexOf(s[1..], x);
      assert s[1..][..if j < 0 then 0 else j] == s[1..if j < 0 then 1 else j + 1];
      if j == -1 then -1 else j + 1
  }
}
