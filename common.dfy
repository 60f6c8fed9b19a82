/**
 * Small shared vocabulary: an optional value, minimum and maximum on reals,
 * and the two bounded-buffer shapes the components use on their arrays:
 * `arr.slice(-n)` (keep the newest n, appended at the end) and
 * `[x, ...arr.slice(0, n - 1)]` (newest first, capped at n).
 */
module Common {

  datatype Option<+T> = None | Some(value: T) {
    function GetOr(default: T): T {
      match this
      case Some(v) => v
      case None => default
    }
  }

  function Min(a: real, b: real): (r: real)
    ensures r <= a && r <= b
    ensures r == a || r == b
  {
    if a <= b then a else b
  }

  function Max(a: real, b: real): (r: real)
    ensures a <= r && b <= r
    ensures r == a || r == b
  {
    if a >= b then a else b
  }

  /** The number of elements `s.slice(-n)` keeps. JavaScript reads `-0` as
      index 0, so a bound of 0 keeps the whole array. */
  function KeptLength(len: nat, n: nat): nat {
    if n == 0 || len <= n then len else n
  }

  /** `s.slice(-n)`: the newest `n` elements, or all of them when there are
      fewer (or when `n` is 0). */
  function KeepLast<T>(s: seq<T>, n: nat): (r: seq<T>)
    ensures |r| == KeptLength(|s|, n)
    ensures n > 0 ==> |r| <= n
    ensures r == s[|s| - |r|..]
    ensures forall i :: 0 <= i < |r| ==> r[i] == s[|s| - |r| + i]
  {
    if n == 0 || |s| <= n then s else s[|s| - n..]
  }

  /** Appending one element and keeping the newest `n`: the new element is
      always kept, as the last one, and what survives of the old buffer is
      its newest part, in order. */
  lemma AppendKeepLast<T>(s: seq<T>, x: T, n: nat)
    requires n > 0
    ensures var r := KeepLast(s + [x], n);
      && |r| == (if |s| + 1 <= n then |s| + 1 else n)
      && r[|r| - 1] == x
      && forall i :: 0 <= i < |r| - 1 ==> r[i] == s[|s| - (|r| - 1) + i]
  {
  }

  /** `[x, ...s.slice(0, cap - 1)]`: newest first, at most `cap` entries. */
  function PrependCapped<T>(x: T, s: seq<T>, cap: nat): (r: seq<T>)
    requires cap >= 1
    ensures |r| == if |s| + 1 <= cap then |s| + 1 else cap
    ensures r[0] == x
    ensures forall i :: 1 <= i < |r| ==> r[i] == s[i - 1]
  {
    [x] + (if |s| <= cap - 1 then s else s[..cap - 1])
  }
}
