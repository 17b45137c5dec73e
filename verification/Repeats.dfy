/** Sequences of one repeated value. */
module Repeats {
  function Repeat<T>(n: nat, x: T): (s: seq<T>)
    ensures |s| == n && forall i | 0 <= i < n :: s[i] == x
  {
    if n == 0 then [] else Repeat(n - 1, x) + [x]
  }

  /** A fresh vector. */
  function Zeros(n: nat): (z: seq<real>)
    ensures |z| == n && forall k | 0 <= k < n :: z[k] == 0.0
  {
    if n == 0 then [] else Zeros(n - 1) + [0.0]
  }
}
