/** Small shared vocabulary: optional values, Go's fixed-width integers, and counting in sequences. */
module Basics {

  datatype Option<+T> = None | Some(value: T)

  const TWO32: int := 0x1_0000_0000
  const TWO63: int := 0x8000_0000_0000_0000
  const TWO64: int := 0x1_0000_0000_0000_0000

  /** The value of `x` after a Go conversion to int64 (two's complement wrap-around). */
  function Int64(x: int): (r: int)
    ensures -TWO63 <= r < TWO63
    ensures -TWO63 <= x < TWO63 ==> r == x
  {
    (x + 0x8000_0000_0000_0000) % 0x1_0000_0000_0000_0000 - 0x8000_0000_0000_0000
  }

  /** The value of `x` after a Go conversion to uint32. */
  function Uint32(x: nat): (r: nat)
    ensures r < TWO32
    ensures x < TWO32 ==> r == x
  {
    x % 0x1_0000_0000
  }

  /** `time.Duration(msec) * time.Millisecond`, in nanoseconds, on Go's int64. */
  function Milliseconds(msec: nat): (r: int)
    ensures msec < TWO63 / 1_000_000 ==> r == msec * 1_000_000
  {
    Int64(msec * 1_000_000)
  }

  predicate NoDuplicates<T(==)>(s: seq<T>) {
    forall i, j :: 0 <= i < j < |s| ==> s[i] != s[j]
  }

  lemma NoDuplicatesPrefix<T>(s: seq<T>, t: seq<T>)
    requires s <= t && NoDuplicates(t)
    ensures NoDuplicates(s)
    ensures forall i :: |s| <= i < |t| ==> t[i] !in s
  {
    assert forall i :: 0 <= i < |s| ==> s[i] == t[i];
  }
}
